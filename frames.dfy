/**
 * The data held by a `Prediction`: a table of model predictions whose columns are
 * model names and whose rows are row ids, and the read-only operations on it
 * (`names`, `size`, `shape`, `len`, `in`, indexing by name(s) and `iter`).
 *
 * A pandas DataFrame is modelled by `Frame`: the ordered column names, one sparse
 * column per name (a missing, NaN, cell is an absent key) and the set of row ids.
 * The order of the rows is not modelled. `Table` adds the empty table
 * (`df is None`) as `None`.
 */
module Frames {
  import opened Errors

  type Id = string
  type Name = string

  /** The non-missing values of one model, by row id. */
  type Column = map<Id, real>

  datatype Frame = Frame(names: seq<Name>, cols: map<Name, Column>, ids: set<Id>)

  /** `None` is a `Prediction` whose `df` is `None`. */
  type Table = Option<Frame>

  /** The shape of a table: `()` for the empty table, `(rows, columns)` otherwise. */
  datatype Shape = NoShape | Dims(rows: nat, columns: nat)

  predicate Distinct(s: seq<string>)
  {
    forall i, j :: 0 <= i < j < |s| ==> s[i] != s[j]
  }

  /** What every DataFrame of model predictions satisfies: one column per distinct
      name, and every value sits on a row of the frame. */
  ghost predicate WellFormed(f: Frame)
  {
    && Distinct(f.names)
    && (forall n :: n in f.cols <==> n in f.names)
    && (forall n :: n in f.cols ==> f.cols[n].Keys <= f.ids)
  }

  ghost predicate ValidTable(t: Table)
  {
    t.Some? ==> WellFormed(t.value)
  }

  /** The cell of model `name` on row `id`; `None` when missing. */
  function Cell(f: Frame, name: Name, id: Id): Option<real>
  {
    if name in f.cols && id in f.cols[name] then Some(f.cols[name][id]) else None
  }

  /** `names`: the column names in order; empty for the empty table. */
  function Names(t: Table): (r: seq<Name>)
    ensures t.None? ==> r == []
    ensures ValidTable(t) ==> Distinct(r)
    ensures ValidTable(t) ==> forall n :: n in r <==> t.Some? && n in t.value.cols
  {
    if t.None? then [] else t.value.names
  }

  /** `len`: the number of rows; 0 for the empty table. Every single-model view
      `prediction[name]` has as many rows as the table. */
  function Len(t: Table): (r: nat)
    ensures t.None? ==> r == 0
    ensures ValidTable(t) && t.Some? ==>
      forall n :: n in Names(t) ==> GetModel(t, n).Ok? && |GetModel(t, n).value.ids| == r
  {
    if t.None? then 0 else |t.value.ids|
  }

  /** `size`: the number of cells, missing ones included. */
  function Size(t: Table): (r: nat)
    ensures r == Len(t) * |Names(t)|
    ensures t.None? ==> r == 0
  {
    if t.None? then 0 else |t.value.ids| * |t.value.names|
  }

  /** `shape`: the empty tuple for the empty table, never `(0, 0)`. */
  function ShapeOf(t: Table): (r: Shape)
    ensures r == NoShape <==> t.None?
    ensures r.Dims? ==> r.rows == Len(t) && r.columns == |Names(t)|
  {
    if t.None? then NoShape else Dims(|t.value.ids|, |t.value.names|)
  }

  /** `name in prediction`. On the empty table the source evaluates `name in None`,
      which raises, hence the precondition. */
  function Contains(t: Table, name: Name): (r: bool)
    requires t.Some?
    ensures ValidTable(t) ==> (r <==> name in Names(t))
  {
    name in t.value.cols
  }

  /** The one-column frame of model `name` over all the rows of `f`. */
  function SingleModel(f: Frame, name: Name): Frame
    requires name in f.cols
  {
    Frame([name], map[name := f.cols[name]], f.ids)
  }

  /** `prediction[name]` for a string: the one-column table of that model, with
      the same rows; a name that is not a column raises `KeyError`. */
  function GetModel(t: Table, name: Name): (r: Result<Frame>)
    requires t.Some? && ValidTable(t)
    ensures r.Ok? <==> name in Names(t)
    ensures r.Err? ==> r.error == KeyError
    ensures r.Ok? ==> && WellFormed(r.value)
                      && r.value.names == [name]
                      && r.value.ids == t.value.ids
                      && forall id :: Cell(r.value, name, id) == Cell(t.value, name, id)
  {
    if name in t.value.cols then Ok(SingleModel(t.value, name)) else Err(KeyError)
  }

  /** `prediction[names]` for a list: the listed columns in the given order, with
      the same rows; raises `KeyError` when a listed name is not a column. */
  function GetModels(t: Table, names: seq<Name>): (r: Result<Frame>)
    requires t.Some? && ValidTable(t) && Distinct(names)
    ensures r.Ok? <==> forall i :: 0 <= i < |names| ==> names[i] in Names(t)
    ensures r.Err? ==> r.error == KeyError
    ensures r.Ok? ==> && WellFormed(r.value)
                      && r.value.names == names
                      && r.value.ids == t.value.ids
                      && forall n, id :: n in names ==> Cell(r.value, n, id) == Cell(t.value, n, id)
  {
    if forall n :: n in names ==> n in t.value.cols then
      Ok(Frame(names, map n | n in names :: t.value.cols[n], t.value.ids))
    else
      Err(KeyError)
  }

  /** `iter`: one single-model table per name, in `names` order; each is
      `prediction[name]`. */
  function Iter(t: Table): (r: seq<Frame>)
    requires ValidTable(t)
    ensures |r| == |Names(t)|
    ensures forall i :: 0 <= i < |r| ==> t.Some? && GetModel(t, Names(t)[i]) == Ok(r[i])
  {
    if t.None? then []
    else seq(|t.value.names|, i requires 0 <= i < |t.value.names| => SingleModel(t.value, t.value.names[i]))
  }

  /** On the empty table every introspection has its explicit empty case. */
  lemma EmptyTableIntrospection()
    ensures Names(None) == [] && Len(None) == 0 && Size(None) == 0
    ensures ShapeOf(None) == NoShape && Iter(None) == []
  {
  }
}
