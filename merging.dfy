/**
 * The merge engine of `Prediction.append_prediction`: how a batch holding one
 * model's predictions joins a table. Three branches:
 *   - the empty table adopts the batch;
 *   - a new model name is outer-joined on row id;
 *   - an existing model name gets the union of its old and the batch's
 *     non-missing values, which must not share a row id.
 */
module Merging {
  import opened Errors
  import opened Frames

  /** The outer join of a table with a batch for a model it does not hold yet:
      the new column comes last, the rows are the union of both row sets, the old
      cells are unchanged (so missing on batch-only rows) and the new column is the
      batch's (so missing on table-only rows). */
  ghost predicate OuterJoin(f: Frame, b: Frame, g: Frame)
    requires |b.names| == 1
  {
    var name := b.names[0];
    && g.names == f.names + [name]
    && g.ids == f.ids + b.ids
    && (forall n, id :: n in f.cols ==> Cell(g, n, id) == Cell(f, n, id))
    && (forall id :: Cell(g, name, id) == Cell(b, name, id))
  }

  /** Re-insertion of model `b.names[0]` that the table already holds: the same
      columns in the same order, the rows grow by the batch's non-missing ids,
      other columns are unchanged, and the column holds its old values together
      with the batch's. */
  ghost predicate ColumnUnion(f: Frame, b: Frame, g: Frame)
    requires |b.names| == 1 && b.names[0] in b.cols
  {
    var name := b.names[0];
    && g.names == f.names
    && g.ids == f.ids + b.cols[name].Keys
    && (forall n, id :: n in f.cols && n != name ==> Cell(g, n, id) == Cell(f, n, id))
    && (forall id :: Cell(g, name, id) == if Cell(f, name, id).Some? then Cell(f, name, id) else Cell(b, name, id))
  }

  /** The table with column `name` (not one of its columns yet) added last. */
  function AddColumn(f: Frame, name: Name, c: Column, ids: set<Id>): Frame
  {
    Frame(f.names + [name], f.cols[name := c], f.ids + ids)
  }

  /** The table with column `name` (one of its columns) replaced by `c`. */
  function ReplaceColumn(f: Frame, name: Name, c: Column): Frame
  {
    Frame(f.names, f.cols[name := c], f.ids + c.Keys)
  }

  /** `append_prediction` on values: the new table, or the exception raised. A
      batch with other than one column raises `NotImplementedError`; re-inserting
      values on rows where the model already has one raises `ValueError`. In the
      re-insertion branch the source's final `pd.merge` call mixes `on=` with
      `left_index`/`right_index`; what is modelled is the intent stated in its
      comment: the column becomes the union of the old and the new values. */
  function Merge(t: Table, b: Frame): (r: Result<Frame>)
    requires ValidTable(t) && WellFormed(b)
    ensures r.Ok? ==> WellFormed(r.value)
    ensures |b.names| != 1 ==> r == Err(NotImplementedError)
    ensures |b.names| == 1 && t.None? ==> r == Ok(b)
    ensures |b.names| == 1 && t.Some? && b.names[0] !in Names(t) ==>
      r.Ok? && OuterJoin(t.value, b, r.value)
    ensures |b.names| == 1 && t.Some? && b.names[0] in Names(t) ==>
      && (r.Ok? <==> forall id :: !(Cell(t.value, b.names[0], id).Some? && Cell(b, b.names[0], id).Some?))
      && (r.Err? ==> r.error == ValueError(OverlappingIds))
      && (r.Ok? ==> ColumnUnion(t.value, b, r.value))
  {
    if |b.names| != 1 then Err(NotImplementedError)
    else
      var name := b.names[0];
      if t.None? then Ok(b)
      else if !Contains(t, name) then
        Ok(AddColumn(t.value, name, b.cols[name], b.ids))
      else
        var y := t.value.cols[name];
        var s := b.cols[name];
        if y.Keys * s.Keys != {} then
          assert Cell(t.value, name, PickCommon(y, s)).Some?;
          Err(ValueError(OverlappingIds))
        else
          assert forall id :: id in y && id in s ==> id in y.Keys * s.Keys;
          Ok(ReplaceColumn(t.value, name, s + y))
  }

  /** A row id on which both columns hold a value. */
  ghost function PickCommon(y: Column, s: Column): (id: Id)
    requires y.Keys * s.Keys != {}
    ensures id in y && id in s
  {
    var id :| id in y.Keys * s.Keys; id
  }

  /** A batch for model `name` whose rows are exactly its non-missing values. */
  function Batch(name: Name, c: Column): (b: Frame)
    ensures WellFormed(b) && b.names == [name] && b.ids == c.Keys
  {
    Frame([name], map[name := c], c.Keys)
  }

  /** Two batches for a model the table does not hold, on disjoint row ids, are
      both accepted, and the model's column ends up as the union of the two. */
  lemma {:induction false} DisjointBatchesUnion(t: Table, name: Name, c1: Column, c2: Column)
    requires ValidTable(t) && name !in Names(t) && c1.Keys !! c2.Keys
    ensures Merge(t, Batch(name, c1)).Ok?
    ensures var g := Merge(t, Batch(name, c1)).value;
            && Merge(Some(g), Batch(name, c2)).Ok?
            && Merge(Some(g), Batch(name, c2)).value.cols[name] == c1 + c2
  {
    var b1, b2 := Batch(name, c1), Batch(name, c2);
    var g := Merge(t, b1).value;
    assert name in g.cols && g.cols[name] == c1 by {
      if t.Some? {
        assert Names(Some(g)) == g.names == t.value.names + [name];
        forall id ensures Cell(g, name, id) == Cell(b1, name, id) { }
        assert forall id :: id in g.cols[name] <==> id in c1 by {
          forall id ensures id in g.cols[name] <==> id in c1 {
            assert Cell(g, name, id) == Cell(b1, name, id);
          }
        }
      }
    }
    assert name in Names(Some(g));
    forall id ensures !(Cell(g, name, id).Some? && Cell(b2, name, id).Some?) {
    }
    var h := Merge(Some(g), b2).value;
    assert h.cols[name] == c1 + c2 by {
      forall id ensures id in h.cols[name] <==> id in c1 + c2 {
        assert Cell(h, name, id) == if Cell(g, name, id).Some? then Cell(g, name, id) else Cell(b2, name, id);
      }
      forall id | id in h.cols[name] ensures h.cols[name][id] == (c1 + c2)[id] {
        assert Cell(h, name, id) == if Cell(g, name, id).Some? then Cell(g, name, id) else Cell(b2, name, id);
      }
    }
  }

  /** Re-inserting two batches for a model the table holds, on row ids that are
      new and disjoint, gives the same table in either order. */
  lemma {:induction false} ReinsertionOrderIrrelevant(t: Table, name: Name, c1: Column, c2: Column)
    requires ValidTable(t) && name in Names(t)
    requires c1.Keys !! c2.Keys && c1.Keys !! t.value.cols[name].Keys && c2.Keys !! t.value.cols[name].Keys
    ensures Merge(t, Batch(name, c1)).Ok? && Merge(t, Batch(name, c2)).Ok?
    ensures var g1, g2 := Merge(t, Batch(name, c1)).value, Merge(t, Batch(name, c2)).value;
            && Merge(Some(g1), Batch(name, c2)).Ok?
            && Merge(Some(g1), Batch(name, c2)) == Merge(Some(g2), Batch(name, c1))
  {
    var f, b1, b2 := t.value, Batch(name, c1), Batch(name, c2);
    var y := f.cols[name];
    var g1, g2 := Merge(t, b1).value, Merge(t, b2).value;
    assert g1 == ReplaceColumn(f, name, c1 + y);
    assert g2 == ReplaceColumn(f, name, c2 + y);
    var m := c1 + (c2 + y);
    assert c2 + (c1 + y) == m;
    assert Merge(Some(g1), b2) == Ok(ReplaceColumn(g1, name, m));
    assert Merge(Some(g2), b1) == Ok(ReplaceColumn(g2, name, m));
    ReplaceTwice(f, name, c1 + y, m);
    ReplaceTwice(f, name, c2 + y, m);
  }

  /** Replacing a column twice keeps the rows the first replacement added. */
  lemma ReplaceTwice(f: Frame, name: Name, c: Column, d: Column)
    requires c.Keys <= d.Keys
    ensures ReplaceColumn(ReplaceColumn(f, name, c), name, d) == ReplaceColumn(f, name, d)
  {
    assert f.cols[name := c][name := d] == f.cols[name := d];
  }

  /** The two batches of the end-to-end example, and the table they make. */
  function ExampleM1(): Frame { Batch("m1", map["id1" := 0.2, "id2" := 0.8]) }
  function ExampleM2(): Frame { Batch("m2", map["id1" := 0.3, "id2" := 0.7]) }
  function ExampleTable(): Frame { AddColumn(ExampleM1(), "m2", ExampleM2().cols["m2"], ExampleM2().ids) }

  lemma ExampleTableIsMerge()
    ensures Merge(None, ExampleM1()) == Ok(ExampleM1())
    ensures Merge(Some(ExampleM1()), ExampleM2()) == Ok(ExampleTable())
  {
    assert "m2" !in Names(Some(ExampleM1()));
  }

  /** The end-to-end example, first part: `m1` then `m2` on the same two rows
      gives two rows, names in insertion order and no missing cell. */
  lemma EndToEndInsertBoth()
    ensures var g := Merge(Some(Merge(None, ExampleM1()).value), ExampleM2());
            && g.Ok? && Len(Some(g.value)) == 2 && Names(Some(g.value)) == ["m1", "m2"]
            && forall n, id :: n in g.value.names && id in g.value.ids ==> Cell(g.value, n, id).Some?
  {
    ExampleTableIsMerge();
    var g := ExampleTable();
    assert g.ids == {"id1", "id2"};
    assert "id1" != "id2";
    forall n, id | n in g.names && id in g.ids ensures Cell(g, n, id).Some? {
      assert n == "m1" || n == "m2";
    }
  }

  /** The end-to-end example, second part: re-inserting `m1` on `id1` raises. */
  lemma EndToEndOverlap()
    ensures Merge(Some(ExampleTable()), Batch("m1", map["id1" := 0.25])) == Err(ValueError(OverlappingIds))
  {
    var g, late := ExampleTable(), Batch("m1", map["id1" := 0.25]);
    assert "m1" in Names(Some(g));
    assert Cell(g, "m1", "id1").Some? && Cell(late, "m1", "id1").Some?;
  }

  /** The table of the end-to-end example once `m1` has a value on `id3` too. */
  function ExampleGrown(): Frame
  {
    ReplaceColumn(ExampleTable(), "m1", map["id3" := 0.9] + map["id1" := 0.2, "id2" := 0.8])
  }

  lemma ExampleGrownIsMerge()
    ensures Merge(Some(ExampleTable()), Batch("m1", map["id3" := 0.9])) == Ok(ExampleGrown())
  {
    var g := ExampleTable();
    var c1, s := map["id1" := 0.2, "id2" := 0.8], map["id3" := 0.9];
    assert g.cols["m1"] == c1;
    assert "id3" != "id1" && "id3" != "id2";
    assert c1.Keys * s.Keys == {};
  }

  /** The end-to-end example, third part: re-inserting `m1` on the new row `id3`
      succeeds with three rows, and `m2` is missing on `id3`. */
  lemma EndToEndNewRow()
    ensures var h := Merge(Some(ExampleTable()), Batch("m1", map["id3" := 0.9]));
            h.Ok? && Len(Some(h.value)) == 3 && Cell(h.value, "m2", "id3") == None
  {
    ExampleGrownIsMerge();
    var h := ExampleGrown();
    assert ExampleTable().ids == {"id1", "id2"};
    assert (map["id3" := 0.9] + map["id1" := 0.2, "id2" := 0.8]).Keys == {"id3", "id1", "id2"};
    assert h.ids == {"id1", "id2", "id3"};
    ThreeRows("id1", "id2", "id3");
    assert "m2" != "m1";
  }

  lemma ThreeRows(a: Id, b: Id, c: Id)
    requires a != b && a != c && b != c
    ensures |{a, b, c}| == 3
  {
  }
}
