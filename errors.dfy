/** Optional values, results and the exception classes the prediction table raises. */
module Errors {

  /** `None` stands for an absent value: an empty table, or a missing (NaN) cell. */
  datatype Option<+T> = None | Some(value: T)

  /** Why a `ValueError` was raised. */
  datatype Reason =
    | SingleModelOnly   // `__setitem__` given a prediction with other than one column
    | LengthMismatch    // `append_arrays` given ids and values of different lengths
    | OverlappingIds    // re-insertion whose ids already hold values (verify_integrity)
    | TooFewModels      // `dominance_df` over a single model
    | UnknownSortKey    // `performance` given an unrecognised `sort_by`

  /** The Python exception classes raised by the modelled operations. */
  datatype Error =
    | NotImplementedError       // `append_prediction` given other than one model
    | ValueError(reason: Reason)
    | KeyError                  // a model name that is not a column

  datatype Result<+T> = Ok(value: T) | Err(error: Error)

  /** The outcome of an operation that returns nothing or raises. */
  datatype Outcome = Pass | Fail(error: Error)
}
