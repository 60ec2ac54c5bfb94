/** Optional values: the model's rendering of JavaScript's `null`/`undefined`.
    `Option` is failure-compatible, so parsers can be chained with `:-`. */
module Wrappers {

  datatype Option<+T> = None | Some(value: T) {

    predicate IsFailure() {
      None?
    }

    function PropagateFailure<U>(): Option<U>
      requires None?
    {
      None
    }

    function Extract(): T
      requires Some?
    {
      value
    }
  }
}

/** The outcome of one request to the REST API. The model never performs I/O:
    every call site takes the outcome the server would produce as a parameter. */
module Http {
  import opened Wrappers

  /** One entry of the `errors` array of a validation-error body. */
  datatype FieldError = FieldError(field: string, message: string)

  /** What a rejected request carries: the HTTP status when a response arrived,
      and the `errors` array when the body has one. */
  datatype HttpFailure = HttpFailure(status: Option<int>, errors: Option<seq<FieldError>>)

  datatype Reply<+T> = Ok(value: T) | Fail(failure: HttpFailure)
}
