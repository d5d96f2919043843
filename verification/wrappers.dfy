/** The optional-value datatype the model uses for the source's `None`
    results, exceptions that end a query, and missing tile values. */
module Wrappers {

  datatype Option<+T> = None | Some(value: T)
}
