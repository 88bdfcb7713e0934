/** Two small wrapper datatypes used throughout the model.
    - Option<T> stands for a Go pointer field: None is nil, Some(v) points at v.
    - Result<R, E> stands for Go's (value, error) pair: Failure carries a non-nil error.
 */
module Wrappers {

  datatype Option<+T> = None | Some(value: T)

  datatype Result<+R, +E> = Success(value: R) | Failure(error: E)
}
