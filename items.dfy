/**
  The values the sanitizer works on: address items (`PlaceName`), the two
  kinds it treats specially, and the one run-time failure modelled
  (ZeroDivisionError).
 */
module Items {

  /** The kind every item produced by the sanitizer carries. */
  const HOUSENUMBER: string := "housenumber"

  /** The kind of the item that carries the interpolation directive. */
  const INTERPOLATION: string := "interpolation"

  /** Attributes of a place name other than kind and name (suffix, attr, ...). */
  type Attributes = map<string, string>

  /**
    One tagged value of a place. `clone(kind=..., name=...)` is the datatype
    update `it.(kind := ..., name := ...)`, which keeps `attrs`.
   */
  datatype Item = Item(kind: string, name: string, attrs: Attributes)

  datatype Option<T> = None | Some(value: T)

  /** The outcome of a computation that may raise Python's ZeroDivisionError. */
  datatype Result<T> = Ok(value: T) | ZeroDivisionError
}
