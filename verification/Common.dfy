/** Value types shared by the models of the services. */
module Common {

  datatype Option<+T> = None | Some(value: T)

  /** What a Python call yields: a value, or an exception with its text. */
  datatype Outcome<+T> = Ok(value: T) | Raise(error: string)

  /** A JSON value as the platform stores it: an object, or anything else (`Leaf`; null is `Null`). */
  datatype Json = Null | Leaf(text: string) | Obj(fields: map<string, Json>)
}
