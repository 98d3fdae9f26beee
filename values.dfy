/** Value types shared by every part of the logging facade. */
module Values {

  /** A Go reference or map that may be nil. */
  datatype Maybe<+T> = None | Some(value: T)

  /** The outcome of a constructor that can fail: a ready value, or the error text Go returns. */
  datatype Result<+T> = Success(value: T) | Failure(error: string)

  /** A dynamically typed log argument (Go's `any`). The core only ever asks whether it is a string. */
  datatype Value = Str(s: string) | Int(i: int) | Other(repr: string)

  /** A structured field set (Go's `map[string]any`, logrus.Fields). */
  type Fields = map<string, Value>
}
