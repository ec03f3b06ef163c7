/** Values as the JSON Lines reader hands them to the program, and the
    failures Python raises while the program indexes into them. */
module Json {

  /** A decoded JSON value. Numbers are kept as exact decimals; Python's
      distinction between int and float is not kept. */
  datatype Value =
    | Null
    | Bool(b: bool)
    | Number(n: real)
    | Str(s: string)
    | Array(items: seq<Value>)
    | Object(fields: map<string, Value>)

  /** A JSON object read from one line: a dict from keys to values. */
  type Record = map<string, Value>

  /** One line as the reader's iterator yields it: a dict, or a line that
      makes the loading loop raise (a `null` line, a line that is not an
      object, a line that is not JSON). */
  datatype Line = Obj(fields: Record) | Bad

  /** The exceptions `transform_data` can raise while building one flat
      record. `what` names the key, or the value whose type was wrong. */
  datatype Failure =
    | KeyError(what: string)
    | TypeError(what: string)
    | AttributeError(what: string)

  datatype Result<T> = Ok(value: T) | Err(error: Failure)
}
