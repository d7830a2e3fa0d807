/**
 * The JSON text stored in a record's column, abstracted: the text itself is not
 * modelled, only whether it is absent, unreadable, or the serialisation of a value.
 */
module Json {
  import opened Arr

  /** The raw column: SQL NULL, text that is not valid JSON, or the serialisation of `document`. */
  datatype Column = Missing | Malformed | Encoded(document: Value)

  /** `json_encode($v)`. */
  function Encode(v: Value): Column
  {
    Encoded(v)
  }

  /** `json_decode($text, true)`: the decoded value, or null when the text is absent or malformed. */
  function Decode(c: Column): Value
  {
    match c
    case Encoded(v) => v
    case _ => Null
  }

  /** Decoding what was encoded gives the value back. */
  lemma DecodeEncode(v: Value)
    ensures Decode(Encode(v)) == v
  {
  }
}
