/** The entities both the pytest plugin and the runner events refer to. */
module Models {

  /** Whether generated inputs must conform to the schema or deliberately violate it. */
  datatype InputType = Valid | Invalid

  /** The enum member's `value`, as it appears in generated test names. */
  function InputTypeValue(t: InputType): (v: string)
    ensures |v| > 0
    ensures v[0] == (if t.Valid? then 'v' else 'i')
  {
    match t
    case Valid => "valid"
    case Invalid => "invalid"
  }

  /**
   * One operation of the API under test. Its identity is (httpMethod, path);
   * `definition` stands for the rest of the operation's schema, opaque here.
   */
  datatype Endpoint = Endpoint(httpMethod: string, path: string, definition: string)
}
