/** JSON values as the library hands them to the encoder, and the encoder itself
    (which belongs to Go's standard library and enters the model as parameters). */
module Json {

  /** A value that can be serialized. `Null` is also the nil interface value:
      a payload or body that is absent. */
  datatype Value =
    | Null
    | Bool(b: bool)
    | Int(i: int)
    | Str(s: string)
    | Obj(fields: map<string, Value>)

  /** The two encoder entry points the library calls: `marshal` is json.Marshal
      (always compact) and `indent` is json.Indent with an empty prefix and one
      tab per level, applied to marshal's output. Both are outside this model. */
  datatype Codec = Codec(marshal: Value -> string, indent: string -> string)

  /** serializeToString: compact JSON, passed through the indenter when the
      process-wide indent flag is on. */
  function SerializeToString(v: Value, indent: bool, codec: Codec): (s: string)
    ensures !indent ==> s == codec.marshal(v)
    ensures indent ==> s == codec.indent(codec.marshal(v))
  {
    var compact := codec.marshal(v);
    if indent then codec.indent(compact) else compact
  }
}
