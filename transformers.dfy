/** The response transformers: functions from (Response, status code) to the
    headers they contribute and the body that will be serialized. */
module Transformers {
  import opened Json
  import opened Envelope

  /** The key the default transformer wraps the payload under. */
  const DataField := "data"
  /** The key the excuse is stored under by the transformers that carry it. */
  const ExcuseField := "programming-excuse"

  /** What a transformer returns: headers for the response and the body value. */
  datatype Transformed = Transformed(headers: map<string, string>, body: Value)

  /** The transformers the library ships, plus any caller-supplied function.
      MessageCode and MessageCodeExcuse are the closures built by the
      constructors of the same name, with the field names they captured. */
  datatype Transformer =
    | Default
    | Passthrough
    | MessageCode(dataField: string, codeField: string)
    | MessageCodeExcuse(dataField: string, codeField: string)
    | Custom(apply: (Response, int) -> Transformed)

  /** PassthroughTransformer: the payload as it is, no headers. */
  function PassthroughTransformer(r: Response, httpCode: int): (tr: Transformed)
    ensures tr.headers == map[]
    ensures tr.body == r.data
  {
    Transformed(map[], r.data)
  }

  /** The closure built by MessageCodeTransformer(dataField, codeField): an
      object holding the payload and the status code. Were the two names equal,
      the later literal entry (the code) would win. */
  function MessageCodeTransformer(dataField: string, codeField: string, r: Response, httpCode: int): (tr: Transformed)
    ensures tr.headers == map[] && tr.body.Obj?
    ensures tr.body.fields.Keys == {dataField, codeField}
    ensures tr.body.fields[codeField] == Int(httpCode)
    ensures dataField != codeField ==> tr.body.fields[dataField] == r.data
  {
    Transformed(map[], Obj(map[dataField := r.data, codeField := Int(httpCode)]))
  }

  /** The closure built by MessageCodeExcuseTransformer: MessageCodeTransformer's
      object, plus the excuse exactly when one is attached. */
  function MessageCodeExcuseTransformer(dataField: string, codeField: string, r: Response, httpCode: int): (tr: Transformed)
    ensures tr.headers == map[] && tr.body.Obj?
    ensures var base := MessageCodeTransformer(dataField, codeField, r, httpCode).body.fields;
      tr.body.fields == if r.excuse == "" then base else base[ExcuseField := Str(r.excuse)]
    ensures ExcuseField in tr.body.fields <==> r.excuse != "" || ExcuseField == dataField || ExcuseField == codeField
  {
    var fields := map[dataField := r.data, codeField := Int(httpCode)];
    Transformed(map[], Obj(if r.excuse != "" then fields[ExcuseField := Str(r.excuse)] else fields))
  }

  /** defaultTransformer: the payload under "data", and the excuse under
      "programming-excuse" when one is attached. */
  function DefaultTransformer(r: Response, httpCode: int): (tr: Transformed)
    ensures tr.headers == map[] && tr.body.Obj?
    ensures tr.body.fields.Keys == if r.excuse == "" then {DataField} else {DataField, ExcuseField}
    ensures tr.body.fields[DataField] == r.data
    ensures r.excuse != "" ==> tr.body.fields[ExcuseField] == Str(r.excuse)
  {
    var fields := map[DataField := r.data];
    Transformed(map[], Obj(if r.excuse != "" then fields[ExcuseField := Str(r.excuse)] else fields))
  }

  /** Calling a transformer value. */
  function Apply(t: Transformer, r: Response, httpCode: int): (tr: Transformed)
    ensures t.Custom? ==> tr == t.apply(r, httpCode)
    ensures !t.Custom? ==> tr.headers == map[]
    ensures t.Passthrough? ==> tr.body == r.data
    ensures t.Default? || t.MessageCode? || t.MessageCodeExcuse? ==> tr.body.Obj?
  {
    match t
    case Default => DefaultTransformer(r, httpCode)
    case Passthrough => PassthroughTransformer(r, httpCode)
    case MessageCode(d, c) => MessageCodeTransformer(d, c, r, httpCode)
    case MessageCodeExcuse(d, c) => MessageCodeExcuseTransformer(d, c, r, httpCode)
    case Custom(f) => f(r, httpCode)
  }

  /** None of the library's transformers looks at the header overrides: two
      responses with the same payload and excuse transform alike. */
  lemma BuiltinIgnoresHeaders(t: Transformer, r1: Response, r2: Response, httpCode: int)
    requires !t.Custom?
    requires r1.data == r2.data && r1.excuse == r2.excuse
    ensures Apply(t, r1, httpCode) == Apply(t, r2, httpCode)
  {
  }

  /** The library's transformers contribute no headers. */
  lemma BuiltinAddsNoHeaders(t: Transformer, r: Response, httpCode: int)
    requires !t.Custom?
    ensures Apply(t, r, httpCode).headers == map[]
  {
  }

  /** MessageCodeTransformer never adds the excuse field, whatever the excuse. */
  lemma MessageCodeIgnoresExcuse(dataField: string, codeField: string, r: Response, httpCode: int)
    requires ExcuseField != dataField && ExcuseField != codeField
    ensures ExcuseField !in MessageCodeTransformer(dataField, codeField, r, httpCode).body.fields
  {
  }
}
