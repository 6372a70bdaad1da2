/** The generic emit path, Respond: no transformer, no header overrides; a nil
    payload becomes a MessageResponse whose empty fields are filled from the
    status code. */
module Generic {
  import opened Wrappers
  import opened Json
  import opened Http
  import opened Settings

  const CodeField := "code"
  const MessageField := "message"

  /** A MessageResponse held by pointer: Respond fills it in place. */
  class MessageResponse {
    var code: int
    var message: string

    /** &MessageResponse{}: both fields zero. */
    constructor ()
      ensures code == 0 && message == ""
    {
      code, message := 0, "";
    }
  }

  /** A MessageResponse held by value. */
  datatype Message = Message(code: int, message: string)

  /** What Respond may be handed: a MessageResponse by value, one by pointer,
      or any other value (Plain(Null) being nil). */
  datatype Payload =
    | ByValue(msg: Message)
    | ByPointer(ptr: MessageResponse)
    | Plain(value: Value)

  /** The objects Respond may write to besides the writer. */
  function Pointee(p: Payload): set<object>
  {
    if p.ByPointer? then {p.ptr} else {}
  }

  /** The JSON object for a MessageResponse: "code" and "message" are both
      omitempty, so a zero code or an empty message is left out. */
  function MessageJson(m: Message): (v: Value)
    ensures v.Obj?
    ensures CodeField in v.fields <==> m.code != 0
    ensures MessageField in v.fields <==> m.message != ""
    ensures v.fields.Keys <= {CodeField, MessageField}
  {
    var withCode := if m.code != 0 then map[CodeField := Int(m.code)] else map[];
    Obj(if m.message != "" then withCode[MessageField := Str(m.message)] else withCode)
  }

  /** Decoding such an object back into a MessageResponse: an absent field
      reads as its zero value. */
  function MessageFromJson(v: Value): Option<Message>
  {
    if !v.Obj? then None
    else
      var code := if CodeField in v.fields then v.fields[CodeField] else Int(0);
      var message := if MessageField in v.fields then v.fields[MessageField] else Str("");
      if code.Int? && message.Str? then Some(Message(code.i, message.s)) else None
  }

  /** omitempty loses nothing: decoding the JSON of any message gives it back. */
  lemma MessageJsonRoundTrip(m: Message)
    ensures MessageFromJson(MessageJson(m)) == Some(m)
  {
  }

  /** Defaulting: a zero code becomes the status code and an empty message the
      status text; a field already set is kept. */
  function FillDefaults(m: Message, statusCode: int, statusText: int -> string): (m': Message)
    ensures m'.code == (if m.code == 0 then statusCode else m.code)
    ensures m'.message == (if m.message == "" then statusText(statusCode) else m.message)
    ensures statusCode != 0 ==> m'.code != 0
    ensures statusText(statusCode) != "" ==> m'.message != ""
    ensures m.code != 0 && m.message != "" ==> m' == m
  {
    Message(if m.code == 0 then statusCode else m.code,
            if m.message == "" then statusText(statusCode) else m.message)
  }

  /** Filling in defaults a second time changes nothing. */
  lemma FillDefaultsIdempotent(m: Message, statusCode: int, statusText: int -> string)
    ensures FillDefaults(FillDefaults(m, statusCode, statusText), statusCode, statusText)
         == FillDefaults(m, statusCode, statusText)
  {
  }

  /** The value Respond marshals, read from the payload before Respond runs. */
  function Resolved(p: Payload, statusCode: int, statusText: int -> string): (v: Value)
    reads Pointee(p)
    ensures p.ByValue? ==> MessageFromJson(v) == Some(FillDefaults(p.msg, statusCode, statusText))
    ensures p.ByPointer? ==>
      MessageFromJson(v) == Some(FillDefaults(Message(p.ptr.code, p.ptr.message), statusCode, statusText))
    ensures p == Plain(Null) ==> MessageFromJson(v) == Some(FillDefaults(Message(0, ""), statusCode, statusText))
    ensures p.Plain? && p.value != Null ==> v == p.value
  {
    match p
    case ByValue(m) => MessageJson(FillDefaults(m, statusCode, statusText))
    case ByPointer(ptr) => MessageJson(FillDefaults(Message(ptr.code, ptr.message), statusCode, statusText))
    case Plain(v) =>
      if v == Null then MessageJson(FillDefaults(Message(0, ""), statusCode, statusText)) else v
  }

  /** Content-Type is written iff the default is non-empty; what the writer
      already holds is not consulted. */
  function GenericHeaders(before: map<string, string>, contentType: string): (h: map<string, string>)
    ensures ContentTypeKey in h <==> contentType != "" || ContentTypeKey in before
    ensures contentType != "" ==> h[ContentTypeKey] == contentType
    ensures forall k :: k in before && (k != ContentTypeKey || contentType == "") ==> k in h && h[k] == before[k]
    ensures h.Keys <= before.Keys + {ContentTypeKey}
  {
    if contentType != "" then before[ContentTypeKey := contentType] else before
  }

  /** Respond(w, statusCode, response) under the settings in `cfg`. The body is
      always json.Marshal's compact form: the indent flag is never read. */
  method Respond(w: Writer, statusCode: int, response: Payload, cfg: Config, codec: Codec, statusText: int -> string)
    modifies w, Pointee(response)
    ensures response.ByPointer? ==>
      Message(response.ptr.code, response.ptr.message)
        == FillDefaults(old(Message(response.ptr.code, response.ptr.message)), statusCode, statusText)
    ensures w.header == GenericHeaders(old(w.header), cfg.contentType)
    ensures w.status == statusCode
    ensures w.body == old(w.body) + codec.marshal(old(Resolved(response, statusCode, statusText))) + "\n"
  {
    var ptr: MessageResponse? := null;
    var other: Value := Null;
    match response {
      case Plain(v) =>
        if v == Null {
          ptr := new MessageResponse();
        } else {
          other := v;
        }
      case ByValue(m) =>
        ptr := new MessageResponse();
        ptr.code, ptr.message := m.code, m.message;
      case ByPointer(p) =>
        ptr := p;
    }
    if ptr != null {
      if ptr.code == 0 {
        ptr.code := statusCode;
      }
      if ptr.message == "" {
        ptr.message := statusText(statusCode);
      }
      other := MessageJson(Message(ptr.code, ptr.message));
    }
    var b := codec.marshal(other);
    if cfg.contentType != "" {
      w.Set(ContentTypeKey, cfg.contentType);
    }
    w.WriteHeader(statusCode);
    w.Write(b + "\n");
  }

  /** The per-status functions (OK, NotFound, Teapot, ...): Respond with the
      status's fixed code. */
  method RespondStatus(w: Writer, s: Status, response: Payload, cfg: Config, codec: Codec, statusText: int -> string)
    modifies w, Pointee(response)
    ensures response.ByPointer? ==>
      Message(response.ptr.code, response.ptr.message)
        == FillDefaults(old(Message(response.ptr.code, response.ptr.message)), Code(s), statusText)
    ensures w.header == GenericHeaders(old(w.header), cfg.contentType)
    ensures w.status == Code(s)
    ensures w.body == old(w.body) + codec.marshal(old(Resolved(response, Code(s), statusText))) + "\n"
  {
    Respond(w, Code(s), response, cfg, codec, statusText);
  }

  /** A nil payload is sent as {"code": status, "message": status text}
      (the message left out if the status has no text). */
  lemma NilPayloadMessage(statusCode: int, statusText: int -> string)
    requires statusCode != 0
    ensures var v := Resolved(Plain(Null), statusCode, statusText);
      && v.Obj? && v.fields[CodeField] == Int(statusCode)
      && (statusText(statusCode) != "" ==> v.fields[MessageField] == Str(statusText(statusCode)))
      && MessageFromJson(v) == Some(Message(statusCode, statusText(statusCode)))
  {
    MessageJsonRoundTrip(Message(statusCode, statusText(statusCode)));
  }

  /** A non-nil value that is not a MessageResponse is marshalled unchanged. */
  lemma PlainValueUnchanged(v: Value, statusCode: int, statusText: int -> string)
    requires v != Null
    ensures Resolved(Plain(v), statusCode, statusText) == v
  {
  }

  /** A message already carrying both fields is sent as it is. */
  lemma SetFieldsKept(m: Message, statusCode: int, statusText: int -> string)
    requires m.code != 0 && m.message != ""
    ensures Resolved(ByValue(m), statusCode, statusText) == MessageJson(m)
  {
  }
}
