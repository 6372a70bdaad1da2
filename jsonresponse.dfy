/** The envelope emit pipeline, Response.Response: transform the payload,
    merge the header overrides over the transformer's headers, copy them onto
    the writer, fall back to the default Content-Type, then write the status
    and the serialized body. */
module JsonResponse {
  import opened Wrappers
  import opened Json
  import opened Http
  import opened Envelope
  import opened Transformers
  import opened Settings

  /** The transformer runs only when there is one and the payload is not nil;
      otherwise there are no headers and the body is the payload itself. */
  function Transform(t: Option<Transformer>, r: Response, httpCode: int): (tr: Transformed)
    ensures t.Some? && r.data != Null ==> tr == Apply(t.value, r, httpCode)
    ensures t.None? || r.data == Null ==> tr == Transformed(map[], r.data)
  {
    if t.Some? && r.data != Null then Apply(t.value, r, httpCode)
    else Transformed(map[], r.data)
  }

  /** Header precedence: every key of either map, the override's value
      winning on an exact key match. */
  function Merged(base: map<string, string>, overrides: map<string, string>): (m: map<string, string>)
    ensures m.Keys == base.Keys + overrides.Keys
    ensures forall k :: k in overrides ==> m[k] == overrides[k]
    ensures forall k :: k in base && k !in overrides ==> m[k] == base[k]
  {
    map k | k in base.Keys + overrides.Keys :: if k in overrides then overrides[k] else base[k]
  }

  /** The writer's headers after the pipeline: what it held before, every
      merged header on top, and Content-Type set to the default whenever the
      merged map lacks that exact key, even when the default is "". */
  function WriterHeaders(before: map<string, string>, merged: map<string, string>, contentType: string): (h: map<string, string>)
    ensures h.Keys == before.Keys + merged.Keys + {ContentTypeKey}
    ensures forall k :: k in merged ==> h[k] == merged[k]
    ensures ContentTypeKey !in merged ==> h[ContentTypeKey] == contentType
    ensures forall k :: k in before && k !in merged && k != ContentTypeKey ==> h[k] == before[k]
  {
    var h := before + merged;
    if ContentTypeKey in merged then h else h[ContentTypeKey := contentType]
  }

  /** The bytes written after the status line: nothing for a nil body,
      otherwise the serialized body and exactly one newline. */
  function BodyText(body: Value, indent: bool, codec: Codec): (s: string)
    ensures body == Null <==> s == ""
    ensures body != Null ==> s == SerializeToString(body, indent, codec) + "\n"
  {
    if body == Null then "" else SerializeToString(body, indent, codec) + "\n"
  }

  /** The loop that copies r.Headers into the transformer's map. */
  method MergeHeaders(base: map<string, string>, overrides: map<string, string>) returns (headers: map<string, string>)
    ensures headers == Merged(base, overrides)
  {
    headers := base;
    var todo := overrides.Keys;
    while todo != {}
      invariant todo <= overrides.Keys
      invariant headers.Keys == base.Keys + (overrides.Keys - todo)
      invariant forall k :: k in overrides && k !in todo ==> headers[k] == overrides[k]
      invariant forall k :: k in base && (k !in overrides || k in todo) ==> headers[k] == base[k]
      decreases todo
    {
      var k :| k in todo;
      headers := headers[k := overrides[k]];
      todo := todo - {k};
    }
  }

  /** Response.Response(w, httpCode) under the settings in `cfg`. */
  method Emit(r: Response, w: Writer, httpCode: int, cfg: Config, codec: Codec)
    modifies w
    ensures var tr := Transform(cfg.transformer, r, httpCode);
      && w.header == WriterHeaders(old(w.header), Merged(tr.headers, r.headers.entries), cfg.contentType)
      && w.status == httpCode
      && w.body == old(w.body) + BodyText(tr.body, cfg.indent, codec)
  {
    var tr: Transformed;
    if cfg.transformer.Some? && r.data != Null {
      tr := Apply(cfg.transformer.value, r, httpCode);
    } else {
      tr := Transformed(map[], r.data);
    }
    var headers := MergeHeaders(tr.headers, r.headers.entries);

    var todo := headers.Keys;
    while todo != {}
      invariant todo <= headers.Keys
      invariant w.header == old(w.header) + (headers - todo)
      invariant w.status == old(w.status) && w.body == old(w.body)
      decreases todo
    {
      var k :| k in todo;
      w.Set(k, headers[k]);
      todo := todo - {k};
    }
    assert headers - {} == headers;

    if ContentTypeKey !in headers {
      w.Set(ContentTypeKey, cfg.contentType);
    }
    w.WriteHeader(httpCode);
    if tr.body != Null {
      w.Write(SerializeToString(tr.body, cfg.indent, codec) + "\n");
    }
  }

  /** The per-status methods (OK, NotFound, Teapot, ...): Response.Response
      with the status's fixed code. */
  method EmitStatus(r: Response, w: Writer, s: Status, cfg: Config, codec: Codec)
    modifies w
    ensures var tr := Transform(cfg.transformer, r, Code(s));
      && w.header == WriterHeaders(old(w.header), Merged(tr.headers, r.headers.entries), cfg.contentType)
      && w.status == Code(s)
      && w.body == old(w.body) + BodyText(tr.body, cfg.indent, codec)
  {
    Emit(r, w, Code(s), cfg, codec);
  }

  /** A nil payload bypasses every transformer, nil or not: no headers, and a
      nil body, so nothing is written after the status line. */
  lemma NilPayloadBypass(t: Option<Transformer>, r: Response, httpCode: int, indent: bool, codec: Codec)
    requires r.data == Null
    ensures Transform(t, r, httpCode) == Transformed(map[], Null)
    ensures BodyText(Transform(t, r, httpCode).body, indent, codec) == ""
  {
  }

  /** With no transformer the payload is sent as it is. */
  lemma NilTransformerBypass(r: Response, httpCode: int)
    ensures Transform(None, r, httpCode) == Transformed(map[], r.data)
  {
  }

  /** Passthrough, installed, leaves the payload unchanged whether or not it runs. */
  lemma PassthroughPreservesPayload(r: Response, httpCode: int)
    ensures Transform(Some(Passthrough), r, httpCode) == Transformed(map[], r.data)
  {
  }

  /** The default transformer, installed, sends {"data": payload} for a non-nil
      payload without an excuse, and adds the excuse when there is one. */
  lemma DefaultPipelineBody(r: Response, httpCode: int)
    requires r.data != Null
    ensures var tr := Transform(Some(Default), r, httpCode);
      && tr.headers == map[]
      && (r.excuse == "" ==> tr.body == Obj(map[DataField := r.data]))
      && (r.excuse != "" ==> tr.body == Obj(map[DataField := r.data, ExcuseField := Str(r.excuse)]))
  {
    var tr := Transform(Some(Default), r, httpCode);
    if r.excuse == "" {
      assert tr.body.fields == map[DataField := r.data];
    } else {
      assert tr.body.fields == map[DataField := r.data, ExcuseField := Str(r.excuse)];
    }
  }

  /** On the envelope path the writer always ends up with a Content-Type: the
      merged one when present, the default (possibly "") otherwise. */
  lemma ContentTypeAlwaysSet(before: map<string, string>, th: map<string, string>, overrides: map<string, string>, contentType: string)
    ensures var h := WriterHeaders(before, Merged(th, overrides), contentType);
      && ContentTypeKey in h
      && h[ContentTypeKey] == (if ContentTypeKey in overrides then overrides[ContentTypeKey]
                               else if ContentTypeKey in th then th[ContentTypeKey]
                               else contentType)
  {
  }
}
