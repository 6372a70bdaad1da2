# jsonresponse in Dafny

A model of the Go package `jsonresponse`, a helper that writes JSON HTTP
responses. It has two emit paths. Both run on an abstract response writer,
and both take the library's three process-wide settings as one `Config` object.

- The **envelope path** is `Response` and its per-status methods. It takes a
  payload, header overrides and an optional "programming excuse". It runs the
  active transformer, but only when a transformer is installed and the payload
  is not nil. It then merges the overrides over the transformer's headers
  (the override wins on the same key) and copies the result onto the writer.
  If the merged map has no `Content-Type`, the writer gets the default one,
  even when that default is the empty string. Last, it writes the status line
  and, for a non-nil body, the serialized body and one newline.
- The **generic path** is `Respond` and its per-status functions. A nil
  payload becomes an empty `MessageResponse`. A zero code is filled with the
  status code, and an empty message with the status text. The body is always
  compact JSON, and `Content-Type` is set only when the default is non-empty.
- The **transformers** are passthrough, message+code, message+code+excuse and
  the default `{"data": …}` wrapper. They are pure functions. Any
  caller-supplied function is a `Custom` transformer.

Modules: `Wrappers` (Option), `Json` (values and the encoder interface),
`Http` (the writer and the status-code table), `Envelope`, `Transformers`,
`Settings`, `JsonResponse` (the envelope path) and `Generic` (the generic path).

Code outside the package enters as parameters. These are `json.Marshal`,
`json.Indent` (the `Json.Codec` datatype) and `http.StatusText` (a
`statusText: int -> string` argument). The model assumes nothing about them
beyond their types.

Three behaviours of the code are worth stating outright; the model follows the code in each:

- `Response` has value receivers, but its `Headers` field is a Go map, which
  is a reference. `Header` writes into that map and returns the receiver
  (jsonresponse.go:38, 104-107). A copy of a response and the copy `Header`
  returns therefore share one map, so adding a header through either one is
  visible through both. The model keeps the map behind a `HeaderMap` object,
  and `Envelope.Header` returns the very same response.
- On the generic path, `Content-Type` is set to the default whenever the
  default is non-empty. Any value the writer already holds is never read and
  is overwritten (generic.go:35-37).
- The indent flag is documented as applying to all JSON responses
  (config.go:23-25, 53-56). Only the envelope path reads it
  (jsonresponse.go:47-53). The generic path calls `json.Marshal` directly, so
  its body is always compact (generic.go:31).

## Model

| member | source | states |
|---|---|---|
| `Http.Code` | jsonresponse.go:117-397 | every per-status operation passes a fixed code from 100 to 505; the table is the one the status tests list |
| `Http.CodeRoundTrip` | jsonresponse_test.go:13-64 | each status is recovered from its code, so the table has one operation per code |
| `Http.FromCodeSound` | generic.go:42-322 | a code that names an operation is that operation's code |
| `Http.CodeInjective` | jsonresponse_test.go:159-168 | no two per-status operations emit the same code |
| `Json.SerializeToString` | jsonresponse.go:42-54 | without the indent flag the text is exactly the compact marshal output; with it, the indenter applied to that compact output |
| `Envelope.New` | jsonresponse.go:56-58 | payload as given, a fresh empty header map, no excuse |
| `Envelope.Empty` | jsonresponse.go:63-65 | nil payload, a fresh empty header map, no excuse |
| `Envelope.Header` | jsonresponse.go:104-107 | key maps to value, every other key is unchanged, and the returned response shares the caller's map |
| `Envelope.WithProgrammingExcuse` | jsonresponse.go:112-115 | the excuse becomes non-empty; payload and header map are kept |
| `Envelope.SingleHeaderOnEmpty` | jsonresponse_test.go:118-128 | `Empty().Header(k, v)` holds exactly one header, k, with value v |
| `Transformers.PassthroughTransformer` | transformer.go:9-11 | no headers; the body is the payload, for any code and any payload including nil |
| `Transformers.MessageCodeTransformer` | transformer.go:15-23 | no headers; an object with exactly the two chosen keys, the code under the code key and the payload under the data key when the names differ |
| `Transformers.MessageCodeExcuseTransformer` | transformer.go:28-39 | MessageCodeTransformer's object, plus "programming-excuse" exactly when the excuse is non-empty |
| `Transformers.DefaultTransformer` | transformer.go:43-52 | no headers; keys are exactly "data", plus "programming-excuse" iff the excuse is non-empty; "data" holds the payload and "programming-excuse" the excuse |
| `Transformers.Apply` | jsonresponse.go:73 | calling the active transformer: a caller-supplied one is its own function; every library transformer returns no headers; passthrough returns the payload; the others return an object |
| `Transformers.BuiltinIgnoresHeaders` | transformer.go:9-52 | no library transformer reads the header overrides: equal payload and excuse give equal output |
| `Transformers.BuiltinAddsNoHeaders` | transformer.go:9-52 | no library transformer contributes headers |
| `Transformers.MessageCodeIgnoresExcuse` | transformer.go:16-22 | MessageCodeTransformer never adds "programming-excuse", whatever the excuse |
| `Settings.Config.constructor` | config.go:5-27 | initial settings: the default transformer, "application/json; charset=utf-8", indent off |
| `Settings.Config.SetTransformer` | config.go:31-35 | the transformer becomes t, nil included; the other two settings are unchanged |
| `Settings.Config.ResetTransformer` | config.go:38-42 | the transformer becomes the default; the other two settings are unchanged |
| `Settings.ResetTwice` | config.go:38-42 | resetting is idempotent |
| `Settings.Config.SetDefaultContentTypeHeader` | config.go:47-51 | the default Content-Type becomes s, "" included; the other two settings are unchanged |
| `Settings.Config.SetIndent` | config.go:57-61 | the indent flag becomes the argument; the other two settings are unchanged |
| `JsonResponse.Transform` | jsonresponse.go:72-77 | the transformer's output is used iff a transformer is installed and the payload is non-nil; otherwise there are no headers and the body is the payload itself |
| `JsonResponse.Merged` | jsonresponse.go:79-82 | merged keys are the union of both maps; the override's value wins on a shared key; other transformer keys survive |
| `JsonResponse.MergeHeaders` | jsonresponse.go:79-82 | the override loop computes exactly `Merged` |
| `JsonResponse.WriterHeaders` | jsonresponse.go:84-93 | every merged header is on the writer; Content-Type becomes the default, even "", iff the merged map lacks that exact key; the writer's other headers are untouched |
| `JsonResponse.BodyText` | jsonresponse.go:96-100 | nothing is written for a nil body; otherwise the serialized body (compact or indented per the flag) and exactly one "\n" |
| `JsonResponse.Emit` | jsonresponse.go:69-101 | the writer's headers, status and body after `Response.Response` are those the transformer, merge, Content-Type and body rules give |
| `JsonResponse.EmitStatus` | jsonresponse.go:119-397 | each per-status method is `Emit` with its fixed code |
| `JsonResponse.NilPayloadBypass` | jsonresponse.go:72-77 | a nil payload is never transformed, whatever the transformer: no headers and no body bytes |
| `JsonResponse.NilTransformerBypass` | jsonresponse.go:72-77 | with a nil transformer the payload is sent unchanged with no headers |
| `JsonResponse.PassthroughPreservesPayload` | transformer_test.go:10-27 | with passthrough installed, the body is the payload whether or not the transformer runs |
| `JsonResponse.DefaultPipelineBody` | jsonresponse_test.go:137-157 | with the default transformer, a non-nil payload P is sent as exactly {"data": P}, or {"data": P, "programming-excuse": E} when excuse E is set |
| `JsonResponse.ContentTypeAlwaysSet` | jsonresponse.go:79-93 | on the envelope path the writer always has Content-Type: the override's, else the transformer's, else the default |
| `Generic.MessageResponse.constructor` | generic.go:18-19 | the substitute for a nil payload has zero code and empty message |
| `Generic.MessageJson` | generic.go:10-13 | "code" is present iff the code is non-zero and "message" iff the message is non-empty (omitempty); no other keys |
| `Generic.MessageJsonRoundTrip` | generic.go:10-13 | decoding the JSON of any MessageResponse gives it back |
| `Generic.FillDefaults` | generic.go:23-30 | a zero code becomes the status code and an empty message the status text; fields already set are kept, so a fully set message is unchanged; with a non-zero status the result always carries a code, and a message whenever the status has a text |
| `Generic.FillDefaultsIdempotent` | generic.go:23-30 | filling defaults twice is the same as once |
| `Generic.Resolved` | generic.go:18-31 | a nil payload, a message value or a message pointer is marshalled as an object that decodes to the message with its defaults filled in; any other value is marshalled unchanged |
| `Generic.GenericHeaders` | generic.go:35-37 | Content-Type is set to the default iff the default is non-empty; the writer's existing value is not consulted; other headers are untouched |
| `Generic.Respond` | generic.go:17-40 | a pointer payload is filled in place; a value payload is copied, so the caller's value is untouched; status is always written, then always compact `marshal(value)` + "\n" |
| `Generic.RespondStatus` | generic.go:42-322 | each per-status function is `Respond` with its fixed code |
| `Generic.NilPayloadMessage` | generic.go:18-30 | a nil payload is sent as {"code": status, "message": status text} |
| `Generic.PlainValueUnchanged` | generic.go:20-31 | a non-nil value that is not a MessageResponse is marshalled unmodified |
| `Generic.SetFieldsKept` | generic.go:23-30 | a message with both fields set is sent as it is |

## Left out

- Real I/O: `http.ResponseWriter` is a record of header map, status and body. Header-key canonicalisation by `Header().Set`, a repeated `WriteHeader`, and headers set after the status line are not modelled.
- JSON encoding: `json.Marshal` and `json.Indent` are the uninterpreted parameters `Codec.marshal` and `Codec.indent`. The marshal-failure panic is not modelled, because every `Json.Value` is taken to be serializable. The round trip between compact and indented output belongs to the encoder and is not stated.
- `http.StatusText` is the parameter `statusText`. Its phrase table is not part of this model.
- `randomExcuse` is random. `WithProgrammingExcuse` takes the drawn excuse as an argument and requires only that it is non-empty.
- Concurrency: the three mutexes in config.go, and the unsynchronised read of the transformer in `Response.Response`, are not modelled. Settings are plain fields of `Config`.
- Go's typed nil values are not represented. `Json.Value.Null` is the nil interface. A non-nil interface that serializes as `null`, a nil `*MessageResponse` (which would panic on dereference), a zero-value `Response` with a nil `Headers` map, and a custom transformer that returns a nil header map are out of scope. Such a map would panic in the merge loop only when the response has header overrides; with none, the loop at jsonresponse.go:80-82 assigns nothing, and the reads at lines 86 and 91 are safe on a nil map.
- `Transformers.Custom`: a caller-supplied transformer is a total function of the response value. It cannot read the contents of the header map, which a Go closure could.
- JSON arrays and floating-point numbers are not among `Json.Value`'s cases. The transformers never build them, and payloads pass through unexamined.
