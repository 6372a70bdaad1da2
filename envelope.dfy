/** The response envelope: the payload, per-response header overrides and the
    programming excuse, with the fluent builders that produce it. */
module Envelope {
  import opened Json

  /** A Go map: a reference, so every copy of a Response that holds the same
      HeaderMap sees every write to it. */
  class HeaderMap {
    var entries: map<string, string>

    constructor ()
      ensures entries == map[]
    {
      entries := map[];
    }
  }

  /** The Response struct. `data == Null` is the nil payload; `excuse == ""`
      means no excuse is attached. */
  datatype Response = Response(data: Value, headers: HeaderMap, excuse: string)

  /** New(data): the payload, a fresh empty header map and no excuse. */
  method New(data: Value) returns (r: Response)
    ensures r.data == data && r.excuse == ""
    ensures fresh(r.headers) && r.headers.entries == map[]
  {
    var h := new HeaderMap();
    r := Response(data, h, "");
  }

  /** Empty(): no payload, a fresh empty header map and no excuse. */
  method Empty() returns (r: Response)
    ensures r.data == Null && r.excuse == ""
    ensures fresh(r.headers) && r.headers.entries == map[]
  {
    var h := new HeaderMap();
    r := Response(Null, h, "");
  }

  /** Header(key, value): a value receiver whose map is shared, so the write
      lands in the caller's map as well; the returned copy is the receiver. */
  method Header(r: Response, key: string, value: string) returns (r': Response)
    modifies r.headers
    ensures r' == r
    ensures r.headers.entries == old(r.headers.entries)[key := value]
  {
    r.headers.entries := r.headers.entries[key := value];
    r' := r;
  }

  /** WithProgrammingExcuse(): `excuse` stands for the random excuse the
      library draws, of which only non-emptiness is known. */
  function WithProgrammingExcuse(r: Response, excuse: string): (r': Response)
    requires excuse != ""
    ensures r'.excuse != ""
    ensures r'.data == r.data && r'.headers == r.headers
  {
    r.(excuse := excuse)
  }

  /** Empty().Header(k, v) holds exactly one header, k. */
  method SingleHeaderOnEmpty(key: string, value: string) returns (r: Response)
    ensures r.data == Null
    ensures r.headers.entries.Keys == {key} && |r.headers.entries| == 1
    ensures r.headers.entries[key] == value
  {
    r := Empty();
    r := Header(r, key, value);
    assert r.headers.entries.Keys == {key};
  }
}
