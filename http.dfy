/**
 * The parts of Go's net/http the middleware touches: a request, a header
 * multimap, and the response writer it is handed. The writer is abstract: it
 * records every header change, every status code it is sent and every byte
 * written to it, in order.
 */
module Http {

  type Byte = bv8

  type Bytes = seq<Byte>

  /** `http.Header`: each key maps to its values, in the order they were added. */
  type Header = map<string, seq<string>>

  /** The fields of an incoming request that the middleware and its collaborators read. */
  datatype Request = Request(
    httpMethod: string,
    host: string,
    path: string,
    /** `r.URL.String()`: path and query string as the client sent them */
    url: string,
    header: Header)

  /** The values stored under `key`; none when the key is absent. */
  function ValuesOf(h: Header, key: string): (vs: seq<string>)
    ensures key !in h ==> vs == []
    ensures key in h ==> vs == h[key]
  {
    if key in h then h[key] else []
  }

  /** `h.Set(key, value)`: the key now holds exactly that one value. */
  function WithSet(h: Header, key: string, value: string): (r: Header)
    ensures ValuesOf(r, key) == [value]
    ensures forall k {:trigger ValuesOf(r, k)} :: k != key ==> ValuesOf(r, k) == ValuesOf(h, k)
    ensures r.Keys == h.Keys + {key}
  {
    h[key := [value]]
  }

  /** `h.Add(key, value)`: the value is appended after those already stored. */
  function WithAdd(h: Header, key: string, value: string): (r: Header)
    ensures ValuesOf(r, key) == ValuesOf(h, key) + [value]
    ensures forall k {:trigger ValuesOf(r, k)} :: k != key ==> ValuesOf(r, k) == ValuesOf(h, k)
    ensures r.Keys == h.Keys + {key}
  {
    h[key := ValuesOf(h, key) + [value]]
  }

  /** `h.Del(key)`. */
  function WithDel(h: Header, key: string): (r: Header)
    ensures key !in r
    ensures forall k {:trigger ValuesOf(r, k)} :: k != key ==> ValuesOf(r, k) == ValuesOf(h, k)
    ensures r.Keys == h.Keys - {key}
  {
    h - {key}
  }

  /** The header map of a response writer; shared by reference, as Go maps are. */
  class HeaderMap {
    var m: Header

    constructor (initial: Header)
      ensures m == initial
    {
      m := initial;
    }

    method Set(key: string, value: string)
      modifies this
      ensures m == WithSet(old(m), key, value)
    {
      m := m[key := [value]];
    }

    method Add(key: string, value: string)
      modifies this
      ensures m == WithAdd(old(m), key, value)
    {
      m := m[key := ValuesOf(m, key) + [value]];
    }

    method Del(key: string)
      modifies this
      ensures m == WithDel(old(m), key)
    {
      m := m - {key};
    }
  }

  /** What a client has been sent so far through a response writer. */
  datatype Response = Response(header: Header, statuses: seq<int>, written: Bytes)

  /** `http.ResponseWriter` as seen by the middleware. */
  class Sink {
    const header: HeaderMap
    var statuses: seq<int>
    var written: Bytes

    constructor (header: HeaderMap)
      ensures this.header == header && statuses == [] && written == []
    {
      this.header := header;
      statuses, written := [], [];
    }

    /** Everything the client has been sent so far. */
    function View(): (r: Response)
      reads this, header
      ensures r.header == header.m && r.statuses == statuses && r.written == written
    {
      Response(header.m, statuses, written)
    }

    method WriteHeader(status: int)
      modifies this
      ensures statuses == old(statuses) + [status] && written == old(written)
    {
      statuses := statuses + [status];
    }

    method Write(p: Bytes) returns (n: int)
      modifies this
      ensures written == old(written) + p && statuses == old(statuses)
      ensures n == |p|
    {
      written := written + p;
      n := |p|;
    }
  }
}
