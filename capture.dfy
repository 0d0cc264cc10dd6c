/**
 * The response-capturing writer handed to the upstream handler: it records
 * the status the handler sets and every body byte it writes, and forwards
 * each call unchanged to the real writer. Header access goes straight to the
 * real writer's header map.
 */
module Capture {
  import opened Http

  /** `responseWriter`. */
  class ResponseWriter {
    const w: Sink
    var status: int
    var body: Bytes

    /** `&responseWriter{ResponseWriter: w}`: nothing captured yet, status 0. */
    constructor (w: Sink)
      ensures this.w == w && status == 0 && body == []
    {
      this.w := w;
      status, body := 0, [];
    }

    /** The header map is the real writer's own: changes made through it reach the client. */
    function Header(): (h: HeaderMap)
      ensures h == w.header
    {
      w.header
    }

    /** Appends `p` to the captured body and forwards exactly `p`. */
    method Write(p: Bytes) returns (n: int)
      modifies this, w
      ensures body == old(body) + p && status == old(status)
      ensures w.written == old(w.written) + p && w.statuses == old(w.statuses)
      ensures n == |p|
    {
      body := body + p;
      n := w.Write(p);
    }

    /** Records `s` as the status (a later call replaces it) and forwards it. */
    method WriteHeader(s: int)
      modifies this, w
      ensures status == s && body == old(body)
      ensures w.statuses == old(w.statuses) + [s] && w.written == old(w.written)
    {
      status := s;
      w.WriteHeader(s);
    }

    /** The captured pair. */
    function Recorded(): (c: Captured)
      reads this
      ensures c.status == status && c.body == body
    {
      Captured(status, body)
    }
  }

  /** One call the upstream handler makes on the writer it is given. */
  datatype HandlerOp =
    | SetHeader(key: string, value: string)
    | AddHeader(key: string, value: string)
    | DelHeader(key: string)
    | WriteHeader(status: int)
    | Write(p: Bytes)

  /** The upstream handler: the calls it makes for a request. */
  type Handler = Request -> seq<HandlerOp>

  /** What the capture has recorded. */
  datatype Captured = Captured(status: int, body: Bytes)

  /** The client's view and the capture together. */
  datatype State = State(resp: Response, cap: Captured)

  /** The effect of one handler call made through the capture. */
  function Step(s: State, op: HandlerOp): State
  {
    match op
    case SetHeader(k, v) => s.(resp := s.resp.(header := WithSet(s.resp.header, k, v)))
    case AddHeader(k, v) => s.(resp := s.resp.(header := WithAdd(s.resp.header, k, v)))
    case DelHeader(k) => s.(resp := s.resp.(header := WithDel(s.resp.header, k)))
    case WriteHeader(c) => State(s.resp.(statuses := s.resp.statuses + [c]), s.cap.(status := c))
    case Write(p) => State(s.resp.(written := s.resp.written + p), s.cap.(body := s.cap.body + p))
  }

  /** The effect of a sequence of handler calls, in order. */
  function Run(s: State, ops: seq<HandlerOp>): State
  {
    if ops == [] then s else Step(Run(s, ops[..|ops| - 1]), ops[|ops| - 1])
  }

  /** The body bytes the handler writes: every `Write` payload, concatenated in order. */
  function Payload(ops: seq<HandlerOp>): Bytes
  {
    if ops == [] then []
    else
      var last := ops[|ops| - 1];
      Payload(ops[..|ops| - 1]) + (if last.Write? then last.p else [])
  }

  /** The status codes the handler sets, in order. */
  function Codes(ops: seq<HandlerOp>): seq<int>
  {
    if ops == [] then []
    else
      var last := ops[|ops| - 1];
      Codes(ops[..|ops| - 1]) + (if last.WriteHeader? then [last.status] else [])
  }

  /** The headers after the handler's header calls, starting from `h`. */
  function Headers(h: Header, ops: seq<HandlerOp>): Header
  {
    if ops == [] then h
    else
      var init := Headers(h, ops[..|ops| - 1]);
      match ops[|ops| - 1]
      case SetHeader(k, v) => WithSet(init, k, v)
      case AddHeader(k, v) => WithAdd(init, k, v)
      case DelHeader(k) => WithDel(init, k)
      case _ => init
  }

  /**
   * The capture keeps exactly what it forwards: the captured body and the
   * bytes the client receives both grow by the handler's payload, the client
   * is sent every status the handler sets, and header calls reach the real
   * header map unchanged.
   */
  lemma {:induction false} RunForwards(s: State, ops: seq<HandlerOp>)
    ensures Run(s, ops).cap.body == s.cap.body + Payload(ops)
    ensures Run(s, ops).resp.written == s.resp.written + Payload(ops)
    ensures Run(s, ops).resp.statuses == s.resp.statuses + Codes(ops)
    ensures Run(s, ops).resp.header == Headers(s.resp.header, ops)
  {
    if ops != [] {
      RunForwards(s, ops[..|ops| - 1]);
    }
  }

  /** The last status code set, and `initial` when none is. */
  function LastCode(ops: seq<HandlerOp>, initial: int): int
  {
    if Codes(ops) == [] then initial else Codes(ops)[|Codes(ops)| - 1]
  }

  /** The captured status is the one from the last `WriteHeader` call: a later call wins. */
  lemma {:induction false} RunStatus(s: State, ops: seq<HandlerOp>)
    ensures Run(s, ops).cap.status == LastCode(ops, s.cap.status)
  {
    if ops != [] {
      RunStatus(s, ops[..|ops| - 1]);
    }
  }

  /** A handler that never calls `WriteHeader` leaves the captured status at 0, not 200. */
  lemma {:induction false} StatusZeroWithoutWriteHeader(resp: Response, ops: seq<HandlerOp>)
    requires forall i :: 0 <= i < |ops| ==> !ops[i].WriteHeader?
    ensures Run(State(resp, Captured(0, [])), ops).cap.status == 0
  {
    RunStatus(State(resp, Captured(0, [])), ops);
    NoCodes(ops);
  }

  lemma {:induction false} NoCodes(ops: seq<HandlerOp>)
    requires forall i :: 0 <= i < |ops| ==> !ops[i].WriteHeader?
    ensures Codes(ops) == []
  {
    if ops != [] {
      NoCodes(ops[..|ops| - 1]);
    }
  }

  /**
   * `next.ServeHTTP(rw, r)`: the upstream handler performs its calls `ops` on
   * the capturing writer, header calls going through `rw.Header()`.
   */
  method RunHandler(rw: ResponseWriter, ops: seq<HandlerOp>)
    modifies rw, rw.w, rw.w.header
    ensures State(rw.w.View(), rw.Recorded()) == Run(old(State(rw.w.View(), rw.Recorded())), ops)
  {
    ghost var start := State(rw.w.View(), rw.Recorded());
    var i := 0;
    while i < |ops|
      invariant 0 <= i <= |ops|
      invariant State(rw.w.View(), rw.Recorded()) == Run(start, ops[..i])
    {
      assert ops[..i + 1][..i] == ops[..i];
      match ops[i] {
        case SetHeader(k, v) => rw.Header().Set(k, v);
        case AddHeader(k, v) => rw.Header().Add(k, v);
        case DelHeader(k) => rw.Header().Del(k);
        case WriteHeader(c) => rw.WriteHeader(c);
        case Write(p) => var _ := rw.Write(p);
      }
      i := i + 1;
    }
    assert ops[..|ops|] == ops;
  }
}
