/**
 * Request tracing (package server/log): an 8-byte request id, its
 * upper-case hex rendering, the request context that carries it, and the
 * logging middleware that wraps a handler.
 */
module Log {
  import opened Basics
  import opened Numeric

  /** The id buffer of a RequestID: always exactly 8 bytes. */
  type Id8 = s: seq<Byte> | |s| == 8 witness [0, 0, 0, 0, 0, 0, 0, 0]

  /** A simple token for tracing requests. */
  datatype RequestID = RequestID(id: Id8)
  {
    /** fmt's "%X-%X" of id[0:4] and id[4:8]. */
    function String(): (s: string)
      ensures |s| == 17 && s[8] == '-'
    {
      Hex(id[0..4]) + "-" + Hex(id[4..8])
    }
  }

  /** Upper-case hexadecimal digit, as fmt's %X writes it. */
  function HexDigit(d: nat): (c: char)
    requires d < 16
    ensures IsHexDigit(c)
  {
    if d < 10 then ('0' as int + d) as char else ('A' as int + d - 10) as char
  }

  predicate IsHexDigit(c: char) { '0' <= c <= '9' || 'A' <= c <= 'F' }

  function HexDigitValue(c: char): (d: nat)
    requires IsHexDigit(c)
    ensures d < 16 && HexDigit(d) == c
  {
    if c <= '9' then c as int - '0' as int else c as int - 'A' as int + 10
  }

  /** %X of a byte slice: two digits per byte, leading zeros kept. */
  function Hex(bs: seq<Byte>): (s: string)
    ensures |s| == 2 * |bs|
  {
    if bs == [] then [] else [HexDigit(bs[0] / 16), HexDigit(bs[0] % 16)] + Hex(bs[1..])
  }

  /** Reading a hex string back as bytes; None when it is not one. */
  function Unhex(s: string): Option<seq<Byte>>
  {
    if |s| < 2 then (if s == [] then Some([]) else None)
    else if !IsHexDigit(s[0]) || !IsHexDigit(s[1]) then None
    else
      match Unhex(s[2..])
      case None => None
      case Some(rest) => Some([HexDigitValue(s[0]) * 16 + HexDigitValue(s[1])] + rest)
  }

  lemma {:induction false} HexDigitsOnly(bs: seq<Byte>)
    ensures forall i :: 0 <= i < |Hex(bs)| ==> IsHexDigit(Hex(bs)[i])
  {
    if bs != [] {
      HexDigitsOnly(bs[1..]);
    }
  }

  lemma {:induction false} UnhexHex(bs: seq<Byte>)
    ensures Unhex(Hex(bs)) == Some(bs)
  {
    if bs != [] {
      var s := Hex(bs);
      assert s[2..] == Hex(bs[1..]);
      UnhexHex(bs[1..]);
      assert s[0] == HexDigit(bs[0] / 16) && s[1] == HexDigit(bs[0] % 16);
      assert HexDigitValue(s[0]) * 16 + HexDigitValue(s[1]) == bs[0];
      assert [bs[0]] + bs[1..] == bs;
    }
  }

  /** The shape of every trace: ^[0-9A-F]{8}-[0-9A-F]{8}$. */
  predicate IsTraceShaped(s: string)
  {
    |s| == 17 && s[8] == '-' && forall i :: 0 <= i < 17 && i != 8 ==> IsHexDigit(s[i])
  }

  lemma TraceShape(rid: RequestID)
    ensures IsTraceShaped(rid.String())
  {
    var s := rid.String();
    HexDigitsOnly(rid.id[0..4]);
    HexDigitsOnly(rid.id[4..8]);
    assert s[..8] == Hex(rid.id[0..4]) && s[9..] == Hex(rid.id[4..8]);
    forall i | 0 <= i < 17 && i != 8 ensures IsHexDigit(s[i]) {
      if i < 8 { assert s[i] == s[..8][i]; } else { assert s[i] == s[9..][i - 9]; }
    }
  }

  /** Reading a trace back as the request id it renders. */
  function ParseTrace(s: string): Option<RequestID>
  {
    if |s| != 17 || s[8] != '-' then None
    else
      match (Unhex(s[..8]), Unhex(s[9..]))
      case (Some(hi), Some(lo)) => if |hi + lo| == 8 then Some(RequestID(hi + lo)) else None
      case _ => None
  }

  /** The rendering is lossless: the id comes back from its trace. */
  lemma TraceRoundTrip(rid: RequestID)
    ensures ParseTrace(rid.String()) == Some(rid)
  {
    var s := rid.String();
    assert s[..8] == Hex(rid.id[0..4]) && s[9..] == Hex(rid.id[4..8]);
    UnhexHex(rid.id[0..4]);
    UnhexHex(rid.id[4..8]);
    assert rid.id[0..4] + rid.id[4..8] == rid.id;
  }

  /** Distinct ids give distinct traces. */
  lemma TraceInjective(a: RequestID, b: RequestID)
    requires a.String() == b.String()
    ensures a == b
  {
    TraceRoundTrip(a);
    TraceRoundTrip(b);
  }

  /** The id newRequestID builds from what the random source delivered:
      a zeroed 8-byte buffer whose prefix is overwritten by those bytes. */
  function FilledID(random: seq<Byte>): (rid: RequestID)
    ensures |random| >= 8 ==> rid.id == random[..8]
  {
    RequestID(seq(8, i requires 0 <= i < 8 => if i < |random| then random[i] else 0))
  }

  /** newRequestID: make([]byte, 8), then rand.Read fills it in place. The
      bytes the source returns are an input; a short read leaves zeros. */
  method NewRequestID(random: seq<Byte>) returns (rid: RequestID)
    ensures rid == FilledID(random)
    ensures forall i :: 0 <= i < 8 ==> rid.id[i] == (if i < |random| then random[i] else 0)
  {
    var buf := new Byte[8](_ => 0);
    var n := if |random| < 8 then |random| else 8;
    var i := 0;
    while i < n
      invariant 0 <= i <= n
      invariant forall k :: 0 <= k < i ==> buf[k] == random[k]
      invariant forall k :: i <= k < 8 ==> buf[k] == 0
    {
      buf[i] := random[i];
      i := i + 1;
    }
    rid := RequestID(buf[..]);
  }

  /** Context keys: the library-private key, and any key the application uses. */
  datatype CtxKey = RequestIDKey | AppKey(name: string)

  /** Context values: a request id, or an application value. */
  datatype CtxValue = IDValue(rid: RequestID) | AppValue(text: string)

  /** The parts of *http.Request the middleware reads, and its context. */
  datatype Request = Request(
    httpMethod: string,
    requestURI: string,
    contentLength: Int64,
    remoteAddr: string,
    ctx: map<CtxKey, CtxValue>)

  /** The type assertion r.Context().Value(&ctxKey{}).(*RequestID) succeeds. */
  predicate HasRequestID(r: Request)
  {
    RequestIDKey in r.ctx && r.ctx[RequestIDKey].IDValue?
  }

  /** Trace: the request id attached to r as a string, or "" when there is none. */
  function Trace(r: Request): (t: string)
    ensures t == "" <==> !HasRequestID(r)
    ensures HasRequestID(r) ==> IsTraceShaped(t)
  {
    if HasRequestID(r) then
      var rid := r.ctx[RequestIDKey].rid;
      TraceShape(rid);
      rid.String()
    else ""
  }

  /** GetRequestID: the attached id; without one, the type assertion panics. */
  function GetRequestID(r: Request): (rid: RequestID)
    requires HasRequestID(r)
    ensures Trace(r) == rid.String()
  {
    r.ctx[RequestIDKey].rid
  }

  /** SetRequestID: a copy of r whose context also carries rid under the private key. */
  function SetRequestID(r: Request, rid: RequestID): (r2: Request)
    ensures HasRequestID(r2) && GetRequestID(r2) == rid && Trace(r2) == rid.String()
    ensures r2.httpMethod == r.httpMethod && r2.requestURI == r.requestURI
    ensures r2.contentLength == r.contentLength && r2.remoteAddr == r.remoteAddr
    ensures forall k :: k != RequestIDKey ==> (k in r2.ctx <==> k in r.ctx)
    ensures forall k :: k != RequestIDKey && k in r.ctx ==> r2.ctx[k] == r.ctx[k]
  {
    r.(ctx := r.ctx[RequestIDKey := IDValue(rid)])
  }

  /** A record written to the log sink. */
  datatype Event =
    | RequestRecord(httpMethod: string, url: string, length: Int64, ip: string, trace: string)
    | AppRecord(msg: string, trace: string)
    | ResponseRecord(url: string, trace: string)

  /** The process-wide log sink, as the sequence of records written so far. */
  class EventLog {
    var records: seq<Event>

    constructor ()
      ensures records == []
    {
      records := [];
    }

    method Info(e: Event)
      modifies this
      ensures records == old(records) + [e]
    {
      records := records + [e];
    }
  }

  /**
   * One invocation of the handler Middleware(h) returns: build a request id
   * from the random bytes, attach it to the request, log the request record,
   * run h (whose own records are h(received)), then log the response record.
   * Returns the request h received.
   */
  method Middleware(log: EventLog, h: Request -> seq<Event>, r: Request, random: seq<Byte>)
    returns (received: Request)
    modifies log
    ensures received == SetRequestID(r, FilledID(random))
    ensures Trace(received) == FilledID(random).String()
    ensures log.records == old(log.records)
      + [RequestRecord(r.httpMethod, r.requestURI, r.contentLength, r.remoteAddr, Trace(received))]
      + h(received)
      + [ResponseRecord(r.requestURI, Trace(received))]
  {
    var requestID := NewRequestID(random);
    received := SetRequestID(r, requestID);
    log.Info(RequestRecord(received.httpMethod, received.requestURI, received.contentLength,
                           received.remoteAddr, requestID.String()));
    var handlerRecords := h(received);
    var i := 0;
    while i < |handlerRecords|
      invariant 0 <= i <= |handlerRecords|
      invariant log.records == old(log.records)
        + [RequestRecord(r.httpMethod, r.requestURI, r.contentLength, r.remoteAddr, requestID.String())]
        + handlerRecords[..i]
    {
      log.Info(handlerRecords[i]);
      i := i + 1;
    }
    log.Info(ResponseRecord(received.requestURI, requestID.String()));
  }
}
