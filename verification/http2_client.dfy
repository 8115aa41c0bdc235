/**
 * `Http2Client`: the buffer logic of the DNS-over-HTTPS client over
 * HTTP/2. nghttp2 calls four callbacks on the client: `onDataSourceRead`
 * pulls the request body out in chunks, `onHeader` and `onDataChunkRecv`
 * collect the response of the client's own stream, and `onStreamClose`
 * publishes it. The TLS handshake and the session set-up are not part of
 * this model; `atoi` is a parameter, whether the listener is still alive
 * is a parameter, and `close(code)` is recorded in `closes`.
 */
module Http2 {
  import opened Common

  /** libuv's `UV_EPROTO` (-EPROTO, its value on Linux). */
  const UvEProto: int := -71

  /** The `:status` pseudo-header name. */
  const StatusName: seq<Byte> := [58, 115, 116, 97, 116, 117, 115]

  /** `atoi` on a NUL-terminated header value. */
  type Atoi = seq<Byte> -> int

  function Min(a: nat, b: nat): nat
  {
    if a <= b then a else b
  }

  // ---------------------------------------------------------------------
  // ALPN (RFC 7301, section 3.1)
  // ---------------------------------------------------------------------

  /** The protocol "h2" of section 3.1 of RFC 7301. */
  const H2: seq<Byte> := [104, 50]

  /** The array `"\x02h2"`, with the NUL the string literal ends in. */
  const AlpnLiteral: seq<Byte> := [2, 104, 50, 0]

  /** What the constructor hands to `SSL_CTX_set_alpn_protos`: the literal without its NUL. */
  function AlpnOffer(): seq<Byte>
  {
    AlpnLiteral[..|AlpnLiteral| - 1]
  }

  /**
   * A protocol name list in wire form: each name is one length byte
   * (1 to 255) followed by that many bytes. `None` for a list that is
   * cut short or holds an empty name.
   */
  function ProtocolNames(wire: seq<Byte>): (r: Option<seq<seq<Byte>>>)
    ensures r.Some? ==> forall i :: 0 <= i < |r.value| ==> 1 <= |r.value[i]| < 256
    decreases |wire|
  {
    if wire == [] then Some([])
    else if wire[0] == 0 || 1 + wire[0] > |wire| then None
    else
      match ProtocolNames(wire[1 + wire[0]..])
      case None => None
      case Some(rest) => Some([wire[1..1 + wire[0]]] + rest)
  }

  /** The wire form of a list of names. */
  function EncodeProtocolNames(names: seq<seq<Byte>>): (wire: seq<Byte>)
    requires forall i :: 0 <= i < |names| ==> 1 <= |names[i]| < 256
  {
    if names == [] then []
    else [|names[0]| as Byte] + names[0] + EncodeProtocolNames(names[1..])
  }

  /** Reading back an encoded list of names gives the names. */
  lemma {:induction false} ProtocolNamesRoundTrip(names: seq<seq<Byte>>)
    requires forall i :: 0 <= i < |names| ==> 1 <= |names[i]| < 256
    ensures ProtocolNames(EncodeProtocolNames(names)) == Some(names)
  {
    if names != [] {
      var wire := EncodeProtocolNames(names);
      var n := |names[0]|;
      assert wire[0] == n;
      assert wire[1..1 + n] == names[0];
      assert wire[1 + n..] == EncodeProtocolNames(names[1..]);
      ProtocolNamesRoundTrip(names[1..]);
      assert [names[0]] + names[1..] == names;
    }
  }

  /** The client offers exactly one protocol, "h2". */
  lemma AlpnOfferIsH2()
    ensures AlpnOffer() == EncodeProtocolNames([H2])
    ensures ProtocolNames(AlpnOffer()) == Some([H2])
  {
    ProtocolNamesRoundTrip([H2]);
  }

  /** `verifyAlpn`: the protocol the server selected is two bytes long and is "h2". */
  function VerifyAlpn(selected: seq<Byte>): (ok: bool)
  {
    |selected| == 2 && selected[..2] == H2
  }

  /**
   * The check accepts exactly the protocols the client offered, so a server
   * that selected nothing (an empty selection) or anything else is refused.
   */
  lemma VerifyAlpnAcceptsOffered(selected: seq<Byte>)
    ensures VerifyAlpn(selected) <==> selected in ProtocolNames(AlpnOffer()).value
    ensures !VerifyAlpn([])
  {
    AlpnOfferIsH2();
    assert |selected| == 2 ==> selected[..2] == selected;
  }

  // ---------------------------------------------------------------------
  // The client's state
  // ---------------------------------------------------------------------

  /** A frame type as far as `onHeader` cares. */
  datatype FrameType = HeadersFrame | OtherFrame

  /** One `onHttpData` call: the published status and body. */
  datatype Response = Response(status: int, body: seq<Byte>)

  /**
   * The fields the callbacks use: the stream the request went out on, the
   * request body and the read cursor, the response being collected, the
   * published `status`, and what was handed to the listener and to `close`.
   */
  datatype Client = Client(streamId: int, body: seq<Byte>, bodyPos: nat,
                           responseBody: seq<Byte>, responseStatus: int, status: int,
                           delivered: seq<Response>, closes: seq<int>)

  /** The bytes one `onDataSourceRead(length)` copies: at most `length`, from the cursor on. */
  function Chunk(body: seq<Byte>, pos: nat, length: nat): (c: seq<Byte>)
    requires pos <= |body|
    ensures |c| == Min(length, |body| - pos)
    ensures body[..pos] + c == body[..pos + |c|]
  {
    body[pos..pos + Min(length, |body| - pos)]
  }

  /** `onDataSourceRead(length)`: copy, advance the cursor, and report EOF once the cursor is at the end. */
  function ReadStep(s: Client, length: nat): (r: (Client, seq<Byte>, bool))
    requires s.bodyPos <= |s.body|
    ensures r.0.bodyPos <= |r.0.body| && r.0.body == s.body
    ensures r.0.bodyPos == s.bodyPos + |r.1|
    ensures r.2 <==> r.0.bodyPos == |s.body|
    ensures r.0 == s.(bodyPos := r.0.bodyPos)
  {
    var c := Chunk(s.body, s.bodyPos, length);
    var pos := s.bodyPos + |c|;
    (s.(bodyPos := pos), c, pos >= |s.body|)
  }

  /** `onHeader`: on a HEADERS frame of the client's stream, `:status` sets the response status. */
  function HeaderStep(s: Client, frame: FrameType, stream: int, name: seq<Byte>, value: seq<Byte>, atoi: Atoi): Client
  {
    if frame != HeadersFrame || stream != s.streamId then s
    else if name == StatusName then s.(responseStatus := atoi(value))
    else s
  }

  /** `onDataChunkRecv`: a chunk of the client's stream is appended to the response body. */
  function ChunkStep(s: Client, stream: int, data: seq<Byte>): Client
  {
    if stream == s.streamId then s.(responseBody := s.responseBody + data) else s
  }

  /**
   * `onStreamClose`: other streams are ignored; an error closes with
   * `UV_EPROTO`; a clean close publishes status and body, tells a live
   * listener, and closes with 0.
   */
  function CloseStep(s: Client, stream: int, errorCode: U32, listenerAlive: bool): Client
  {
    if stream != s.streamId then s
    else if errorCode != 0 then s.(closes := s.closes + [UvEProto])
    else
      var published := s.(status := s.responseStatus, body := s.responseBody, responseBody := []);
      published.(delivered := published.delivered + (if listenerAlive then [Response(published.status, published.body)] else []),
                 closes := published.closes + [0])
  }

  // ---------------------------------------------------------------------
  // Sending the request body
  // ---------------------------------------------------------------------

  function Sum(lengths: seq<nat>): nat
  {
    if lengths == [] then 0 else lengths[0] + Sum(lengths[1..])
  }

  /** What successive reads with the given lengths copy, starting at `pos`. */
  function Reads(body: seq<Byte>, pos: nat, lengths: seq<nat>): seq<Byte>
    requires pos <= |body|
    decreases |lengths|
  {
    if lengths == [] then []
    else
      var c := Chunk(body, pos, lengths[0]);
      c + Reads(body, pos + |c|, lengths[1..])
  }

  /** Successive reads copy the body in order, without gaps or repeats, up to what was asked for. */
  lemma {:induction false} ReadsCopyBody(body: seq<Byte>, pos: nat, lengths: seq<nat>)
    requires pos <= |body|
    ensures Reads(body, pos, lengths) == body[pos..Min(|body|, pos + Sum(lengths))]
    decreases |lengths|
  {
    if lengths != [] {
      var c := Chunk(body, pos, lengths[0]);
      ReadsCopyBody(body, pos + |c|, lengths[1..]);
      var end := Min(|body|, pos + Sum(lengths));
      assert pos + |c| <= end;
      assert c == body[pos..pos + |c|];
      assert body[pos..end] == body[pos..pos + |c|] + body[pos + |c|..end];
    }
  }

  /** Once the reads have asked for at least the body's length, they have sent the whole body. */
  lemma {:induction false} ReadsSendWholeBody(body: seq<Byte>, lengths: seq<nat>)
    requires Sum(lengths) >= |body|
    ensures Reads(body, 0, lengths) == body
  {
    ReadsCopyBody(body, 0, lengths);
    assert Min(|body|, Sum(lengths)) == |body|;
    assert body[0..|body|] == body;
  }

  /** A read that asks for nothing copies nothing, and reports EOF only at the end. */
  lemma EmptyReadKeepsCursor(s: Client)
    requires s.bodyPos <= |s.body|
    ensures ReadStep(s, 0).1 == [] && ReadStep(s, 0).0 == s
    ensures ReadStep(s, 0).2 <==> s.bodyPos == |s.body|
  {
  }

  // ---------------------------------------------------------------------
  // Collecting the response
  // ---------------------------------------------------------------------

  /** What nghttp2 hands to `onHeader` and `onDataChunkRecv`, in order. */
  datatype Event =
    | HeaderEvent(frame: FrameType, stream: int, name: seq<Byte>, value: seq<Byte>)
    | DataEvent(stream: int, data: seq<Byte>)

  /** The callbacks applied to the events in order. */
  function Receive(s: Client, events: seq<Event>, atoi: Atoi): Client
    decreases |events|
  {
    if events == [] then s
    else
      var s1 := match events[0]
                case HeaderEvent(f, id, n, v) => HeaderStep(s, f, id, n, v, atoi)
                case DataEvent(id, d) => ChunkStep(s, id, d);
      Receive(s1, events[1..], atoi)
  }

  /** The data of the events that belong to stream `id`, in order. */
  function OwnData(events: seq<Event>, id: int): seq<Byte>
    decreases |events|
  {
    if events == [] then []
    else (if events[0].DataEvent? && events[0].stream == id then events[0].data else []) + OwnData(events[1..], id)
  }

  /** The value of the last `:status` on a HEADERS frame of stream `id`, read by `atoi`; `initial` if none. */
  function LastStatus(events: seq<Event>, id: int, atoi: Atoi, initial: int): int
    decreases |events|
  {
    if events == [] then initial
    else
      var e := events[0];
      var next := if e.HeaderEvent? && e.frame == HeadersFrame && e.stream == id && e.name == StatusName
                  then atoi(e.value) else initial;
      LastStatus(events[1..], id, atoi, next)
  }

  /**
   * Whatever arrives on other streams, the response holds exactly the data
   * of the client's own stream and the last `:status` of its own HEADERS
   * frames; nothing else changes.
   */
  lemma {:induction false} ReceiveCollectsOwnStream(s: Client, events: seq<Event>, atoi: Atoi)
    ensures var r := Receive(s, events, atoi);
            && r.responseBody == s.responseBody + OwnData(events, s.streamId)
            && r.responseStatus == LastStatus(events, s.streamId, atoi, s.responseStatus)
            && r == s.(responseBody := r.responseBody, responseStatus := r.responseStatus)
    decreases |events|
  {
    if events != [] {
      var s1 := match events[0]
                case HeaderEvent(f, id, n, v) => HeaderStep(s, f, id, n, v, atoi)
                case DataEvent(id, d) => ChunkStep(s, id, d);
      ReceiveCollectsOwnStream(s1, events[1..], atoi);
    }
  }

  /** Callbacks for another stream change nothing. */
  lemma OtherStreamsIgnored(s: Client, stream: int, frame: FrameType, name: seq<Byte>, value: seq<Byte>,
                            data: seq<Byte>, errorCode: U32, listenerAlive: bool, atoi: Atoi)
    requires stream != s.streamId
    ensures HeaderStep(s, frame, stream, name, value, atoi) == s
    ensures ChunkStep(s, stream, data) == s
    ensures CloseStep(s, stream, errorCode, listenerAlive) == s
  {
  }

  /**
   * A clean close after the events publishes the own-stream data and last
   * status, hands them to a live listener once, and closes with 0.
   */
  lemma CleanClosePublishes(s: Client, events: seq<Event>, atoi: Atoi, listenerAlive: bool)
    ensures var r := CloseStep(Receive(s, events, atoi), s.streamId, 0, listenerAlive);
            var response := Response(LastStatus(events, s.streamId, atoi, s.responseStatus),
                                     s.responseBody + OwnData(events, s.streamId));
            && r.status == response.status && r.body == response.body
            && r.delivered == s.delivered + (if listenerAlive then [response] else [])
            && r.closes == s.closes + [0]
  {
    ReceiveCollectsOwnStream(s, events, atoi);
  }

  /** A close with an error publishes nothing and closes with `UV_EPROTO`. */
  lemma ErrorCloseDeliversNothing(s: Client, errorCode: U32, listenerAlive: bool)
    requires errorCode != 0
    ensures var r := CloseStep(s, s.streamId, errorCode, listenerAlive);
            && r.delivered == s.delivered && r.status == s.status && r.body == s.body
            && r.closes == s.closes + [UvEProto]
  {
  }

  // ---------------------------------------------------------------------
  // The client object
  // ---------------------------------------------------------------------

  class Http2Client {
    /** `m_streamId`, as `submitRequest` stored it. */
    var streamId: int
    /** The request body, and after a clean close the response body. */
    var body: seq<Byte>
    var bodyPos: nat
    var responseBody: seq<Byte>
    var responseStatus: int
    var status: int
    var delivered: seq<Response>
    var closes: seq<int>

    function State(): Client
      reads this
    {
      Client(streamId, body, bodyPos, responseBody, responseStatus, status, delivered, closes)
    }

    /** A client whose request went out on `streamId`, with the cursor at the start of `body`. */
    constructor(streamId: int, body: seq<Byte>)
      ensures State() == Client(streamId, body, 0, [], 0, 0, [], [])
    {
      this.streamId, this.body := streamId, body;
      bodyPos, responseBody, responseStatus, status := 0, [], 0, 0;
      delivered, closes := [], [];
    }

    /**
     * `onDataSourceRead`: copies at most `length` bytes from the cursor on,
     * returns how many, and sets the EOF flag once the body is used up.
     */
    method OnDataSourceRead(length: nat) returns (copied: nat, buf: seq<Byte>, eof: bool)
      requires bodyPos <= |body|
      modifies this
      ensures (State(), buf, eof) == ReadStep(old(State()), length)
      ensures copied == |buf| == Min(length, old(|body| - bodyPos))
      ensures buf == old(body[bodyPos..bodyPos + |buf|])
    {
      var remaining := |body| - bodyPos;
      copied := Min(length, remaining);
      buf := [];
      if copied > 0 {
        buf := body[bodyPos..bodyPos + copied];
        bodyPos := bodyPos + copied;
      }
      eof := bodyPos >= |body|;
    }

    /** `onHeader`. */
    method OnHeader(frame: FrameType, stream: int, name: seq<Byte>, value: seq<Byte>, atoi: Atoi)
      modifies this
      ensures State() == HeaderStep(old(State()), frame, stream, name, value, atoi)
    {
      if frame != HeadersFrame || stream != streamId {
        return;
      }
      if |name| == 7 && name == StatusName {
        responseStatus := atoi(value);
      }
    }

    /** `onDataChunkRecv`. */
    method OnDataChunkRecv(stream: int, data: seq<Byte>)
      modifies this
      ensures State() == ChunkStep(old(State()), stream, data)
    {
      if stream == streamId {
        responseBody := responseBody + data;
      }
    }

    /** `onStreamClose`. */
    method OnStreamClose(stream: int, errorCode: U32, listenerAlive: bool)
      modifies this
      ensures State() == CloseStep(old(State()), stream, errorCode, listenerAlive)
    {
      if stream != streamId {
        return;
      }
      if errorCode != 0 {
        closes := closes + [UvEProto];
        return;
      }
      status := responseStatus;
      body, responseBody := responseBody, [];
      if listenerAlive {
        delivered := delivered + [Response(status, body)];
      }
      closes := closes + [0];
    }
  }
}
