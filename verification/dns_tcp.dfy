/**
 * `DnsTcpClient`: one DNS query over TCP with the two-octet length prefix
 * of RFC 1035 section 4.2.2. The libuv callbacks become the events
 * `OnConnect`, `OnRead` and `OnTimer`; what the client asks of libuv
 * (connect, start or stop the timer, start reading, write, close a handle)
 * is recorded as a list of actions, and each call of the completion
 * callback as a completion.
 */
module DnsTcp {
  import opened Common
  import opened DnsName
  import opened DnsMessage

  /** A request the client makes of the event loop. */
  datatype Action = Connect | StartTimer(ms: U32) | StartReading | Write(frame: seq<Byte>)
                  | StopTimer | CloseSocket | CloseTimer

  /** One call of the completion callback: the verdict and the records handed over. */
  datatype Completion = Completion(success: bool, records: seq<Address>)

  /** Every field of a client, as one value. */
  datatype ClientState = ClientState(
    host: string, family: Family, timeout: U32,
    socketOpen: bool, timerOpen: bool, callbackSet: bool,
    records: seq<Address>, recvBuf: seq<Byte>, expectedLen: nat, closed: bool,
    completions: seq<Completion>, actions: seq<Action>)

  /** The query type `send` asks for: AAAA for an IPv6-only client, A otherwise. */
  function QueryType(family: Family): (t: RecordType)
    ensures t == AAAA <==> family == Inet6
    ensures t == A <==> family != Inet6
  {
    if family == Inet6 then AAAA else A
  }

  /**
   * The octets `send` writes: the query length, truncated to 16 bits, high
   * octet first, then the query.
   */
  function Frame(query: seq<Byte>): (f: seq<Byte>)
    ensures |f| == |query| + 2 && f[2..] == query
  {
    [(|query| / 0x100) % 0x100, |query| % 0x100] + query
  }

  /** The length prefix of a frame reads back as the query length modulo 2^16. */
  lemma FramePrefix(query: seq<Byte>)
    ensures ReadU16(Frame(query), 0) == |query| % 0x1_0000
    ensures |query| < 0x1_0000 ==> ReadU16(Frame(query), 0) == |query|
  {
    var n := |query|;
    var hi, lo := n / 0x100, n % 0x100;
    assert n == hi * 0x100 + lo;
    assert hi == (hi / 0x100) * 0x100 + hi % 0x100;
    assert n == (hi / 0x100) * 0x1_0000 + ((hi % 0x100) * 0x100 + lo);
    ModOfSum(hi / 0x100, (hi % 0x100) * 0x100 + lo);
  }

  /** Adding whole multiples of 2^16 leaves a remainder below 2^16 as it is. */
  lemma ModOfSum(k: nat, r: nat)
    requires r < 0x1_0000
    ensures (k * 0x1_0000 + r) % 0x1_0000 == r
  {
  }

  // ------------------------------------------------------------------
  // The transitions, on values
  // ------------------------------------------------------------------

  /** The state of a newly constructed client: both handles open, the callback set. */
  function Initial(host: string, family: Family, timeout: U32): ClientState
  {
    ClientState(host, family, timeout, true, true, true, [], [], 0, false, [], [])
  }

  /** `close`: each handle still open is closed and forgotten. */
  function Closed(s: ClientState): (c: ClientState)
    ensures !c.socketOpen && !c.timerOpen
    ensures c == s.(socketOpen := false, timerOpen := false, actions := c.actions)
    ensures c.actions == s.actions + (if s.socketOpen then [CloseSocket] else [])
                                   + (if s.timerOpen then [CloseTimer] else [])
  {
    var a := s.actions + (if s.socketOpen then [CloseSocket] else []);
    s.(socketOpen := false, timerOpen := false, actions := a + (if s.timerOpen then [CloseTimer] else []))
  }

  /**
   * `done(success)`: nothing once closed; otherwise the client is marked
   * closed, the timer stopped, the handles closed, and the callback, if
   * still set, is cleared and then called with the records.
   */
  function Finished(s: ClientState, success: bool): ClientState
  {
    if s.closed then s
    else
      var c := Closed(s.(closed := true, actions := s.actions + [StopTimer]));
      if c.callbackSet then c.(callbackSet := false, completions := c.completions + [Completion(success, c.records)])
      else c
  }

  /** `start`: connect and arm the timeout. */
  function Started(s: ClientState): ClientState
  {
    s.(actions := s.actions + [Connect, StartTimer(s.timeout)])
  }

  /**
   * `send` with `rand()` giving `id` and `uv_try_write` returning `written`:
   * an empty query or a short write fails the client.
   */
  function Sent(s: ClientState, id: U16, written: int): ClientState
  {
    var query := Query(id, s.host, QueryType(s.family));
    if query == [] then Finished(s, false)
    else
      var s' := s.(actions := s.actions + [Write(Frame(query))]);
      if written < 0 || written != |query| + 2 then Finished(s', false) else s'
  }

  /** `onConnect(status)`. */
  function Connected(s: ClientState, status: int, id: U16, written: int): ClientState
  {
    if s.closed then s
    else if status < 0 then Finished(s, false)
    else Sent(s.(actions := s.actions + [StartReading]), id, written)
  }

  /** `onTimer`. */
  function TimedOut(s: ClientState): ClientState
  {
    if !s.closed then Finished(s, false) else s
  }

  /** The length prefix as `read` latches it: taken from the buffer while it is still zero. */
  function Latched(buf: seq<Byte>, expectedLen: nat): nat
    requires |buf| >= 2
  {
    if expectedLen == 0 then ReadU16(buf, 0) else expectedLen
  }

  /**
   * `read(data)`: the octets are appended; once two are buffered the length
   * is latched, a length outside [12, 65535] fails the client, and once the
   * whole message is buffered exactly `expectedLen` octets after the prefix
   * are parsed into the records.
   */
  function Received(s: ClientState, data: seq<Byte>): ClientState
  {
    var buf := s.recvBuf + data;
    if |buf| < 2 then s.(recvBuf := buf)
    else Examined(s.(recvBuf := buf, expectedLen := Latched(buf, s.expectedLen)))
  }

  /** What `read` does once two octets are buffered and the length is latched. */
  function Examined(s: ClientState): ClientState
    requires |s.recvBuf| >= 2
  {
    var len := s.expectedLen;
    if len > 65535 || len < HeaderSize then Finished(s, false)
    else if |s.recvBuf| < 2 + len then s
    else
      var parsed := AddressRecords(s.recvBuf[2..2 + len], s.family, s.records, SkipWhenFull);
      Finished(s.(records := parsed.items), parsed.ok)
  }

  /** `onRead(nread, buf)`: an error fails the client, an empty read does nothing. */
  function ReadEvent(s: ClientState, nread: int, data: seq<Byte>): ClientState
  {
    if s.closed then s
    else if nread < 0 then Finished(s, false)
    else if nread > 0 then Received(s, data)
    else s
  }

  // ------------------------------------------------------------------
  // What the transitions keep
  // ------------------------------------------------------------------

  /**
   * What a message stream decides: wait for more octets, fail, or parse the
   * message the prefix announces.
   */
  datatype StreamVerdict = Waiting | Refused | Message(octets: seq<Byte>)

  /** The verdict for all the octets received so far, whatever their chunking. */
  function Verdict(buf: seq<Byte>): StreamVerdict
  {
    if |buf| < 2 then Waiting
    else
      var len := ReadU16(buf, 0);
      if len < HeaderSize then Refused
      else if |buf| < 2 + len then Waiting
      else Message(buf[2..2 + len])
  }

  /**
   * The client invariant: the callback is set exactly while the client is
   * open, it has been called once exactly when the client is closed, a
   * closed client holds no handle, a latched length is the one the first two
   * octets announce, and an open client has not yet seen a whole message.
   */
  predicate Valid(s: ClientState)
  {
    && (s.callbackSet <==> !s.closed)
    && |s.completions| == (if s.closed then 1 else 0)
    && (s.closed ==> !s.socketOpen && !s.timerOpen)
    && (s.expectedLen != 0 ==> |s.recvBuf| >= 2 && s.expectedLen == ReadU16(s.recvBuf, 0))
    && (!s.closed ==> Verdict(s.recvBuf) == Waiting)
  }

  lemma InitialValid(host: string, family: Family, timeout: U32)
    ensures Valid(Initial(host, family, timeout))
    ensures Initial(host, family, timeout).completions == []
  {
  }

  /** `done` completes once: a second call changes nothing, and the first closes the client. */
  lemma FinishedOnce(s: ClientState, first: bool, second: bool)
    requires Valid(s)
    ensures Finished(s, first).closed && Valid(Finished(s, first))
    ensures Finished(Finished(s, first), second) == Finished(s, first)
    ensures !s.closed ==> Finished(s, first).completions == s.completions + [Completion(first, s.records)]
    ensures s.closed ==> Finished(s, first) == s
  {
  }

  /** Once closed, the connect, read and timer events leave the client as it is. */
  lemma ClosedIgnoresEvents(s: ClientState, status: int, id: U16, written: int, nread: int, data: seq<Byte>)
    requires s.closed
    ensures Connected(s, status, id, written) == s
    ensures ReadEvent(s, nread, data) == s
    ensures TimedOut(s) == s
  {
  }

  /**
   * `read` on an open client: the verdict on all octets received decides,
   * and a latched length never changes.
   */
  lemma ReceivedFollowsVerdict(s: ClientState, data: seq<Byte>)
    requires Valid(s) && !s.closed
    ensures var r := Received(s, data);
            && Valid(r)
            && r.recvBuf == s.recvBuf + data
            && (s.expectedLen != 0 ==> r.expectedLen == s.expectedLen)
            && match Verdict(s.recvBuf + data)
               case Waiting => !r.closed && r.records == s.records && r.completions == s.completions
               case Refused => r.completions == s.completions + [Completion(false, s.records)]
               case Message(m) =>
                 var parsed := AddressRecords(m, s.family, s.records, SkipWhenFull);
                 r.records == parsed.items && r.completions == s.completions + [Completion(parsed.ok, parsed.items)]
  {
    var buf := s.recvBuf + data;
    if |buf| >= 2 {
      if s.expectedLen != 0 {
        assert buf[..2] == s.recvBuf[..2];
        ReadU16Encodes(buf, 0);
        ReadU16Encodes(s.recvBuf, 0);
        U16BytesInjective(ReadU16(buf, 0), ReadU16(s.recvBuf, 0));
      }
      ExaminedFollowsVerdict(s.(recvBuf := buf, expectedLen := ReadU16(buf, 0)));
    }
  }

  /** The second half of `read`: the latched length is the announced one, so the verdict decides. */
  lemma ExaminedFollowsVerdict(s: ClientState)
    requires !s.closed && s.callbackSet && |s.completions| == 0
    requires |s.recvBuf| >= 2 && s.expectedLen == ReadU16(s.recvBuf, 0)
    ensures var r := Examined(s);
            && Valid(r)
            && r.recvBuf == s.recvBuf && r.expectedLen == s.expectedLen
            && match Verdict(s.recvBuf)
               case Waiting => r == s
               case Refused => r.completions == [Completion(false, s.records)]
               case Message(m) =>
                 var parsed := AddressRecords(m, s.family, s.records, SkipWhenFull);
                 r.records == parsed.items && r.completions == [Completion(parsed.ok, parsed.items)]
  {
  }

  /** Every event keeps the client invariant. */
  lemma EventsKeepValid(s: ClientState, status: int, id: U16, written: int, nread: int, data: seq<Byte>)
    requires Valid(s)
    ensures Valid(Started(s))
    ensures Valid(Connected(s, status, id, written))
    ensures Valid(ReadEvent(s, nread, data))
    ensures Valid(TimedOut(s))
  {
    ConnectKeepsValid(s, status, id, written);
    if !s.closed {
      FinishedOnce(s, false, false);
      if nread > 0 {
        ReceivedFollowsVerdict(s, data);
      }
    }
  }

  lemma ConnectKeepsValid(s: ClientState, status: int, id: U16, written: int)
    requires Valid(s)
    ensures Valid(Connected(s, status, id, written))
  {
    if !s.closed {
      var reading := s.(actions := s.actions + [StartReading]);
      var query := Query(id, s.host, QueryType(s.family));
      var writing := reading.(actions := reading.actions + [Write(Frame(query))]);
      FinishedOnce(s, false, false);
      FinishedOnce(reading, false, false);
      FinishedOnce(writing, false, false);
    }
  }

  /**
   * A connected client writes the frame of the query it builds and waits;
   * a failed connection, a name that cannot be encoded or a short write
   * completes it with failure.
   */
  lemma ConnectWritesFrame(s: ClientState, status: int, id: U16, written: int)
    requires Valid(s) && !s.closed
    ensures var query := Query(id, s.host, QueryType(s.family));
            var r := Connected(s, status, id, written);
            if status >= 0 && query != [] && written == |query| + 2 then
              r == s.(actions := s.actions + [StartReading, Write(Frame(query))])
            else
              r.closed && r.completions == s.completions + [Completion(false, s.records)]
  {
  }

  /** Feeding chunks to `onRead` in order, each with its length as `nread`. */
  function Fed(s: ClientState, chunks: seq<seq<Byte>>): ClientState
    decreases |chunks|
  {
    if chunks == [] then s else Fed(ReadEvent(s, |chunks[0]|, chunks[0]), chunks[1..])
  }

  function Concat(chunks: seq<seq<Byte>>): seq<Byte>
    decreases |chunks|
  {
    if chunks == [] then [] else chunks[0] + Concat(chunks[1..])
  }

  /** The octets of a frame before its end leave the stream waiting. */
  lemma FramePrefixWaits(query: seq<Byte>, buf: seq<Byte>)
    requires HeaderSize <= |query| < 0x1_0000
    requires |buf| < |query| + 2 && buf == Frame(query)[..|buf|]
    ensures Verdict(buf) == Waiting
  {
    if |buf| >= 2 {
      assert buf[..2] == Frame(query)[..2];
      ReadU16Encodes(buf, 0);
      ReadU16Encodes(Frame(query), 0);
      FramePrefix(query);
      U16BytesInjective(ReadU16(buf, 0), ReadU16(Frame(query), 0));
    }
  }

  /** A whole frame, with whatever follows it, delivers its query. */
  lemma FrameDelivers(query: seq<Byte>, extra: seq<Byte>)
    requires HeaderSize <= |query| < 0x1_0000
    ensures Verdict(Frame(query) + extra) == Message(query)
  {
    var buf := Frame(query) + extra;
    assert buf[..2] == Frame(query)[..2];
    ReadU16Encodes(buf, 0);
    ReadU16Encodes(Frame(query), 0);
    FramePrefix(query);
    U16BytesInjective(ReadU16(buf, 0), ReadU16(Frame(query), 0));
    assert buf[2..2 + |query|] == query;
  }

  /**
   * However a response frame is cut into reads, the client completes exactly
   * once, with the outcome of parsing exactly the announced message; octets
   * after the frame are ignored.
   */
  lemma {:induction false} ChunkedFrameCompletes(s: ClientState, query: seq<Byte>, extra: seq<Byte>,
                                                 chunks: seq<seq<Byte>>)
    requires Valid(s) && !s.closed
    requires HeaderSize <= |query| < 0x1_0000
    requires |s.recvBuf| < |query| + 2 && s.recvBuf + Concat(chunks) == Frame(query) + extra
    ensures var parsed := AddressRecords(query, s.family, s.records, SkipWhenFull);
            Fed(s, chunks).completions == s.completions + [Completion(parsed.ok, parsed.items)]
    decreases |chunks|
  {
    var stream := Frame(query) + extra;
    var c := chunks[0];
    assert Concat(chunks) == c + Concat(chunks[1..]);
    var buf := s.recvBuf + c;
    assert stream == buf + Concat(chunks[1..]);
    var next := ReadEvent(s, |c|, c);
    if |buf| < |query| + 2 {
      assert buf == stream[..|buf|];
      ChunkWaits(s, query, c, extra);
      ChunkedFrameCompletes(next, query, extra, chunks[1..]);
    } else {
      ChunkDelivers(s, query, c, stream[|query| + 2..], Concat(chunks[1..]));
      FedClosed(next, chunks[1..]);
    }
  }

  /** A chunk that does not finish the frame leaves the client waiting with the octets buffered. */
  lemma ChunkWaits(s: ClientState, query: seq<Byte>, c: seq<Byte>, extra: seq<Byte>)
    requires Valid(s) && !s.closed
    requires HeaderSize <= |query| < 0x1_0000
    requires |s.recvBuf + c| < |query| + 2
    requires s.recvBuf + c == (Frame(query) + extra)[..|s.recvBuf + c|]
    ensures var next := ReadEvent(s, |c|, c);
            && Valid(next) && !next.closed && next.recvBuf == s.recvBuf + c
            && next.records == s.records && next.completions == s.completions
  {
    var buf := s.recvBuf + c;
    assert buf == Frame(query)[..|buf|];
    FramePrefixWaits(query, buf);
    ReceivedFollowsVerdict(s, c);
  }

  /** A chunk that finishes the frame delivers the answer's records and closes the client. */
  lemma ChunkDelivers(s: ClientState, query: seq<Byte>, c: seq<Byte>, extra: seq<Byte>, later: seq<Byte>)
    requires Valid(s) && !s.closed
    requires HeaderSize <= |query| < 0x1_0000
    requires |s.recvBuf| < |query| + 2 <= |s.recvBuf + c|
    requires s.recvBuf + c + later == Frame(query) + extra
    ensures var next := ReadEvent(s, |c|, c);
            var parsed := AddressRecords(query, s.family, s.records, SkipWhenFull);
            && next.closed && next.completions == s.completions + [Completion(parsed.ok, parsed.items)]
  {
    var buf := s.recvBuf + c;
    var rest := buf[|query| + 2..];
    assert buf == (Frame(query) + extra)[..|buf|];
    assert buf == Frame(query) + rest;
    FrameDelivers(query, rest);
    ReceivedFollowsVerdict(s, c);
    assert ReadEvent(s, |c|, c) == Received(s, c);
  }

  /** A closed client stays as it is, whatever it is fed. */
  lemma {:induction false} FedClosed(s: ClientState, chunks: seq<seq<Byte>>)
    requires s.closed
    ensures Fed(s, chunks) == s
    decreases |chunks|
  {
    if chunks != [] {
      FedClosed(s, chunks[1..]);
    }
  }

  // ------------------------------------------------------------------
  // The client
  // ------------------------------------------------------------------

  class DnsTcpClient {
    var host: string
    var family: Family
    var timeout: U32
    var socketOpen: bool
    var timerOpen: bool
    var callbackSet: bool
    var records: seq<Address>
    var recvBuf: seq<Byte>
    var expectedLen: nat
    var closed: bool
    /** The calls of the completion callback so far. */
    var completions: seq<Completion>
    /** The requests made of the event loop so far. */
    var actions: seq<Action>

    function State(): ClientState
      reads this
    {
      ClientState(host, family, timeout, socketOpen, timerOpen, callbackSet, records, recvBuf, expectedLen, closed,
                  completions, actions)
    }

    constructor (host: string, family: Family, timeout: U32)
      ensures State() == Initial(host, family, timeout)
    {
      this.host, this.family, this.timeout := host, family, timeout;
      socketOpen, timerOpen, callbackSet := true, true, true;
      records, recvBuf, expectedLen, closed := [], [], 0, false;
      completions, actions := [], [];
    }

    method Start()
      modifies this
      ensures State() == Started(old(State()))
    {
      actions := actions + [Connect, StartTimer(timeout)];
    }

    method OnConnect(status: int, id: U16, written: int)
      modifies this
      ensures State() == Connected(old(State()), status, id, written)
    {
      if closed {
        return;
      }
      if status < 0 {
        Done(false);
        return;
      }
      actions := actions + [StartReading];
      Send(id, written);
    }

    method OnRead(nread: int, data: seq<Byte>)
      modifies this
      ensures State() == ReadEvent(old(State()), nread, data)
    {
      if closed {
        return;
      }
      if nread < 0 {
        Done(false);
        return;
      }
      if nread > 0 {
        Read(data);
      }
    }

    method OnTimer()
      modifies this
      ensures State() == TimedOut(old(State()))
    {
      if !closed {
        Done(false);
      }
    }

    method Send(id: U16, written: int)
      modifies this
      ensures State() == Sent(old(State()), id, written)
    {
      var query := BuildQuery(host, QueryType(family), id);
      if query == [] {
        Done(false);
        return;
      }
      var frame := [(|query| / 0x100) % 0x100, |query| % 0x100] + query;
      actions := actions + [Write(frame)];
      if written < 0 || written != |frame| {
        Done(false);
      }
    }

    method Read(data: seq<Byte>)
      modifies this
      ensures State() == Received(old(State()), data)
    {
      recvBuf := recvBuf + data;
      if |recvBuf| < 2 {
        return;
      }
      if expectedLen == 0 {
        expectedLen := (recvBuf[0] as int) * 0x100 + recvBuf[1];
      }
      Examine();
    }

    /** The rest of `read`, once two octets are buffered and the length is latched. */
    method Examine()
      requires |recvBuf| >= 2
      modifies this
      ensures State() == Examined(old(State()))
    {
      if expectedLen > 65535 || expectedLen < HeaderSize {
        Done(false);
        return;
      }
      if |recvBuf| < 2 + expectedLen {
        return;
      }
      var ok, parsed := ParseAddressRecords(recvBuf[2..2 + expectedLen], family, records, SkipWhenFull);
      records := parsed;
      Done(ok);
    }

    method Done(success: bool)
      modifies this
      ensures State() == Finished(old(State()), success)
    {
      if closed {
        return;
      }
      closed := true;
      actions := actions + [StopTimer];
      Close();
      if callbackSet {
        callbackSet := false;
        completions := completions + [Completion(success, records)];
      }
    }

    method Close()
      modifies this
      ensures State() == Closed(old(State()))
    {
      if socketOpen {
        actions := actions + [CloseSocket];
        socketOpen := false;
      }
      if timerOpen {
        actions := actions + [CloseTimer];
        timerOpen := false;
      }
    }
  }
}
