/**
 * `DnsPoolNsBackend`: resolves a pool host through the pool's own name
 * servers. It looks up the NS records of the host's base domain over DoH,
 * asks each name server in turn for the host's address (over DoH, then
 * over TCP), falls back to asking a public DoH server directly ("simple
 * DoH"), and last to the system resolver.
 *
 * Every callback is a transition of one state. What the backend asks of
 * the outside world (a DoH fetch, a timer start or stop, a DNS-over-TCP
 * client, a system resolution, a call of a waiting listener) is recorded
 * as an action. The HTTP answers, the TCP results, the timer, the clock,
 * which listeners are still alive, `uv_inet_pton` and `uv_inet_ntop` are
 * inputs. The process-wide set of base domains being resolved and the
 * `Dns::m_resolving` counter are shared state, held by a separate object.
 */
module DnsPoolNs {
  import opened Common
  import opened DnsName
  import opened DnsMessage
  import DnsConfig
  import opened DomainUtils

  /** A queued `std::weak_ptr<IDnsListener>`, by identity. */
  type ListenerId = nat

  /** The states of `DnsPoolNsBackend::State`. */
  datatype Phase = Idle | NsLookup | NsResolve | PoolQuery | SimpleDoH | Fallback

  /** An entry of `m_nsEntries`: a name server and one of its addresses. */
  datatype NsEntry = NsEntry(host: string, ip: string)

  /** What a fetch hands back: the HTTP status, the body and the peer address. */
  datatype HttpData = HttpData(status: int, body: seq<Byte>, ip: string)

  /**
   * A request made of the outside world. A DoH fetch is a POST of the DNS
   * query for `name` and `qtype` to port 443 of `server`; `DoHQuery` is
   * answered through `onHttpData`, `NsQuery` (always an A query for the
   * host) through the pool listener's `onPoolDoHResponse`.
   */
  datatype Action =
    | DoHQuery(server: string, name: string, qtype: RecordType)
    | NsQuery(server: string, name: string)
    | StartTimer(ms: U32)
    | StopTimer
    | TcpQuery(ip: string, host: string, family: Family, timeout: U32)
    | SystemResolve(host: string, config: DnsConfig.Config)
    | Deliver(listener: ListenerId, records: seq<Address>, status: int, failed: bool)

  /**
   * The inputs of a callback: the clock, the listeners still alive, and the
   * address parser and printer.
   */
  datatype Env = Env(now: U64, live: set<ListenerId>, pton: AddressParser, ntop: AddressPrinter)

  /** Every field of a backend, and the shared state it reads, as one value. */
  datatype Backend = Backend(
    config: DnsConfig.Config, records: seq<Address>, status: int, phase: Phase,
    host: string, baseDomain: string, queue: seq<ListenerId>, tcpClient: bool,
    nsServers: seq<string>, nsEntries: seq<NsEntry>, nsIndex: nat, dohIndex: nat,
    ts: U64, poolQueryDoH: bool, addedToActiveSet: bool,
    active: set<string>, resolving: int,
    actions: seq<Action>)

  /** A new backend: the member initialisers, beside the shared state as it is. */
  function Initial(active: set<string>, resolving: int): Backend
  {
    Backend(DnsConfig.Default(), [], 0, Idle, "", "", [], false, [], [], 0, 0, 0, true, false,
            active, resolving, [])
  }

  /** The DoH server of the current attempt: the primary for index 0, the fallback otherwise. */
  function DoHServer(s: Backend): string
  {
    if s.dohIndex == 0 then s.config.dohPrimary else s.config.dohFallback
  }

  /** `now - m_ts` as a `uint64_t` subtraction. */
  function Elapsed(now: U64, ts: U64): U64
  {
    (now - ts) % 0x1_0000_0000_0000_0000
  }

  /** The TTL cache answers: records are held and younger than the configured TTL. */
  predicate Fresh(s: Backend, now: U64)
  {
    Elapsed(now, s.ts) <= DnsConfig.TtlMillis(s.config) && s.records != []
  }

  /** The queued listeners that can still be locked, in queue order. */
  function Listening(queue: seq<ListenerId>, live: set<ListenerId>): seq<ListenerId>
  {
    if queue == [] then []
    else (if queue[0] in live then [queue[0]] else []) + Listening(queue[1..], live)
  }

  /** One `onResolved` call for each listener, in order. */
  function Deliveries(listeners: seq<ListenerId>, records: seq<Address>, status: int): seq<Action>
  {
    if listeners == [] then []
    else [Deliver(listeners[0], records, status, status < 0)] + Deliveries(listeners[1..], records, status)
  }

  /** One more call at the end of the calls. */
  lemma {:induction false} DeliveriesAppend(listeners: seq<ListenerId>, l: ListenerId, records: seq<Address>, status: int)
    ensures Deliveries(listeners + [l], records, status)
            == Deliveries(listeners, records, status) + [Deliver(l, records, status, status < 0)]
  {
    if listeners != [] {
      assert (listeners + [l])[1..] == listeners[1..] + [l];
      DeliveriesAppend(listeners[1..], l, records, status);
    }
  }

  /** The loop of `notify`: one `onResolved` call for each queued listener that is still alive, in queue order. */
  method DeliverAll(queue: seq<ListenerId>, live: set<ListenerId>, records: seq<Address>, status: int)
    returns (calls: seq<Action>)
    ensures calls == Deliveries(Listening(queue, live), records, status)
  {
    calls := [];
    ghost var delivered: seq<ListenerId> := [];
    var rest := queue;
    while rest != []
      invariant Listening(queue, live) == delivered + Listening(rest, live)
      invariant calls == Deliveries(delivered, records, status)
      decreases |rest|
    {
      if rest[0] in live {
        DeliveriesAppend(delivered, rest[0], records, status);
        calls := calls + [Deliver(rest[0], records, status, status < 0)];
        delivered := delivered + [rest[0]];
      }
      rest := rest[1..];
    }
    assert delivered == Listening(queue, live);
  }

  /** How many name servers are left to try; it bounds the chains of name-server attempts. */
  function Remaining(s: Backend): nat
  {
    if s.nsIndex < |s.nsServers| then |s.nsServers| - s.nsIndex else 0
  }

  // ------------------------------------------------------------------
  // The invariant
  // ------------------------------------------------------------------

  /** The resolution count is not negative, and a backend that joined the active set is in it and counted. */
  predicate SharedOk(s: Backend)
  {
    s.resolving >= 0 && (s.addedToActiveSet ==> s.baseDomain in s.active && s.resolving >= 1)
  }

  /** The part of the invariant that holds between the steps of a transition. */
  predicate Ready(s: Backend)
  {
    s.dohIndex <= 2 && SharedOk(s)
  }

  /**
   * The backend invariant: the name-server index is in range while a name
   * server is being asked, a DoH phase uses one of the two servers, and an
   * idle backend has no waiting listener and holds no place in the active set.
   */
  predicate Valid(s: Backend)
  {
    && Ready(s)
    && ((s.phase == NsResolve || s.phase == PoolQuery) ==> s.nsIndex < |s.nsServers|)
    && ((s.phase == NsLookup || s.phase == SimpleDoH) ==> s.dohIndex <= 1)
    && (s.phase == Idle ==> s.queue == [] && !s.addedToActiveSet)
  }

  // ------------------------------------------------------------------
  // The transitions, on values
  // ------------------------------------------------------------------

  /**
   * `notify`: a backend that joined the active set leaves it and ends its
   * resolution; every waiting listener still alive is called with the
   * records and the status, and the queue is emptied.
   */
  function NotifyStep(s: Backend, live: set<ListenerId>): Backend
  {
    var g := if s.addedToActiveSet
             then s.(active := s.active - {s.baseDomain}, resolving := s.resolving - 1, addedToActiveSet := false)
             else s;
    g.(actions := g.actions + Deliveries(Listening(g.queue, live), g.records, g.status), queue := [])
  }

  /** `fallbackToSystem`: stop the timer and hand the host to the system resolver. */
  function FallbackToSystemStep(s: Backend): (r: Backend)
    ensures Ready(s) ==> Valid(r)
    ensures r.nsIndex == s.nsIndex && r.queue == s.queue
  {
    s.(phase := Fallback, actions := s.actions + [StopTimer, SystemResolve(s.host, s.config)])
  }

  /** `startSimpleDoH`: ask the current DoH server for the host's A record, or fall back. */
  function StartSimpleDoHStep(s: Backend): (r: Backend)
    ensures s.dohIndex <= 1 && SharedOk(s) ==> Valid(r)
    ensures r.nsIndex == s.nsIndex && r.queue == s.queue
  {
    var s1 := s.(phase := SimpleDoH);
    if NameEncoding(s.host).None? then FallbackToSystemStep(s1)
    else s1.(actions := s1.actions + [DoHQuery(DoHServer(s), s.host, A), StartTimer(s.config.poolNsTimeout)])
  }

  /** `startNsLookup`: ask the current DoH server for the NS records of the base domain, or fall back. */
  function StartNsLookupStep(s: Backend): (r: Backend)
    ensures s.dohIndex <= 1 && SharedOk(s) ==> Valid(r)
    ensures r.nsIndex == s.nsIndex && r.queue == s.queue
  {
    var s1 := s.(phase := NsLookup);
    if NameEncoding(s.baseDomain).None? then FallbackToSystemStep(s1)
    else s1.(actions := s1.actions + [DoHQuery(DoHServer(s), s.baseDomain, NS), StartTimer(s.config.poolNsTimeout)])
  }

  /** `fallbackToSimpleDoH`: start simple DoH again from the primary server. */
  function FallbackToSimpleDoHStep(s: Backend): (r: Backend)
    ensures SharedOk(s) ==> Valid(r)
    ensures r.nsIndex == s.nsIndex && r.queue == s.queue
  {
    StartSimpleDoHStep(s.(dohIndex := 0))
  }

  /** `tryNextNs`: move to the next name server, or to simple DoH once none is left. */
  function TryNextNsStep(s: Backend): (r: Backend)
    ensures Ready(s) ==> Valid(r)
    ensures r.nsIndex > s.nsIndex && r.queue == s.queue
    decreases Remaining(s), 0
  {
    var s1 := s.(nsIndex := s.nsIndex + 1, poolQueryDoH := true);
    if s1.nsIndex < |s1.nsServers| then StartPoolQueryStep(s1) else FallbackToSimpleDoHStep(s1)
  }

  /** `startPoolQuery`: ask the current name server over DoH, or fall back once none is left. */
  function StartPoolQueryStep(s: Backend): (r: Backend)
    ensures Ready(s) ==> Valid(r)
    ensures r.nsIndex >= s.nsIndex && r.queue == s.queue
    decreases Remaining(s), 3
  {
    if s.nsIndex >= |s.nsServers| then FallbackToSystemStep(s)
    else StartPoolQueryDoHStep(s.(phase := PoolQuery, poolQueryDoH := true), s.nsServers[s.nsIndex])
  }

  /** `startPoolQueryDoH(nsHost)`: send the host's A query to the name server over DoH. */
  function StartPoolQueryDoHStep(s: Backend, nsHost: string): (r: Backend)
    ensures Ready(s) && s.phase == PoolQuery && s.nsIndex < |s.nsServers| ==> Valid(r)
    ensures r.nsIndex >= s.nsIndex && r.queue == s.queue
    decreases Remaining(s), 2
  {
    if NameEncoding(s.host).None? then StartNsResolveStep(s)
    else s.(actions := s.actions + [NsQuery(nsHost, s.host), StartTimer(s.config.poolNsTimeout)])
  }

  /** `startNsResolve`: ask the DoH server for the address of the current name server. */
  function StartNsResolveStep(s: Backend): (r: Backend)
    ensures Ready(s) ==> Valid(r)
    ensures r.nsIndex >= s.nsIndex && r.queue == s.queue
    decreases Remaining(s), 1
  {
    if s.nsIndex >= |s.nsServers| then FallbackToSystemStep(s)
    else
      var s1 := s.(phase := NsResolve);
      var nsHost := s.nsServers[s.nsIndex];
      if NameEncoding(nsHost).None? then TryNextNsStep(s1)
      else s1.(actions := s1.actions + [DoHQuery(DoHServer(s1), nsHost, A), StartTimer(s.config.poolNsTimeout)])
  }

  /** The family `startPoolQueryTcp` parses an address text in: IPv6 when it holds a colon. */
  function TextFamily(ip: string): Family
  {
    if ':' in ip then Inet6 else Inet
  }

  /**
   * `startPoolQueryTcp`: query the host over TCP at the last name-server
   * address found, or move on when there is none or it does not parse.
   */
  function StartPoolQueryTcpStep(s: Backend, env: Env): (r: Backend)
    ensures Ready(s) && s.nsIndex < |s.nsServers| ==> Valid(r)
    ensures r.nsIndex >= s.nsIndex && r.queue == s.queue
    decreases Remaining(s), 1
  {
    if s.nsEntries == [] then TryNextNsStep(s)
    else
      var ip := s.nsEntries[|s.nsEntries| - 1].ip;
      var s1 := s.(phase := PoolQuery, poolQueryDoH := false, actions := s.actions + [StopTimer]);
      if !env.pton(TextFamily(ip), ip) then TryNextNsStep(s1)
      else s1.(tcpClient := true,
               actions := s1.actions + [TcpQuery(ip, s.host, DnsConfig.AiFamily(s.config), s.config.poolNsTimeout)])
  }

  /**
   * What `onPoolDoHResponse` does when the name server gave no records:
   * `tryTcpWithCachedIp` records the peer address and tries TCP to it; with
   * no peer address the name server's own address is looked up instead.
   */
  function PoolFailureStep(s: Backend, ip: string, env: Env): (r: Backend)
    requires s.nsIndex < |s.nsServers|
    ensures Ready(s) ==> Valid(r)
    ensures r.nsIndex >= s.nsIndex && r.queue == s.queue
  {
    if ip == [] then StartNsResolveStep(s)
    else StartPoolQueryTcpStep(s.(nsEntries := s.nsEntries + [NsEntry(s.nsServers[s.nsIndex], ip)]), env)
  }

  /** `onPoolQueryComplete(success)`: become idle and notify, or fall back. */
  function PoolQueryCompleteStep(s: Backend, success: bool, live: set<ListenerId>): (r: Backend)
    ensures Ready(s) ==> Valid(r)
    ensures r.nsIndex == s.nsIndex
  {
    if !success then FallbackToSystemStep(s) else NotifyStep(s.(phase := Idle), live)
  }

  /** `onNsLookupComplete(nsServers)`. */
  function NsLookupCompleteStep(s: Backend, ns: seq<string>): (r: Backend)
    ensures Ready(s) ==> Valid(r)
    ensures r.nsIndex >= s.nsIndex && r.queue == s.queue
  {
    if ns == [] then FallbackToSimpleDoHStep(s) else StartPoolQueryStep(s.(nsServers := ns))
  }

  /**
   * `resolve(host, listener, config)`: the listener is queued and the
   * configuration stored; a fresh cache notifies at once; a resolution in
   * flight is joined; otherwise the lookup state is reset and the host
   * routed to the system resolver, to simple DoH, or to the NS lookup.
   */
  function ResolveStep(s: Backend, host: string, listener: ListenerId, config: DnsConfig.Config, env: Env)
    : (r: Backend)
    ensures Valid(s) ==> Valid(r)
  {
    var s1 := s.(queue := s.queue + [listener], config := config);
    if Fresh(s1, env.now) then NotifyStep(s1, env.live)
    else if s1.phase != Idle then s1
    else RestartStep(s1, host, env)
  }

  /** The lookup state `resolve` resets for a new resolution of `host`. */
  function ResetState(s: Backend, host: string, pton: AddressParser): Backend
  {
    s.(host := host, baseDomain := ExtractBaseDomain(host, pton), status := 0, nsServers := [], nsEntries := [],
       nsIndex := 0, dohIndex := 0, poolQueryDoH := true, addedToActiveSet := false, tcpClient := false)
  }

  /**
   * A new resolution: without pool-ns or for an address literal, the system
   * resolver; inside another resolution or for a base domain already being
   * resolved, simple DoH; otherwise the base domain joins the active set,
   * the resolution is counted and the NS lookup starts.
   */
  function RestartStep(s: Backend, host: string, env: Env): (r: Backend)
    ensures SharedOk(s) ==> Valid(r)
  {
    var s2 := ResetState(s, host, env.pton);
    if !s.config.poolNs || IsIpAddress(host, env.pton) then FallbackToSystemStep(s2)
    else if s2.resolving > 0 || s2.baseDomain in s2.active then StartSimpleDoHStep(s2)
    else StartNsLookupStep(s2.(active := s2.active + {s2.baseDomain}, addedToActiveSet := true,
                               resolving := s2.resolving + 1))
  }

  /** `onHttpData` for an answer whose status is not 200: retry the DoH server, try TCP, or fall back. */
  function HttpFailureStep(s: Backend, env: Env): (r: Backend)
    requires Valid(s) && s.phase != Idle && s.phase != Fallback
    ensures Valid(r)
    ensures r.nsIndex >= s.nsIndex
  {
    if s.phase == NsLookup && s.dohIndex + 1 < 2 then StartNsLookupStep(s.(dohIndex := s.dohIndex + 1))
    else
      var s2 := if s.phase == NsLookup then s.(dohIndex := s.dohIndex + 1) else s;
      if s2.phase == SimpleDoH && s2.dohIndex + 1 < 2 then StartSimpleDoHStep(s2.(dohIndex := s2.dohIndex + 1))
      else
        var s3 := if s2.phase == SimpleDoH then s2.(dohIndex := s2.dohIndex + 1) else s2;
        if s3.phase == NsResolve then StartPoolQueryTcpStep(s3, env) else FallbackToSystemStep(s3)
  }

  /** `onHttpData` in NS_LOOKUP with status 200: the NS records, or a retry, or the fallback. */
  function NsLookupDataStep(s: Backend, body: seq<Byte>, env: Env): (r: Backend)
    requires Valid(s) && s.phase == NsLookup
    ensures Valid(r)
    ensures r.nsIndex >= s.nsIndex
  {
    var parsed := Response(body, NS, [], env.ntop, SkipWhenFull);
    if parsed.ok then NsLookupCompleteStep(s, parsed.items)
    else if s.dohIndex + 1 < 2 then StartNsLookupStep(s.(dohIndex := s.dohIndex + 1))
    else FallbackToSystemStep(s.(dohIndex := s.dohIndex + 1))
  }

  /** `onHttpData` in NS_RESOLVE with status 200: the name server's address, then TCP; or the next name server. */
  function NsResolveDataStep(s: Backend, body: seq<Byte>, env: Env): (r: Backend)
    requires Valid(s) && s.phase == NsResolve
    ensures Valid(r)
    ensures r.nsIndex >= s.nsIndex
  {
    var parsed := Response(body, A, [], env.ntop, SkipWhenFull);
    if parsed.ok && parsed.items != [] then
      StartPoolQueryTcpStep(s.(nsEntries := s.nsEntries + [NsEntry(s.nsServers[s.nsIndex], parsed.items[0])]), env)
    else TryNextNsStep(s)
  }

  /** `onHttpData` in SIMPLE_DOH with status 200: the records are cached and delivered, or a retry, or the fallback. */
  function SimpleDoHDataStep(s: Backend, body: seq<Byte>, env: Env): (r: Backend)
    requires Valid(s) && s.phase == SimpleDoH
    ensures Valid(r)
    ensures r.nsIndex >= s.nsIndex
  {
    var parsed := AddressRecords(body, DnsConfig.AiFamily(s.config), [], SkipWhenFull);
    if parsed.ok then NotifyStep(s.(records := parsed.items, status := 0, ts := env.now, phase := Idle), env.live)
    else if s.dohIndex + 1 < 2 then StartSimpleDoHStep(s.(dohIndex := s.dohIndex + 1))
    else FallbackToSystemStep(s.(dohIndex := s.dohIndex + 1))
  }

  /** `onHttpData(data)`: ignored when idle or falling back; otherwise the timer is stopped and the phase decides. */
  function HttpDataStep(s: Backend, d: HttpData, env: Env): (r: Backend)
    requires Valid(s)
    ensures Valid(r)
    ensures r.nsIndex >= s.nsIndex
  {
    if s.phase == Idle || s.phase == Fallback then s
    else
      var s1 := s.(actions := s.actions + [StopTimer]);
      if d.status != 200 then HttpFailureStep(s1, env)
      else if s1.phase == NsLookup then NsLookupDataStep(s1, d.body, env)
      else if s1.phase == NsResolve then NsResolveDataStep(s1, d.body, env)
      else if s1.phase == SimpleDoH then SimpleDoHDataStep(s1, d.body, env)
      else s1
  }

  /**
   * `onPoolDoHResponse(data)`: the timer is stopped; outside POOL_QUERY
   * nothing else happens; records end the resolution, anything else tries
   * TCP to the peer or looks up the name server's address.
   */
  function PoolDoHResponseStep(s: Backend, d: HttpData, env: Env): (r: Backend)
    requires Valid(s)
    ensures Valid(r)
    ensures r.nsIndex >= s.nsIndex
  {
    var s1 := s.(actions := s.actions + [StopTimer]);
    if s1.phase != PoolQuery then s1
    else if d.status != 200 then PoolFailureStep(s1, d.ip, env)
    else PoolAnswerStep(s1, d, env)
  }

  /** An answer with status 200 from a pool name server: its address records end the resolution, or it failed. */
  function PoolAnswerStep(s: Backend, d: HttpData, env: Env): (r: Backend)
    requires s.nsIndex < |s.nsServers|
    ensures Ready(s) ==> Valid(r)
    ensures r.nsIndex >= s.nsIndex
  {
    var parsed := AddressRecords(d.body, DnsConfig.AiFamily(s.config), [], SkipWhenFull);
    if parsed.ok then
      PoolQueryCompleteStep(s.(records := parsed.items, status := 0, ts := env.now), true, env.live)
    else PoolFailureStep(s, d.ip, env)
  }

  /** `onTcpQueryComplete(success, records)`: records end the resolution, anything else moves to the next name server. */
  function TcpQueryCompleteStep(s: Backend, success: bool, records: seq<Address>, env: Env): (r: Backend)
    ensures Valid(s) ==> Valid(r)
    ensures r.nsIndex >= s.nsIndex
  {
    if success && records != [] then
      PoolQueryCompleteStep(s.(records := records, status := 0, ts := env.now, tcpClient := false), true, env.live)
    else TryNextNsStep(s.(tcpClient := false))
  }

  /**
   * `onTimeout`: the NS lookup retries with the fallback DoH server once;
   * a name-server address lookup moves to the next name server; a DoH pool
   * query looks up the name server's address, a TCP one moves on; anything
   * else falls back to the system resolver.
   */
  function TimeoutStep(s: Backend): (r: Backend)
    ensures Valid(s) ==> Valid(r)
    ensures r.nsIndex >= s.nsIndex
  {
    if s.phase == NsLookup && s.dohIndex + 1 < 2 then StartNsLookupStep(s.(dohIndex := s.dohIndex + 1))
    else
      var s1 := if s.phase == NsLookup then s.(dohIndex := s.dohIndex + 1) else s;
      if s1.phase == NsResolve then TryNextNsStep(s1)
      else if s1.phase == PoolQuery then (if s1.poolQueryDoH then StartNsResolveStep(s1) else TryNextNsStep(s1))
      else FallbackToSystemStep(s1)
  }

  /** The system resolver's `onResolved(records, status)`: cache the outcome, become idle and notify. */
  function FallbackResolvedStep(s: Backend, records: seq<Address>, status: int, env: Env): (r: Backend)
    ensures Valid(s) ==> Valid(r)
    ensures r.nsIndex == s.nsIndex
  {
    NotifyStep(s.(records := records, status := status, ts := env.now, phase := Idle), env.live)
  }

  // ------------------------------------------------------------------
  // What the transitions promise
  // ------------------------------------------------------------------

  lemma InitialValid(active: set<string>, resolving: int)
    requires resolving >= 0
    ensures Valid(Initial(active, resolving))
    ensures Initial(active, resolving).phase == Idle && Initial(active, resolving).queue == []
  {
  }

  /** Each listener that is still alive appears as often as it was queued; the others not at all. */
  lemma {:induction false} ListeningCounts(queue: seq<ListenerId>, live: set<ListenerId>)
    ensures forall l :: multiset(Listening(queue, live))[l] == if l in live then multiset(queue)[l] else 0
  {
    if queue != [] {
      ListeningCounts(queue[1..], live);
      assert queue == [queue[0]] + queue[1..];
    }
  }

  /** The calls go to the listeners in order, each with the records, the status and the error flag. */
  lemma {:induction false} DeliveriesInOrder(listeners: seq<ListenerId>, records: seq<Address>, status: int)
    ensures |Deliveries(listeners, records, status)| == |listeners|
    ensures forall i :: 0 <= i < |listeners| ==>
              Deliveries(listeners, records, status)[i] == Deliver(listeners[i], records, status, status < 0)
  {
    if listeners != [] {
      DeliveriesInOrder(listeners[1..], records, status);
    }
  }

  /**
   * `notify` calls each still-live waiting listener as often as it was
   * queued, empties the queue, and leaves the active set (and ends the
   * resolution) exactly when this backend had joined it.
   */
  lemma NotifyDelivers(s: Backend, live: set<ListenerId>)
    ensures var r := NotifyStep(s, live);
            && r.queue == [] && !r.addedToActiveSet
            && r.active == (if s.addedToActiveSet then s.active - {s.baseDomain} else s.active)
            && r.resolving == (if s.addedToActiveSet then s.resolving - 1 else s.resolving)
            && r.phase == s.phase && r.records == s.records && r.nsIndex == s.nsIndex
            && |s.actions| <= |r.actions| && r.actions[..|s.actions|] == s.actions
            && (forall l :: multiset(Listening(s.queue, live))[l] == if l in live then multiset(s.queue)[l] else 0)
            && r.actions[|s.actions|..] == Deliveries(Listening(s.queue, live), s.records, s.status)
  {
    ListeningCounts(s.queue, live);
    var r := NotifyStep(s, live);
    assert r.actions == s.actions + Deliveries(Listening(s.queue, live), s.records, s.status);
  }

  /**
   * `resolve` always queues the listener and stores the configuration. A
   * fresh cache notifies at once and starts nothing; a resolution in flight
   * is only joined, nothing of the lookup is reset.
   */
  lemma ResolveQueues(s: Backend, host: string, listener: ListenerId, config: DnsConfig.Config, env: Env)
    ensures var s1 := s.(queue := s.queue + [listener], config := config);
            var r := ResolveStep(s, host, listener, config, env);
            && (Fresh(s1, env.now) ==>
                  r == NotifyStep(s1, env.live) && r.queue == [] && r.phase == s.phase
                  && r.actions == s.actions + Deliveries(Listening(s.queue + [listener], env.live), s.records, s.status))
            && (!Fresh(s1, env.now) && s.phase != Idle ==> r == s1)
  {
  }

  /**
   * The routing of a new resolution: without pool-ns or for an address
   * literal, the system resolver; inside another resolution or for a base
   * domain already being resolved, simple DoH without joining the active
   * set; otherwise the base domain joins the active set and the NS lookup
   * starts. Only the last case changes the shared state.
   */
  lemma ResolveRoutes(s: Backend, host: string, listener: ListenerId, config: DnsConfig.Config, env: Env)
    requires Valid(s) && s.phase == Idle
    requires !Fresh(s.(queue := s.queue + [listener], config := config), env.now)
    ensures var r := ResolveStep(s, host, listener, config, env);
            var base := ExtractBaseDomain(host, env.pton);
            && r.host == host && r.baseDomain == base && r.nsIndex == 0 && r.queue == [listener]
            && (!config.poolNs || IsIpAddress(host, env.pton) ==>
                  r.phase == Fallback && r.actions == s.actions + [StopTimer, SystemResolve(host, config)]
                  && r.active == s.active && r.resolving == s.resolving && !r.addedToActiveSet)
            && (config.poolNs && !IsIpAddress(host, env.pton) && (s.resolving > 0 || base in s.active) ==>
                  (r.phase == SimpleDoH || r.phase == Fallback)
                  && r.active == s.active && r.resolving == s.resolving && !r.addedToActiveSet)
            && (config.poolNs && !IsIpAddress(host, env.pton) && s.resolving <= 0 && base !in s.active ==>
                  (r.phase == NsLookup || r.phase == Fallback)
                  && r.active == s.active + {base} && r.resolving == s.resolving + 1 && r.addedToActiveSet)
  {
  }

  /**
   * A failed DoH answer in NS_LOOKUP: from the primary server the NS query
   * for the base domain goes to the fallback server; from the fallback
   * server the backend falls back to the system resolver. No third server
   * is asked.
   */
  lemma NsLookupFailureRetriesOnce(s: Backend, d: HttpData, env: Env)
    requires Valid(s) && s.phase == NsLookup && d.status != 200
    ensures var r := HttpDataStep(s, d, env);
            && (s.dohIndex == 0 ==>
                  r == StartNsLookupStep(s.(dohIndex := 1, actions := s.actions + [StopTimer]))
                  && r.dohIndex == 1
                  && (r.phase == NsLookup ==>
                        r.actions == s.actions + [StopTimer, DoHQuery(s.config.dohFallback, s.baseDomain, NS),
                                                  StartTimer(s.config.poolNsTimeout)]))
            && (s.dohIndex == 1 ==> r.phase == Fallback && r.dohIndex == 2)
  {
    var s1 := s.(actions := s.actions + [StopTimer]);
    assert HttpDataStep(s, d, env) == HttpFailureStep(s1, env);
  }

  /**
   * A failed DoH answer in SIMPLE_DOH: from the primary server the A query
   * for the host goes to the fallback server; from the fallback server the
   * backend falls back to the system resolver.
   */
  lemma SimpleDoHFailureRetriesOnce(s: Backend, d: HttpData, env: Env)
    requires Valid(s) && s.phase == SimpleDoH && d.status != 200
    ensures var r := HttpDataStep(s, d, env);
            && (s.dohIndex == 0 ==>
                  r == StartSimpleDoHStep(s.(dohIndex := 1, actions := s.actions + [StopTimer]))
                  && r.dohIndex == 1
                  && (r.phase == SimpleDoH ==>
                        r.actions == s.actions + [StopTimer, DoHQuery(s.config.dohFallback, s.host, A),
                                                  StartTimer(s.config.poolNsTimeout)]))
            && (s.dohIndex == 1 ==> r.phase == Fallback && r.dohIndex == 2)
  {
    var s1 := s.(actions := s.actions + [StopTimer]);
    assert HttpDataStep(s, d, env) == HttpFailureStep(s1, env);
  }

  /** A timeout of the NS lookup retries once with the fallback server, then falls back to the system resolver. */
  lemma LookupTimeoutRetriesOnce(s: Backend)
    requires Valid(s) && s.phase == NsLookup
    ensures var r := TimeoutStep(s);
            && (s.dohIndex == 0 ==> r == StartNsLookupStep(s.(dohIndex := 1)) && r.dohIndex == 1)
            && (s.dohIndex == 1 ==> r.phase == Fallback && r.dohIndex == 2)
  {
  }

  /**
   * `tryNextNs` always moves past the current name server; once none is
   * left it starts simple DoH from the primary server.
   */
  lemma TryNextNsMovesOn(s: Backend)
    ensures TryNextNsStep(s).nsIndex > s.nsIndex
    ensures s.nsIndex + 1 >= |s.nsServers| ==>
              TryNextNsStep(s) == StartSimpleDoHStep(s.(nsIndex := s.nsIndex + 1, poolQueryDoH := true, dohIndex := 0))
              && TryNextNsStep(s).dohIndex == 0
              && TryNextNsStep(s).nsIndex == s.nsIndex + 1
  {
  }

  /** No callback other than `resolve` moves the name-server index back. */
  lemma CallbacksKeepNsIndex(s: Backend, d: HttpData, success: bool, records: seq<Address>, status: int, env: Env)
    requires Valid(s)
    ensures HttpDataStep(s, d, env).nsIndex >= s.nsIndex
    ensures PoolDoHResponseStep(s, d, env).nsIndex >= s.nsIndex
    ensures TcpQueryCompleteStep(s, success, records, env).nsIndex >= s.nsIndex
    ensures TimeoutStep(s).nsIndex >= s.nsIndex
    ensures FallbackResolvedStep(s, records, status, env).nsIndex == s.nsIndex
  {
  }

  /**
   * Stale answers are ignored: an HTTP answer when idle or falling back
   * changes nothing, and a pool answer outside POOL_QUERY only stops the timer.
   */
  lemma StaleAnswersIgnored(s: Backend, d: HttpData, env: Env)
    requires Valid(s)
    ensures s.phase == Idle || s.phase == Fallback ==> HttpDataStep(s, d, env) == s
    ensures s.phase != PoolQuery ==> PoolDoHResponseStep(s, d, env) == s.(actions := s.actions + [StopTimer])
  {
  }

  /**
   * Records found by simple DoH are delivered, and a `resolve` at the same
   * instant is answered from the cache without a new lookup.
   */
  lemma SimpleDoHAnswerIsCached(s: Backend, body: seq<Byte>, env: Env, host: string, listener: ListenerId)
    requires Valid(s) && s.phase == SimpleDoH
    requires AddressRecords(body, DnsConfig.AiFamily(s.config), [], SkipWhenFull).ok
    ensures var r := HttpDataStep(s, HttpData(200, body, ""), env);
            && r.phase == Idle && r.queue == []
            && r.records == AddressRecords(body, DnsConfig.AiFamily(s.config), [], SkipWhenFull).items
            && ResolveStep(r, host, listener, r.config, env) == NotifyStep(r.(queue := [listener]), env.live)
  {
    var r := HttpDataStep(s, HttpData(200, body, ""), env);
    var parsed := AddressRecords(body, DnsConfig.AiFamily(s.config), [], SkipWhenFull);
    var s1 := s.(actions := s.actions + [StopTimer]);
    assert r == SimpleDoHDataStep(s1, body, env);
    assert r == NotifyStep(s1.(records := parsed.items, status := 0, ts := env.now, phase := Idle), env.live);
    assert r.ts == env.now && r.records == parsed.items != [] && r.queue == [];
    assert Elapsed(env.now, r.ts) == 0;
    assert r.(queue := r.queue + [listener], config := r.config) == r.(queue := [listener]);
  }

  // ------------------------------------------------------------------
  // The backend
  // ------------------------------------------------------------------

  /** The process-wide state the backends share: `s_activeBaseDomains` and `Dns::m_resolving`. */
  class ResolverGlobals {
    var activeBaseDomains: set<string>
    var resolving: int

    constructor ()
      ensures activeBaseDomains == {} && resolving == 0
    {
      activeBaseDomains, resolving := {}, 0;
    }
  }

  class DnsPoolNsBackend {
    const globals: ResolverGlobals
    var config: DnsConfig.Config
    var records: seq<Address>
    var status: int
    var phase: Phase
    var host: string
    var baseDomain: string
    var queue: seq<ListenerId>
    /** Whether `m_tcpClient` holds a client. */
    var tcpClient: bool
    var nsServers: seq<string>
    var nsEntries: seq<NsEntry>
    var nsIndex: nat
    var dohIndex: nat
    var ts: U64
    var poolQueryDoH: bool
    var addedToActiveSet: bool
    /** The requests made of the outside world so far. */
    var actions: seq<Action>

    function State(): Backend
      reads this, globals
    {
      Backend(config, records, status, phase, host, baseDomain, queue, tcpClient, nsServers, nsEntries,
              nsIndex, dohIndex, ts, poolQueryDoH, addedToActiveSet,
              globals.activeBaseDomains, globals.resolving, actions)
    }

    constructor (globals: ResolverGlobals)
      ensures this.globals == globals
      ensures State() == Initial(globals.activeBaseDomains, globals.resolving)
    {
      this.globals := globals;
      config, records, status, phase := DnsConfig.Default(), [], 0, Idle;
      host, baseDomain, queue, tcpClient := "", "", [], false;
      nsServers, nsEntries, nsIndex, dohIndex := [], [], 0, 0;
      ts, poolQueryDoH, addedToActiveSet, actions := 0, true, false, [];
    }

    method Resolve(host: string, listener: ListenerId, config: DnsConfig.Config, env: Env)
      requires Valid(State())
      modifies this, globals
      ensures State() == ResolveStep(old(State()), host, listener, config, env)
    {
      ghost var s0 := State();
      queue := queue + [listener];
      this.config := config;
      ghost var s1 := s0.(queue := s0.queue + [listener], config := config);
      assert State() == s1;
      if Elapsed(env.now, ts) <= DnsConfig.TtlMillis(config) && records != [] {
        Notify(env.live);
        return;
      }
      if phase != Idle {
        return;
      }
      Restart(host, env);
    }

    /** The fields `resolve` resets before it routes a new resolution. */
    method Reset(host: string, pton: AddressParser)
      modifies this
      ensures State() == ResetState(old(State()), host, pton)
    {
      ResetTarget(host, ExtractBaseDomain(host, pton));
      ResetNameservers();
      ResetFlags();
    }

    /** The host, its base domain and the status. */
    method ResetTarget(host: string, base: string)
      modifies this
      ensures State() == old(State()).(host := host, baseDomain := base, status := 0)
    {
      this.host, baseDomain, status := host, base, 0;
    }

    /** The nameserver list and entries, and both cursors. */
    method ResetNameservers()
      modifies this
      ensures State() == old(State()).(nsServers := [], nsEntries := [], nsIndex := 0, dohIndex := 0)
    {
      nsServers, nsEntries, nsIndex, dohIndex := [], [], 0, 0;
    }

    /** The DoH-first flag, the active-set flag and the TCP client. */
    method ResetFlags()
      modifies this
      ensures State() == old(State()).(poolQueryDoH := true, addedToActiveSet := false, tcpClient := false)
    {
      poolQueryDoH, addedToActiveSet, tcpClient := true, false, false;
    }

    /** The part of `resolve` that starts a new resolution of `host`. */
    method Restart(host: string, env: Env)
      modifies this, globals
      ensures State() == RestartStep(old(State()), host, env)
    {
      ghost var s0 := State();
      Reset(host, env.pton);
      ghost var s2 := State();
      if !config.poolNs || IsIpAddress(host, env.pton) {
        FallbackToSystem();
        return;
      }
      if globals.resolving > 0 || baseDomain in globals.activeBaseDomains {
        StartSimpleDoH();
        return;
      }
      globals.activeBaseDomains := globals.activeBaseDomains + {baseDomain};
      addedToActiveSet := true;
      globals.resolving := globals.resolving + 1;
      assert State() == s2.(active := s2.active + {baseDomain}, addedToActiveSet := true, resolving := s2.resolving + 1);
      StartNsLookup();
    }

    method OnHttpData(d: HttpData, env: Env)
      requires Valid(State())
      modifies this, globals
      ensures State() == HttpDataStep(old(State()), d, env)
    {
      if phase == Idle || phase == Fallback {
        return;
      }
      actions := actions + [StopTimer];
      if d.status != 200 {
        OnHttpFailure(env);
        return;
      }
      if phase == NsLookup {
        OnNsLookupData(d.body, env);
      } else if phase == NsResolve {
        OnNsResolveData(d.body, env);
      } else if phase == SimpleDoH {
        OnSimpleDoHData(d.body, env);
      }
    }

    /** The failed-status branch of `onHttpData`. */
    method OnHttpFailure(env: Env)
      requires Valid(State()) && phase != Idle && phase != Fallback
      modifies this, globals
      ensures State() == HttpFailureStep(old(State()), env)
    {
      ghost var s0 := State();
      if phase == NsLookup {
        dohIndex := dohIndex + 1;
        assert State() == s0.(dohIndex := s0.dohIndex + 1);
        if dohIndex < 2 {
          StartNsLookup();
          return;
        }
      }
      if phase == SimpleDoH {
        dohIndex := dohIndex + 1;
        assert State() == s0.(dohIndex := s0.dohIndex + 1);
        if dohIndex < 2 {
          StartSimpleDoH();
          return;
        }
      }
      if phase == NsResolve {
        StartPoolQueryTcp(env);
        return;
      }
      FallbackToSystem();
    }

    /** The NS_LOOKUP branch of `onHttpData`. */
    method OnNsLookupData(body: seq<Byte>, env: Env)
      requires Valid(State()) && phase == NsLookup
      modifies this, globals
      ensures State() == NsLookupDataStep(old(State()), body, env)
    {
      ghost var s0 := State();
      var ok, ns := ParseResponse(body, NS, [], env.ntop, SkipWhenFull);
      if ok {
        OnNsLookupComplete(ns);
      } else {
        dohIndex := dohIndex + 1;
        assert State() == s0.(dohIndex := s0.dohIndex + 1);
        if dohIndex < 2 {
          StartNsLookup();
        } else {
          FallbackToSystem();
        }
      }
    }

    /** The NS_RESOLVE branch of `onHttpData`. */
    method OnNsResolveData(body: seq<Byte>, env: Env)
      requires Valid(State()) && phase == NsResolve
      modifies this, globals
      ensures State() == NsResolveDataStep(old(State()), body, env)
    {
      var ok, ips := ParseResponse(body, A, [], env.ntop, SkipWhenFull);
      if ok && ips != [] {
        nsEntries := nsEntries + [NsEntry(nsServers[nsIndex], ips[0])];
        StartPoolQueryTcp(env);
      } else {
        TryNextNs();
      }
    }

    /** The SIMPLE_DOH branch of `onHttpData`. */
    method OnSimpleDoHData(body: seq<Byte>, env: Env)
      requires Valid(State()) && phase == SimpleDoH
      modifies this, globals
      ensures State() == SimpleDoHDataStep(old(State()), body, env)
    {
      ghost var s0 := State();
      var ok, found := ParseAddressRecords(body, DnsConfig.AiFamily(config), [], SkipWhenFull);
      if ok {
        records, status, ts, phase := found, 0, env.now, Idle;
        assert State() == s0.(records := found, status := 0, ts := env.now, phase := Idle);
        Notify(env.live);
      } else {
        dohIndex := dohIndex + 1;
        assert State() == s0.(dohIndex := s0.dohIndex + 1);
        if dohIndex < 2 {
          StartSimpleDoH();
        } else {
          FallbackToSystem();
        }
      }
    }

    method OnPoolDoHResponse(d: HttpData, env: Env)
      requires Valid(State())
      modifies this, globals
      ensures State() == PoolDoHResponseStep(old(State()), d, env)
    {
      ghost var s0 := State();
      actions := actions + [StopTimer];
      ghost var s1 := s0.(actions := s0.actions + [StopTimer]);
      assert State() == s1;
      if phase != PoolQuery {
        return;
      }
      if d.status != 200 {
        OnPoolFailure(d.ip, env);
        return;
      }
      OnPoolAnswer(d, env);
    }

    /** The status-200 branch of `onPoolDoHResponse`. */
    method OnPoolAnswer(d: HttpData, env: Env)
      requires nsIndex < |nsServers|
      modifies this, globals
      ensures State() == PoolAnswerStep(old(State()), d, env)
    {
      var ok, found := ParseAddressRecords(d.body, DnsConfig.AiFamily(config), [], SkipWhenFull);
      if ok {
        ghost var s0 := State();
        records, status, ts := found, 0, env.now;
        assert State() == s0.(records := found, status := 0, ts := env.now);
        OnPoolQueryComplete(true, env.live);
      } else {
        OnPoolFailure(d.ip, env);
      }
    }

    /** The two places of `onPoolDoHResponse` that try TCP to the peer, or else look up the name server's address. */
    method OnPoolFailure(ip: string, env: Env)
      requires nsIndex < |nsServers|
      modifies this, globals
      ensures State() == PoolFailureStep(old(State()), ip, env)
    {
      var tried := TryTcpWithCachedIp(ip, env);
      if !tried {
        StartNsResolve();
      }
    }

    method StartSimpleDoH()
      modifies this, globals
      ensures State() == StartSimpleDoHStep(old(State()))
    {
      var server := DoHServer(State());
      phase := SimpleDoH;
      if NameEncoding(host).None? {
        FallbackToSystem();
        return;
      }
      actions := actions + [DoHQuery(server, host, A), StartTimer(config.poolNsTimeout)];
    }

    method StartNsLookup()
      modifies this, globals
      ensures State() == StartNsLookupStep(old(State()))
    {
      var server := DoHServer(State());
      phase := NsLookup;
      if NameEncoding(baseDomain).None? {
        FallbackToSystem();
        return;
      }
      actions := actions + [DoHQuery(server, baseDomain, NS), StartTimer(config.poolNsTimeout)];
    }

    method OnNsLookupComplete(ns: seq<string>)
      modifies this, globals
      ensures State() == NsLookupCompleteStep(old(State()), ns)
    {
      if ns == [] {
        FallbackToSimpleDoH();
        return;
      }
      nsServers := ns;
      StartPoolQuery();
    }

    method StartNsResolve()
      modifies this, globals
      ensures State() == StartNsResolveStep(old(State()))
      decreases Remaining(State()), 1
    {
      if nsIndex >= |nsServers| {
        FallbackToSystem();
        return;
      }
      phase := NsResolve;
      var nsHost := nsServers[nsIndex];
      if NameEncoding(nsHost).None? {
        TryNextNs();
        return;
      }
      var server := DoHServer(State());
      actions := actions + [DoHQuery(server, nsHost, A), StartTimer(config.poolNsTimeout)];
    }

    method StartPoolQuery()
      modifies this, globals
      ensures State() == StartPoolQueryStep(old(State()))
      decreases Remaining(State()), 3
    {
      if nsIndex >= |nsServers| {
        FallbackToSystem();
        return;
      }
      phase := PoolQuery;
      poolQueryDoH := true;
      StartPoolQueryDoH(nsServers[nsIndex]);
    }

    method StartPoolQueryDoH(nsHost: string)
      modifies this, globals
      ensures State() == StartPoolQueryDoHStep(old(State()), nsHost)
      decreases Remaining(State()), 2
    {
      if NameEncoding(host).None? {
        StartNsResolve();
        return;
      }
      actions := actions + [NsQuery(nsHost, host), StartTimer(config.poolNsTimeout)];
    }

    method StartPoolQueryTcp(env: Env)
      modifies this, globals
      ensures State() == StartPoolQueryTcpStep(old(State()), env)
      decreases Remaining(State()), 1
    {
      if nsEntries == [] {
        TryNextNs();
        return;
      }
      ghost var s0 := State();
      var ip := nsEntries[|nsEntries| - 1].ip;
      phase, poolQueryDoH, actions := PoolQuery, false, actions + [StopTimer];
      assert State() == s0.(phase := PoolQuery, poolQueryDoH := false, actions := s0.actions + [StopTimer]);
      var family := if ':' in ip then Inet6 else Inet;
      if !env.pton(family, ip) {
        TryNextNs();
        return;
      }
      tcpClient := true;
      actions := actions + [TcpQuery(ip, host, DnsConfig.AiFamily(config), config.poolNsTimeout)];
    }

    method OnTcpQueryComplete(success: bool, found: seq<Address>, env: Env)
      requires Valid(State())
      modifies this, globals
      ensures State() == TcpQueryCompleteStep(old(State()), success, found, env)
    {
      ghost var s0 := State();
      if success && found != [] {
        records, status, ts := found, 0, env.now;
        tcpClient := false;
        assert State() == s0.(records := found, status := 0, ts := env.now, tcpClient := false);
        OnPoolQueryComplete(true, env.live);
        return;
      }
      tcpClient := false;
      assert State() == s0.(tcpClient := false);
      TryNextNs();
    }

    method OnPoolQueryComplete(success: bool, live: set<ListenerId>)
      modifies this, globals
      ensures State() == PoolQueryCompleteStep(old(State()), success, live)
    {
      if !success {
        FallbackToSystem();
        return;
      }
      phase := Idle;
      Notify(live);
    }

    method TryNextNs()
      modifies this, globals
      ensures State() == TryNextNsStep(old(State()))
      decreases Remaining(State()), 0
    {
      ghost var s0 := State();
      nsIndex, poolQueryDoH := nsIndex + 1, true;
      ghost var s1 := s0.(nsIndex := s0.nsIndex + 1, poolQueryDoH := true);
      assert State() == s1;
      if nsIndex < |nsServers| {
        StartPoolQuery();
      } else {
        FallbackToSimpleDoH();
      }
    }

    /** `tryTcpWithCachedIp`: false, changing nothing, when the answer carries no peer address. */
    method TryTcpWithCachedIp(ip: string, env: Env) returns (tried: bool)
      requires nsIndex < |nsServers|
      modifies this, globals
      ensures tried <==> ip != []
      ensures tried ==> State() == PoolFailureStep(old(State()), ip, env)
      ensures !tried ==> State() == old(State())
    {
      if ip == [] {
        return false;
      }
      nsEntries := nsEntries + [NsEntry(nsServers[nsIndex], ip)];
      StartPoolQueryTcp(env);
      return true;
    }

    method FallbackToSimpleDoH()
      modifies this, globals
      ensures State() == FallbackToSimpleDoHStep(old(State()))
    {
      ghost var s0 := State();
      dohIndex := 0;
      assert State() == s0.(dohIndex := 0);
      StartSimpleDoH();
    }

    method FallbackToSystem()
      modifies this, globals
      ensures State() == FallbackToSystemStep(old(State()))
    {
      phase := Fallback;
      actions := actions + [StopTimer, SystemResolve(host, config)];
    }

    /** The system resolver's answer, through the fallback listener. */
    method OnFallbackResolved(found: seq<Address>, status: int, env: Env)
      requires Valid(State())
      modifies this, globals
      ensures State() == FallbackResolvedStep(old(State()), found, status, env)
    {
      ghost var s0 := State();
      records, this.status, ts, phase := found, status, env.now, Idle;
      assert State() == s0.(records := found, status := status, ts := env.now, phase := Idle);
      Notify(env.live);
    }

    method Notify(live: set<ListenerId>)
      modifies this, globals
      ensures State() == NotifyStep(old(State()), live)
    {
      if addedToActiveSet {
        globals.activeBaseDomains := globals.activeBaseDomains - {baseDomain};
        globals.resolving := globals.resolving - 1;
        addedToActiveSet := false;
      }
      var calls := DeliverAll(queue, live, records, status);
      actions, queue := actions + calls, [];
    }

    method OnTimeout()
      requires Valid(State())
      modifies this, globals
      ensures State() == TimeoutStep(old(State()))
    {
      ghost var s0 := State();
      if phase == NsLookup {
        dohIndex := dohIndex + 1;
        assert State() == s0.(dohIndex := s0.dohIndex + 1);
        if dohIndex < 2 {
          StartNsLookup();
          return;
        }
      }
      if phase == NsResolve {
        TryNextNs();
        return;
      }
      if phase == PoolQuery {
        if poolQueryDoH {
          StartNsResolve();
          return;
        }
        TryNextNs();
        return;
      }
      FallbackToSystem();
    }
  }
}
