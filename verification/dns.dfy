/**
 * `Dns::resolve`: the process-wide map from host names to resolver
 * backends. A host gets a backend on its first resolve and keeps it; every
 * resolve is then handed to the host's backend together with the global
 * configuration. The backends are modelled by their kind, and the call
 * handed to a backend is recorded in `dispatched` (the pool-nameserver
 * backend's own `resolve` is `DnsPoolNs.DnsPoolNsBackend.Resolve`).
 * Whether the program was built with TLS support is the constant `tls`;
 * `uv_inet_pton` is a parameter.
 */
module Dns {
  import opened Common
  import DnsConfig
  import opened DomainUtils

  /** `DnsPoolNsBackend` or `DnsUvBackend` (the system resolver). */
  datatype BackendKind = PoolNsBackend | UvBackend

  /** One `resolve(host, req, config)` call made on a stored backend. */
  datatype Dispatch = Dispatch(host: string, kind: BackendKind, config: DnsConfig.Config)

  /**
   * The backend a host without an entry gets: the pool-nameserver backend
   * when TLS is built in, pool-ns is on, and the host is neither an address
   * literal nor one of the two DoH servers; the system resolver otherwise.
   */
  function ChooseBackend(tls: bool, config: DnsConfig.Config, host: string, pton: AddressParser): BackendKind
  {
    if tls && config.poolNs && !IsIpAddress(host, pton) && !DnsConfig.IsDoHServer(config, host)
    then PoolNsBackend
    else UvBackend
  }

  /**
   * The map after `resolve(host)`: an existing entry is kept as it is, a
   * missing one is created by `ChooseBackend`, and no other host's entry
   * changes.
   */
  function WithBackend(backends: map<string, BackendKind>, tls: bool, config: DnsConfig.Config,
                       host: string, pton: AddressParser): (r: map<string, BackendKind>)
    ensures host in r && r.Keys == backends.Keys + {host}
    ensures host in backends ==> r == backends
    ensures host !in backends ==> r[host] == ChooseBackend(tls, config, host, pton)
    ensures forall h :: h in backends && h != host ==> h in r && r[h] == backends[h]
  {
    if host in backends then backends else backends[host := ChooseBackend(tls, config, host, pton)]
  }

  /** The pool-nameserver backend is chosen exactly when all four conditions hold. */
  lemma PoolNsBackendExactly(tls: bool, config: DnsConfig.Config, host: string, pton: AddressParser)
    ensures ChooseBackend(tls, config, host, pton) == PoolNsBackend
            <==> tls && config.poolNs && !(host != [] && (pton(Inet, host) || pton(Inet6, host)))
                 && host != config.dohPrimary && host != config.dohFallback
  {
  }

  /**
   * The two DoH servers, which the pool-nameserver backend itself asks, are
   * always resolved by the system resolver, whatever the other settings.
   */
  lemma DoHServersUseSystemResolver(tls: bool, config: DnsConfig.Config, pton: AddressParser)
    ensures ChooseBackend(tls, config, config.dohPrimary, pton) == UvBackend
    ensures ChooseBackend(tls, config, config.dohFallback, pton) == UvBackend
  {
  }

  /**
   * The first choice sticks: once a host has an entry, later resolves keep
   * it, even under another configuration or build flag.
   */
  lemma FirstChoiceSticks(backends: map<string, BackendKind>, tls: bool, config: DnsConfig.Config,
                          tls': bool, config': DnsConfig.Config, host: string, pton: AddressParser)
    ensures var once := WithBackend(backends, tls, config, host, pton);
            WithBackend(once, tls', config', host, pton) == once
  {
  }

  /** The static members of `Dns` that `resolve` uses. */
  class Resolver {
    const tls: bool
    var config: DnsConfig.Config
    var backends: map<string, BackendKind>
    var dispatched: seq<Dispatch>

    /** No backends and no calls yet. */
    constructor(tls: bool, config: DnsConfig.Config)
      ensures this.tls == tls && this.config == config
      ensures backends == map[] && dispatched == []
    {
      this.tls, this.config := tls, config;
      backends, dispatched := map[], [];
    }

    /**
     * `resolve(host)`: make sure the host has a backend, then hand the
     * request to that backend with the global configuration.
     */
    method Resolve(host: string, pton: AddressParser) returns (kind: BackendKind)
      modifies this
      ensures backends == WithBackend(old(backends), tls, config, host, pton)
      ensures kind == backends[host]
      ensures dispatched == old(dispatched) + [Dispatch(host, kind, config)]
      ensures config == old(config)
    {
      if host !in backends {
        if tls && config.poolNs && !IsIpAddress(host, pton) && !DnsConfig.IsDoHServer(config, host) {
          backends := backends[host := PoolNsBackend];
        } else {
          backends := backends[host := UvBackend];
        }
      }
      kind := backends[host];
      dispatched := dispatched + [Dispatch(host, kind, config)];
    }
  }
}
