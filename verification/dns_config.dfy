/**
 * `DnsConfig`: the "dns" section of the configuration. A JSON object is
 * modelled as a map from member names to values; `Json::getUint`,
 * `Json::getBool` and `Json::getString` are not part of this model and are
 * taken to return the member when it is present with the right type, and
 * the given default otherwise.
 */
module DnsConfig {
  import opened Common

  /** The JSON values the section can hold; `JOther` stands for arrays, objects and fractions. */
  datatype Json = JNull | JBool(b: bool) | JInt(n: int) | JString(s: string) | JOther

  type JsonObject = map<string, Json>

  const KeyIPv := "ip_version"
  const KeyTTL := "ttl"
  const KeyPoolNs := "pool-ns"
  const KeyPoolNsTimeout := "pool-ns-timeout"
  const KeyDoHPrimary := "doh-primary"
  const KeyDoHFallback := "doh-fallback"

  const DefaultDoHPrimary := "dns.google"
  const DefaultDoHFallback := "dns.nextdns.io"

  /** The six stored fields: TTL in seconds, IP version, pool-ns switch and timeout, the two DoH hosts. */
  datatype Config = Config(ttl: U32, ipv: U32, poolNs: bool, poolNsTimeout: U32,
                           dohPrimary: string, dohFallback: string)

  /** The member initialisers: TTL 30 s, any IP version, pool-ns on with a 1000 ms timeout. */
  function Default(): (c: Config)
    ensures c.ttl == 30 && c.ipv == 0 && c.poolNs && c.poolNsTimeout == 1000
    ensures c.dohPrimary == DefaultDoHPrimary && c.dohFallback == DefaultDoHFallback
  {
    Config(30, 0, true, 1000, DefaultDoHPrimary, DefaultDoHFallback)
  }

  function GetUint(obj: JsonObject, key: string, default: U32): (v: U32)
    ensures key in obj && obj[key].JInt? && 0 <= obj[key].n < 0x1_0000_0000 ==> v == obj[key].n
    ensures !(key in obj && obj[key].JInt? && 0 <= obj[key].n < 0x1_0000_0000) ==> v == default
  {
    if key in obj && obj[key].JInt? && 0 <= obj[key].n < 0x1_0000_0000 then obj[key].n else default
  }

  function GetBool(obj: JsonObject, key: string, default: bool): (v: bool)
    ensures key in obj && obj[key].JBool? ==> v == obj[key].b
    ensures !(key in obj && obj[key].JBool?) ==> v == default
  {
    if key in obj && obj[key].JBool? then obj[key].b else default
  }

  function GetString(obj: JsonObject, key: string, default: string): (v: string)
    ensures key in obj && obj[key].JString? ==> v == obj[key].s
    ensures !(key in obj && obj[key].JString?) ==> v == default
  {
    if key in obj && obj[key].JString? then obj[key].s else default
  }

  /** The IP versions the constructor accepts. */
  predicate KnownIPv(ipv: int)
  {
    ipv == 0 || ipv == 4 || ipv == 6
  }

  /**
   * `DnsConfig(value)`: each field starts at its default; `ip_version` is
   * taken only when it is 0, 4 or 6, the TTL is raised to at least 1, and
   * the other fields are taken as given.
   */
  function FromJson(obj: JsonObject): Config
  {
    var d := Default();
    var ipv := GetUint(obj, KeyIPv, d.ipv);
    Config(if RawTtl(obj) < 1 then 1 else RawTtl(obj),
           if KnownIPv(ipv) then ipv else d.ipv,
           GetBool(obj, KeyPoolNs, d.poolNs),
           GetUint(obj, KeyPoolNsTimeout, d.poolNsTimeout),
           GetString(obj, KeyDoHPrimary, DefaultDoHPrimary),
           GetString(obj, KeyDoHFallback, DefaultDoHFallback))
  }

  function RawTtl(obj: JsonObject): U32
  {
    GetUint(obj, KeyTTL, Default().ttl)
  }

  /** The configurations the constructor can produce. */
  predicate Valid(c: Config)
  {
    c.ttl >= 1 && KnownIPv(c.ipv)
  }

  /** What the constructor stores: a known IP version, a TTL of at least 1, defaults for absent members. */
  lemma FromJsonFields(obj: JsonObject)
    ensures var c := FromJson(obj);
            && Valid(c)
            && (KeyIPv in obj && obj[KeyIPv].JInt? && KnownIPv(obj[KeyIPv].n) ==> c.ipv == obj[KeyIPv].n)
            && (!(KeyIPv in obj && obj[KeyIPv].JInt? && KnownIPv(obj[KeyIPv].n)) ==> c.ipv == Default().ipv)
            && (KeyTTL in obj && obj[KeyTTL].JInt? && 1 <= obj[KeyTTL].n < 0x1_0000_0000 ==> c.ttl == obj[KeyTTL].n)
            && (KeyPoolNs !in obj ==> c.poolNs == Default().poolNs)
            && (KeyPoolNsTimeout !in obj ==> c.poolNsTimeout == Default().poolNsTimeout)
            && (KeyDoHPrimary !in obj ==> c.dohPrimary == DefaultDoHPrimary)
            && (KeyDoHFallback !in obj ==> c.dohFallback == DefaultDoHFallback)
  {
  }

  /** An empty section gives the defaults. */
  lemma EmptyGivesDefault()
    ensures FromJson(map[]) == Default()
  {
  }

  /** `ai_family`: AF_INET for version 4, AF_INET6 for 6, AF_UNSPEC otherwise. */
  function AiFamily(c: Config): (f: Family)
    ensures f == Inet <==> c.ipv == 4
    ensures f == Inet6 <==> c.ipv == 6
    ensures f == Unspec <==> c.ipv != 4 && c.ipv != 6
  {
    if c.ipv == 4 then Inet else if c.ipv == 6 then Inet6 else Unspec
  }

  /** `isDoHServer(host)`: the host is one of the two DoH servers. */
  function IsDoHServer(c: Config, host: string): (b: bool)
    ensures b <==> host == c.dohPrimary || host == c.dohFallback
  {
    host == c.dohPrimary || host == c.dohFallback
  }

  /**
   * `ttl()`: the stored seconds times 1000 as a `uint32_t`, so it wraps
   * modulo 2^32.
   */
  function TtlMillis(c: Config): (ms: U32)
    ensures c.ttl <= 4294967 ==> ms == c.ttl * 1000
    ensures c.ttl > 4294967 ==> ms < c.ttl * 1000
  {
    (c.ttl * 1000) % 0x1_0000_0000
  }

  /** The accessor wraps for every stored TTL above 4294967 seconds: 4294968 s gives 704 ms. */
  lemma TtlWraps()
    ensures TtlMillis(Default().(ttl := 4294968)) == 704
    ensures TtlMillis(Default().(ttl := 4294967)) == 4294967000
  {
  }

  /** `toJSON`: exactly the six stored fields, the TTL in seconds. */
  function ToJson(c: Config): (obj: JsonObject)
    ensures obj.Keys == {KeyIPv, KeyTTL, KeyPoolNs, KeyPoolNsTimeout, KeyDoHPrimary, KeyDoHFallback}
  {
    map[KeyIPv := JInt(c.ipv), KeyTTL := JInt(c.ttl), KeyPoolNs := JBool(c.poolNs),
        KeyPoolNsTimeout := JInt(c.poolNsTimeout), KeyDoHPrimary := JString(c.dohPrimary),
        KeyDoHFallback := JString(c.dohFallback)]
  }

  /** Reading back what `toJSON` writes gives the same configuration, for every configuration the constructor makes. */
  lemma JsonRoundTrip(c: Config)
    requires Valid(c)
    ensures FromJson(ToJson(c)) == c
  {
  }

  /** Without the constructor's checks, a stored TTL of 0 does not survive the round trip. */
  lemma JsonRoundTripNeedsValid()
    ensures FromJson(ToJson(Default().(ttl := 0))).ttl == 1
  {
  }
}
