/**
 * `DomainUtils`: the base domain under which the pool-nameserver backend
 * groups hosts, and the test for address literals. `uv_inet_pton` is a
 * parameter. Host strings are C strings, so they hold no NUL and `%s`
 * copies a whole part.
 */
module DomainUtils {
  import opened Common
  import opened Strings

  /** `snprintf` into `char buf[256]` keeps at most this many characters. */
  const MaxBaseDomain: nat := 255

  /** `isIpAddress`: a non-empty host that parses as an IPv4 or an IPv6 address. */
  predicate IsIpAddress(host: string, pton: AddressParser)
  {
    host != [] && (pton(Inet, host) || pton(Inet6, host))
  }

  /** The last two dot-separated parts of `host`, joined by one dot. */
  function LastTwoParts(host: string): string
    requires |Split(host, '.')| >= 2
  {
    var parts := Split(host, '.');
    parts[|parts| - 2] + "." + parts[|parts| - 1]
  }

  /**
   * `extractBaseDomain`: an empty host, an address literal or a host of at
   * most two parts is its own base domain; otherwise the last two parts,
   * cut to what the buffer holds.
   */
  function ExtractBaseDomain(host: string, pton: AddressParser): string
  {
    if host == [] || IsIpAddress(host, pton) then host
    else if |Split(host, '.')| <= 2 then host
    else Truncate(LastTwoParts(host), MaxBaseDomain)
  }

  /** `b` ends `s`. */
  predicate IsSuffix(b: string, s: string)
  {
    |b| <= |s| && s[|s| - |b|..] == b
  }

  /** The hosts that are their own base domain: empty, address literals, and at most two parts. */
  lemma BaseDomainKeeps(host: string, pton: AddressParser)
    ensures host == [] ==> ExtractBaseDomain(host, pton) == host
    ensures pton(Inet, host) || pton(Inet6, host) ==> ExtractBaseDomain(host, pton) == host
    ensures |Split(host, '.')| <= 2 ==> ExtractBaseDomain(host, pton) == host
  {
  }

  /** The last two parts, joined by a dot, are how the host ends. */
  lemma LastTwoPartsEndHost(host: string)
    requires |Split(host, '.')| >= 2
    ensures IsSuffix(LastTwoParts(host), host)
  {
    var parts := Split(host, '.');
    var n := |parts|;
    JoinSplit(host, '.');
    assert Join(parts[n - 2..], '.') == LastTwoParts(host) by {
      assert parts[n - 2..][1..] == [parts[n - 1]];
    }
    if n > 2 {
      JoinSplitAt(parts, '.', n - 2);
    } else {
      assert parts[n - 2..] == parts;
    }
  }

  /**
   * A host of more than two parts yields its last two parts, one dot between
   * them, at most 255 characters; below that cap the base domain is a
   * suffix of the host, and at the cap it is the start of that suffix.
   */
  lemma BaseDomainOfLongHost(host: string, pton: AddressParser)
    requires host != [] && !IsIpAddress(host, pton) && |Split(host, '.')| > 2
    ensures var base := ExtractBaseDomain(host, pton);
            var parts := Split(host, '.');
            && base == Truncate(parts[|parts| - 2] + "." + parts[|parts| - 1], MaxBaseDomain)
            && |base| <= MaxBaseDomain
            && (|base| < MaxBaseDomain ==> IsSuffix(base, host))
            && IsSuffix(LastTwoParts(host), host) && base <= LastTwoParts(host)
  {
    LastTwoPartsEndHost(host);
  }

  /** A text with no dot splits into itself alone. */
  lemma SplitDotless(s: string)
    requires '.' !in s
    ensures Split(s, '.') == [s]
  {
    SplitJoin([s], '.');
  }

  /** Two dotless texts joined by one dot split back into the two. */
  lemma SplitTwo(a: string, b: string)
    requires '.' !in a && '.' !in b
    ensures Split(a + "." + b, '.') == [a, b]
  {
    assert Join([a, b], '.') == a + "." + b by {
      assert [a, b][1..] == [b];
    }
    SplitJoin([a, b], '.');
  }

  /** A base domain is its own base domain. */
  lemma BaseDomainIdempotent(host: string, pton: AddressParser)
    ensures ExtractBaseDomain(ExtractBaseDomain(host, pton), pton) == ExtractBaseDomain(host, pton)
  {
    var base := ExtractBaseDomain(host, pton);
    if base != host {
      var parts := Split(host, '.');
      var a, b := parts[|parts| - 2], parts[|parts| - 1];
      var joined := a + "." + b;
      assert base == Truncate(joined, MaxBaseDomain);
      assert '.' !in a && '.' !in b;
      if |joined| <= MaxBaseDomain {
        SplitTwo(a, b);
      } else if |a| >= MaxBaseDomain {
        assert base == a[..MaxBaseDomain];
        assert '.' !in base by {
          forall i | 0 <= i < |base| ensures base[i] != '.' {
            assert base[i] == a[i];
          }
        }
        SplitDotless(base);
      } else {
        var b' := b[..MaxBaseDomain - |a| - 1];
        assert base == a + "." + b';
        assert '.' !in b' by {
          forall i | 0 <= i < |b'| ensures b'[i] != '.' {
            assert b'[i] == b[i];
          }
        }
        SplitTwo(a, b');
      }
    }
  }
}
