/** What the resolver's server list and its cache say, for the usual ways to write a server and for any time. */
module DnsLaws {
  import opened Seqs
  import opened Text
  import opened TextLaws
  import opened DnsCache

  predicate Bare(s: string) { ':' !in s && '[' !in s && ']' !in s }

  lemma TrimmedServer(s: string)
    requires NoSpaceEnds(s)
    ensures TrimSpace(s) == s
  {
  }

  lemma {:induction false} LastIndexIs(s: string, c: char, k: nat)
    requires k < |s| && s[k] == c && forall i | k < i < |s| :: s[i] != c
    ensures LastIndex(s, c) == k
  {
    if k < |s| - 1 {
      LastIndexIs(s[..|s| - 1], c, k);
    }
  }

  lemma {:induction false} FirstIndexIs(s: string, c: char, k: nat)
    requires k < |s| && s[k] == c && forall i | 0 <= i < k :: s[i] != c
    ensures FirstIndex(s, c) == k
  {
    if k > 0 {
      FirstIndexIs(s[1..], c, k - 1);
    }
  }

  lemma LastColon(a: string, b: string)
    requires ':' !in b
    ensures LastIndex(a + ":" + b, ':') == |a|
  {
    LastIndexIs(a + ":" + b, ':', |a|);
  }

  /** A host with a port is kept. */
  lemma PortIsKept(host: string, port: string)
    requires Bare(host) && Bare(port) && NoSpaceEnds(host + ":" + port)
    ensures Server(host + ":" + port) == host + ":" + port
  {
    var s := host + ":" + port;
    TrimmedServer(s);
    LastColon(host, port);
    assert s[|host|] == ':' && s[..|host|] == host;
    assert '[' !in s && ']' !in s;
  }

  lemma BracketedHasPort(s: string, k: nat)
    requires 0 < k < |s| - 1 && s[0] == '[' && s[k] == ']' && s[k + 1] == ':'
    requires (forall i | 1 <= i < |s| :: s[i] != '[') && forall i | 1 <= i < |s| && i != k :: s[i] != ']'
    requires forall i | k + 1 < i < |s| :: s[i] != ':'
    ensures HasPort(s)
  {
    LastIndexIs(s, ':', k + 1);
    FirstIndexIs(s, ']', k);
    assert '[' !in s[1..] && ']' !in s[k + 1..];
  }

  /** So is an address in brackets with a port. */
  lemma BracketedPortIsKept(address: string, port: string)
    requires '[' !in address && ']' !in address && Bare(port) && NoSpaceEnds("[" + address + "]:" + port)
    ensures Server("[" + address + "]:" + port) == "[" + address + "]:" + port
  {
    var s := "[" + address + "]:" + port;
    TrimmedServer(s);
    BracketedHasPort(s, |address| + 1);
  }

  /** A bare host gets port 53. */
  lemma HostGetsPort(host: string)
    requires Bare(host) && host != "" && NoSpaceEnds(host)
    ensures Server(host) == host + ":53"
  {
    TrimmedServer(host);
  }

  /** A bare address with colons goes into brackets first. */
  lemma AddressGetsBrackets(a: string, b: string, c: string)
    requires '[' !in a && '[' !in b && ']' !in a && ']' !in b && Bare(c)
    requires NoSpaceEnds(a + ":" + b + ":" + c)
    ensures Server(a + ":" + b + ":" + c) == "[" + (a + ":" + b + ":" + c) + "]:53"
  {
    var s := a + ":" + b + ":" + c;
    TrimmedServer(s);
    LastColon(a + ":" + b, c);
    assert s[..|a + ":" + b|] == a + ":" + b && (a + ":" + b)[|a|] == ':';
    assert s[|a|] == ':' && s[0] in s && '[' !in s;
  }

  /** Spaces around a server make no difference, and nothing but spaces names none. */
  lemma SpacesAreDropped(a: string, s: string, b: string)
    requires Spaces(a) && Spaces(b) && NoSpaceEnds(s)
    ensures Server(a + s + b) == Server(s) && (Server(s) == "" <==> s == "")
  {
    TrimSpaceCuts(a, s, b);
    TrimmedServer(s);
  }

  /** An answer is given again, marked as cached, until 300 seconds after it was stored and no longer; whatever the
      configuration and the host are, and however the host is written. */
  lemma AnswersLast(events: seq<Event>, cfg: Config, host: string, ips: seq<string>, source: string, stored: int,
                    again: string, now: int)
    requires HostOf(again) == HostOf(host)
    ensures Lookup(After(events + [Store(cfg, host, ips, source, stored)]), CacheKey(cfg, HostOf(again)), now)
            == if now < stored + 300_000 then Some((ips, "dns_cached_" + source)) else None
  {
    AfterOneMore(events, Store(cfg, host, ips, source, stored));
  }

  /** Capitals and spaces around a host make no difference. */
  lemma HostIsNormalized(a: string, h: string, b: string)
    requires Spaces(a) && Spaces(b) && NoSpaceEnds(h)
    ensures HostOf(a + h + b) == ToLower(h)
  {
    TrimSpaceCuts(a, h, b);
  }

  lemma OneMore(servers: seq<string>, s: string)
    ensures Normalized(servers) <= Normalized(servers + [s])
  {
    assert (servers + [s])[..|servers|] == servers;
  }

  lemma LastOf(servers: seq<string>, more: seq<string>)
    requires more != []
    ensures var n := |more| - 1; (servers + more[..n]) + [more[n]] == servers + more
  {
  }

  lemma Prefixes(a: seq<string>, b: seq<string>, c: seq<string>)
    requires a <= b <= c
    ensures a <= c
  {
  }

  /** The servers keep the order in which they are first named. */
  lemma {:induction false} FirstNamedFirst(servers: seq<string>, more: seq<string>)
    ensures Normalized(servers) <= Normalized(servers + more)
  {
    if more == [] {
      assert servers + more == servers;
    } else {
      var n := |more| - 1;
      FirstNamedFirst(servers, more[..n]);
      OneMore(servers + more[..n], more[n]);
      LastOf(servers, more);
      Prefixes(Normalized(servers), Normalized(servers + more[..n]), Normalized((servers + more[..n]) + [more[n]]));
    }
  }
}
