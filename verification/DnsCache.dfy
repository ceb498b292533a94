/** The resolver's in-process cache: one string-keyed map that stands for a map from
    (mode, servers, host). */
module DnsCache {
  import opened Seqs
  import opened Text

  const TTL: int := 300_000   // milliseconds

  datatype Entry = Entry(ips: seq<string>, source: string, expires: int)

  datatype Config = Config(mode: string, servers: seq<string>)

  // ------------------------------------------------------------ server lists

  /** net.SplitHostPort succeeds. */
  predicate HasPort(s: string)
  {
    if ':' !in s then false
    else
      var colon := LastIndex(s, ':');
      if s[0] == '[' then
        ']' in s && FirstIndex(s, ']') + 1 == colon && '[' !in s[1..] && ']' !in s[colon..]
      else
        ':' !in s[..colon] && '[' !in s && ']' !in s
  }

  function FirstIndex(s: string, c: char): (i: nat)
    requires c in s
    ensures i < |s| && s[i] == c && c !in s[..i]
  {
    if s[0] == c then 0 else 1 + FirstIndex(s[1..], c)
  }

  function LastIndex(s: string, c: char): (i: nat)
    requires c in s
    ensures i < |s| && s[i] == c && c !in s[i + 1..]
  {
    if s[|s| - 1] == c then |s| - 1 else LastIndex(s[..|s| - 1], c)
  }

  /** net.JoinHostPort(s, "53") */
  function WithPort53(s: string): string
  {
    if ':' in s then "[" + s + "]:53" else s + ":53"
  }

  function Server(s: string): string
  {
    var t := TrimSpace(s);
    if t == "" || HasPort(t) then t else WithPort53(t)
  }

  function Normalized(servers: seq<string>): seq<string>
  {
    if servers == [] then []
    else
      var front := Normalized(servers[..|servers| - 1]);
      var s := Server(servers[|servers| - 1]);
      if s == "" || s in front then front else front + [s]
  }

  method NormalizeServers(servers: seq<string>) returns (out: seq<string>)
    ensures out == Normalized(servers)
  {
    out := [];
    var seen: set<string> := {};
    var i := 0;
    while i < |servers|
      invariant 0 <= i <= |servers|
      invariant out == Normalized(servers[..i])
      invariant forall s :: s in seen <==> s in out
    {
      assert servers[..i + 1][..i] == servers[..i];
      var s := TrimSpace(servers[i]);
      i := i + 1;
      if s != "" {
        if !HasPort(s) {
          s := WithPort53(s);
        }
        if s !in seen {
          seen := seen + {s};
          out := out + [s];
        }
      }
    }
    assert servers[..|servers|] == servers;
  }

  function NamesOf(servers: seq<string>): (names: seq<string>)
    ensures |names| == |servers| && forall i | 0 <= i < |servers| :: names[i] == Server(servers[i])
  {
    seq(|servers|, i requires 0 <= i < |servers| => Server(servers[i]))
  }

  lemma NamesOfStep(servers: seq<string>)
    requires servers != []
    ensures var n := |servers| - 1; NamesOf(servers) == NamesOf(servers[..n]) + [Server(servers[n])]
  {
  }

  /** The list is the set of the named servers, each once. */
  lemma {:induction false} NormalizedIsTheSet(servers: seq<string>)
    ensures Distinct(Normalized(servers)) && "" !in Normalized(servers)
    ensures forall s :: s in Normalized(servers) <==> s != "" && s in NamesOf(servers)
  {
    if servers != [] {
      NamesOfStep(servers);
      NormalizedIsTheSet(servers[..|servers| - 1]);
    }
  }

  // ------------------------------------------------------------ keys

  function Join(xs: seq<string>): string
  {
    if xs == [] then "" else if |xs| == 1 then xs[0] else xs[0] + "," + Join(xs[1..])
  }

  function KeyOf(mode: string, servers: seq<string>, host: string): string
  {
    mode + "|" + Join(servers) + "|" + host
  }

  function HostOf(host: string): string { ToLower(TrimSpace(host)) }

  function CacheKey(cfg: Config, host: string): string
  {
    KeyOf(cfg.mode, Normalized(cfg.servers), host)
  }

  predicate HasSuffix(s: string, t: string)
  {
    |t| <= |s| && s[|s| - |t|..] == t
  }

  /** Names, none of them empty; a name may hold commas. */
  predicate Named(servers: seq<string>)
  {
    forall i | 0 <= i < |servers| :: servers[i] != ""
  }

  /** The pieces between the commas. */
  function Split(s: string): (pieces: seq<string>)
    ensures pieces != []
  {
    if s == "" then [""]
    else
      var rest := Split(s[1..]);
      if s[0] == ',' then [""] + rest else [[s[0]] + rest[0]] + rest[1..]
  }

  /** All pieces of all names, in order. */
  function Pieces(servers: seq<string>): seq<string>
  {
    if servers == [] then [] else Split(servers[0]) + Pieces(servers[1..])
  }

  lemma {:induction false} SplitComma(a: string, b: string)
    ensures Split(a + "," + b) == Split(a) + Split(b)
  {
    var s := a + "," + b;
    if a == "" {
      assert s[1..] == b;
    } else {
      assert s[1..] == a[1..] + "," + b;
      SplitComma(a[1..], b);
    }
  }

  lemma {:induction false} SplitOfJoin(xs: seq<string>)
    requires xs != []
    ensures Split(Join(xs)) == Pieces(xs)
  {
    if |xs| == 1 {
      assert Pieces(xs[1..]) == [];
    } else {
      SplitComma(xs[0], Join(xs[1..]));
      SplitOfJoin(xs[1..]);
    }
  }

  lemma {:induction false} JoinOfSplit(s: string)
    ensures Join(Split(s)) == s
  {
    if s != "" {
      var rest := Split(s[1..]);
      JoinOfSplit(s[1..]);
      if s[0] == ',' {
        assert ([""] + rest)[1..] == rest;
      } else {
        JoinOfLonger(s[0], rest);
      }
    }
  }

  lemma JoinOfLonger(c: char, rest: seq<string>)
    requires rest != []
    ensures Join([[c] + rest[0]] + rest[1..]) == [c] + Join(rest)
  {
    var xs := [[c] + rest[0]] + rest[1..];
    assert xs[1..] == rest[1..];
  }

  lemma {:induction false} SplitWithoutComma(s: string)
    requires ',' !in s
    ensures Split(s) == [s]
  {
    if s != "" {
      SplitWithoutComma(s[1..]);
      assert s == [s[0]] + s[1..];
    }
  }

  lemma EmptyJoin(xs: seq<string>)
    requires Named(xs)
    ensures Join(xs) == "" <==> xs == []
  {
  }

  /** Two lists of names have the same joined text exactly when they have the same pieces. */
  lemma JoinsEqualIff(xs: seq<string>, ys: seq<string>)
    requires Named(xs) && Named(ys)
    ensures Join(xs) == Join(ys) <==> Pieces(xs) == Pieces(ys)
  {
    EmptyJoin(xs);
    EmptyJoin(ys);
    if xs != [] && ys != [] {
      SplitOfJoin(xs);
      SplitOfJoin(ys);
      JoinOfSplit(Join(xs));
      JoinOfSplit(Join(ys));
    }
  }

  predicate CommaFree(servers: seq<string>)
  {
    forall i | 0 <= i < |servers| :: ',' !in servers[i]
  }

  lemma {:induction false} PiecesOfCommaFree(xs: seq<string>)
    requires CommaFree(xs)
    ensures Pieces(xs) == xs
  {
    if xs != [] {
      SplitWithoutComma(xs[0]);
      PiecesOfCommaFree(xs[1..]);
      assert xs == [xs[0]] + xs[1..];
    }
  }

  /** So for names without commas the text determines the list. */
  lemma JoinInjective(xs: seq<string>, ys: seq<string>)
    requires Named(xs) && Named(ys) && CommaFree(xs) && CommaFree(ys) && Join(xs) == Join(ys)
    ensures xs == ys
  {
    JoinsEqualIff(xs, ys);
    PiecesOfCommaFree(xs);
    PiecesOfCommaFree(ys);
  }

  lemma NormalizedIsNamed(servers: seq<string>)
    ensures Named(Normalized(servers))
  {
    NormalizedIsTheSet(servers);
  }

  lemma BarBound(m: string, a: string, n: string, b: string)
    requires '|' !in m && '|' !in n && m + "|" + a == n + "|" + b
    ensures |m| >= |n|
  {
    var s := m + "|" + a;
    assert s[|m|] == '|';
    assert forall i | 0 <= i < |n| :: n[i] == s[i];
  }

  lemma BarSplit(m: string, a: string, n: string, b: string)
    requires '|' !in m && '|' !in n && m + "|" + a == n + "|" + b
    ensures m == n && a == b
  {
    BarBound(m, a, n, b);
    BarBound(n, b, m, a);
    var s := m + "|" + a;
    assert s[..|m|] == m && s[..|m|] == n && s[|m| + 1..] == a && s[|m| + 1..] == b;
  }

  /** What stands after the last bar. */
  function AfterBars(s: string): string
  {
    if '|' in s then s[LastIndex(s, '|') + 1..] else s
  }

  lemma SuffixAfterOwnBar(a: string, h: string, g: string)
    requires '|' !in g && '|' !in h
    ensures HasSuffix(a + "|" + h, "|" + g) <==> h == g
  {
    var s := a + "|" + h;
    assert forall i | |a| < i < |s| :: s[i] == h[i - |a| - 1];
    SuffixAtLastBar(s, |a|, g);
    assert s[|a| + 1..] == h;
  }

  lemma LastBarSplits(h: string)
    requires '|' in h
    ensures var k := LastIndex(h, '|'); h == h[..k] + "|" + AfterBars(h) && '|' !in AfterBars(h)
  {
    SplitAt(h, LastIndex(h, '|'));
  }

  lemma SplitAt(h: string, k: nat)
    requires k < |h| && h[k] == '|'
    ensures h == h[..k] + "|" + h[k + 1..]
  {
  }

  lemma BarsRegroup(a: string, b: string, c: string)
    ensures a + "|" + (b + "|" + c) == (a + "|" + b) + "|" + c
  {
  }

  lemma SuffixAfterBar(a: string, h: string, g: string)
    requires '|' !in g
    ensures HasSuffix(a + "|" + h, "|" + g) <==> AfterBars(h) == g
  {
    if '|' in h {
      var front := h[..LastIndex(h, '|')];
      LastBarSplits(h);
      BarsRegroup(a, front, AfterBars(h));
      SuffixAfterOwnBar(a + "|" + front, AfterBars(h), g);
    } else {
      SuffixAfterOwnBar(a, h, g);
    }
  }

  lemma SuffixAtLastBar(s: string, k: nat, g: string)
    requires k < |s| && s[k] == '|' && (forall i | k < i < |s| :: s[i] != '|') && '|' !in g
    ensures HasSuffix(s, "|" + g) <==> s[k + 1..] == g
  {
    if HasSuffix(s, "|" + g) {
      var at := |s| - |g| - 1;
      assert s[at..][0] == s[at] == '|';
      assert forall i | at < i < |s| :: s[i] == s[at..][i - at] == ("|" + g)[i - at] == g[i - at - 1];
      assert at == k;
      assert s[at + 1..] == s[at..][1..] == ("|" + g)[1..] == g;
    } else {
      assert s[k..] == "|" + s[k + 1..];
    }
  }

  /** What follows the mode in a key fits in one way, or the longer server list goes on where the host
      of the shorter one begins. */
  lemma TailsClash(a: string, h: string, b: string, g: string)
    requires a + "|" + h == b + "|" + g
    ensures |a| == |b| ==> a == b && h == g
    ensures |a| < |b| ==> '|' in b && '|' in h && exists u :: b == a + "|" + u && h == u + "|" + g
  {
    var s := a + "|" + h;
    if |a| == |b| {
      assert s[..|a|] == a && s[..|a|] == b && s[|a| + 1..] == h && s[|a| + 1..] == g;
    } else if |a| < |b| {
      var u := b[|a| + 1..];
      assert s[..|b|] == b && s[..|a|] == a && s[|a|] == '|' && b[|a|] == '|';
      assert b == a + "|" + u;
      assert s[|a| + 1..] == h && s == (a + "|" + u) + "|" + g;
      assert h == u + "|" + g;
      assert h[|u|] == '|';
    }
  }

  /** The server text b goes on, with a bar, as the host h of the other key begins. */
  ghost predicate Clash(a: string, h: string, b: string, g: string)
  {
    '|' in h && '|' in b && exists u :: b == a + "|" + u && h == u + "|" + g
  }

  /** When two keys are equal, exactly: they agree in mode, joined servers and host, or a host goes on
      as the other's servers do, with a bar. */
  lemma KeysEqualIff(m: string, xs: seq<string>, h: string, n: string, ys: seq<string>, g: string)
    requires '|' !in m && '|' !in n
    ensures KeyOf(m, xs, h) == KeyOf(n, ys, g) <==>
              && m == n
              && ((Join(xs) == Join(ys) && h == g)
                  || Clash(Join(xs), h, Join(ys), g) || Clash(Join(ys), g, Join(xs), h))
  {
    var a, b := Join(xs), Join(ys);
    assert KeyOf(m, xs, h) == m + "|" + (a + "|" + h) && KeyOf(n, ys, g) == n + "|" + (b + "|" + g);
    if KeyOf(m, xs, h) == KeyOf(n, ys, g) {
      BarSplit(m, a + "|" + h, n, b + "|" + g);
      TailsClash(a, h, b, g);
      TailsClash(b, g, a, h);
    } else if m == n {
      assert forall u :: (a + "|" + u) + "|" + g == a + "|" + (u + "|" + g);
      assert forall u :: (b + "|" + u) + "|" + h == b + "|" + (u + "|" + h);
    }
  }

  /** So with no bar in the hosts, or none in the servers, a key determines mode, host and the pieces
      that its servers have between commas; without commas it determines the servers. */
  lemma KeysAreInjective(a: Config, h: string, b: Config, g: string)
    requires '|' !in a.mode && '|' !in b.mode
    requires ('|' !in h && '|' !in g) || ('|' !in Join(Normalized(a.servers)) && '|' !in Join(Normalized(b.servers)))
    ensures CacheKey(a, h) == CacheKey(b, g) <==>
              a.mode == b.mode && h == g && Pieces(Normalized(a.servers)) == Pieces(Normalized(b.servers))
    ensures CacheKey(a, h) == CacheKey(b, g) && CommaFree(Normalized(a.servers)) && CommaFree(Normalized(b.servers)) ==>
              Normalized(a.servers) == Normalized(b.servers)
  {
    var xs, ys := Normalized(a.servers), Normalized(b.servers);
    KeysEqualIff(a.mode, xs, h, b.mode, ys, g);
    NormalizedIsNamed(a.servers);
    NormalizedIsNamed(b.servers);
    JoinsEqualIff(xs, ys);
    if Join(xs) == Join(ys) && CommaFree(xs) && CommaFree(ys) {
      JoinInjective(xs, ys);
    }
  }

  /** The configuration that the daemon itself always passes: here a key determines the host. */
  const DAEMON := Config("device", [])

  lemma DaemonKeysAreInjective(h: string, g: string)
    ensures CacheKey(DAEMON, h) == CacheKey(DAEMON, g) <==> h == g
  {
    KeysAreInjective(DAEMON, h, DAEMON, g);
  }

  lemma BarServer()
    ensures Normalized(["|a"]) == ["|a:53"]
  {
    var s := "|a";
    assert TrimSpace(s) == s && ':' !in s;
    assert Server(s) == "|a:53";
    OneServer(s, "|a:53");
  }

  /** It does happen, for a host and a server with a bar. */
  lemma BarsCanClash(mode: string)
    ensures CacheKey(Config(mode, []), "a:53|b") == CacheKey(Config(mode, ["|a"]), "b")
  {
    BarServer();
    assert Join(["|a:53"]) == "|a:53";
    assert mode + "|" + "" + "|" + "a:53|b" == mode + "|" + "|a:53" + "|" + "b";
  }

  lemma OneServer(s: string, t: string)
    requires Server(s) == t != ""
    ensures Normalized([s]) == [t]
  {
    assert [s][..0] == [];
  }

  lemma TwoServers(a: string, b: string)
    requires Server(a) != "" && Server(b) != "" && Server(a) != Server(b)
    ensures Normalized([a, b]) == [Server(a), Server(b)]
  {
    OneServer(a, Server(a));
    assert [a, b][..1] == [a];
  }

  /** An entry that starts and ends without space and has no port is taken as it is. */
  lemma TakenAsIs(s: string)
    requires s != "" && !IsSpace(s[0]) && !IsSpace(s[|s| - 1]) && !HasPort(s)
    ensures Server(s) == WithPort53(s)
  {
    assert TrimSpace(s) == s;
  }

  lemma BracketHasNoPort(s: string)
    requires s != "" && s[0] != '[' && ']' in s
    ensures !HasPort(s)
  {
  }

  /** One entry with a comma, and two that make the same text. */
  const ONE_ENTRY: seq<string> := ["x:53,y]"]
  const TWO_ENTRIES: seq<string> := ["[x", "y]]"]
  const FIRST := "[x:53"
  const SECOND := "y]]:53"

  lemma OneWithComma()
    ensures Normalized(ONE_ENTRY) == [FIRST + "," + SECOND]
  {
    var s := "x:53,y]";
    assert s[1] == ':' && s[6] == ']';
    BracketHasNoPort(s);
    TakenAsIs(s);
    OneServer(s, "[" + s + "]:53");
    assert "[" + s + "]:53" == FIRST + "," + SECOND;
  }

  lemma TwoWithoutComma()
    ensures Normalized(TWO_ENTRIES) == [FIRST, SECOND]
  {
    TakenAsIs("[x");
    TakenAsIs("y]]");
    assert "[x" + ":53" == FIRST && "y]]" + ":53" == SECOND;
    TwoServers("[x", "y]]");
  }

  lemma JoinsMeet(a: string, b: string)
    ensures Join([a + "," + b]) == Join([a, b])
  {
    assert [a, b][1..] == [b];
  }

  /** Without any bar, server lists with a comma can share a key as well, under every mode and host. */
  lemma CommasCanClash(mode: string, host: string)
    ensures CacheKey(Config(mode, ONE_ENTRY), host) == CacheKey(Config(mode, TWO_ENTRIES), host)
    ensures Normalized(ONE_ENTRY) != Normalized(TWO_ENTRIES)
  {
    OneWithComma();
    TwoWithoutComma();
    JoinsMeet(FIRST, SECOND);
  }

  // ------------------------------------------------------------ the cache

  function Lookup(entries: map<string, Entry>, key: string, now: int): Option<(seq<string>, string)>
  {
    if key in entries && now < entries[key].expires then Some((entries[key].ips, "dns_cached_" + entries[key].source))
    else None
  }

  function Evicted(entries: map<string, Entry>, host: string): map<string, Entry>
  {
    if HostOf(host) == "" then entries
    else map key | key in entries && !HasSuffix(key, "|" + HostOf(host)) :: entries[key]
  }

  class HostCache {
    var entries: map<string, Entry>

    constructor ()
      ensures entries == map[]
    {
      entries := map[];
    }

    method Cache(key: string, ips: seq<string>, source: string, now: int)
      modifies this
      ensures entries == old(entries)[key := Entry(ips, source, now + TTL)]
    {
      entries := entries[key := Entry(ips, source, now + TTL)];
    }

    /** `direct` is what the configured servers answer to `source`, `shell` what the shell tools
        answer, `stored` the time at which the answer is in. */
    method ResolveHost(cfg: Config, host: string, now: int, direct: seq<string>, source: string,
                       shell: seq<string>, stored: int)
      returns (ips: seq<string>, how: string)
      modifies this
      ensures var key := CacheKey(cfg, HostOf(host));
              if Lookup(old(entries), key, now).Some? then
                (ips, how) == Lookup(old(entries), key, now).value && entries == old(entries)
              else if direct != [] then
                ips == direct && how == source && entries == old(entries)[key := Entry(direct, source, stored + TTL)]
              else if shell != [] then
                && ips == shell && how == "android_shell_dns"
                && entries == old(entries)[key := Entry(shell, how, stored + TTL)]
              else
                ips == [] && how == "dns_failed" && entries == old(entries)
    {
      var name := HostOf(host);
      var servers := NormalizeServers(cfg.servers);
      var key := cfg.mode + "|" + Join(servers) + "|" + name;
      if key in entries && now < entries[key].expires {
        return entries[key].ips, "dns_cached_" + entries[key].source;
      }
      if |direct| > 0 {
        Cache(key, direct, source, stored);
        return direct, source;
      }
      if |shell| > 0 {
        Cache(key, shell, "android_shell_dns", stored);
        return shell, "android_shell_dns";
      }
      return [], "dns_failed";
    }

    /** The keys come in any order, and are deleted as they are met. */
    method EvictHost(host: string)
      modifies this
      ensures entries == Evicted(old(entries), host)
    {
      var name := HostOf(host);
      if name == "" {
        return;
      }
      var keys := entries.Keys;
      while keys != {}
        invariant keys <= entries.Keys <= old(entries).Keys
        invariant forall key | key in old(entries) :: key in entries <==> key in keys || !HasSuffix(key, "|" + name)
        invariant forall key | key in entries :: entries[key] == old(entries)[key]
      {
        var key :| key in keys;
        keys := keys - {key};
        if HasSuffix(key, "|" + name) {
          entries := entries - {key};
        }
      }
    }
  }

  // ------------------------------------------------------------ the cache over any history

  /** The critical sections of the lock, in the order they happen. A resolve is a look followed, if
      it missed and got an answer, by a store; other calls may come between. */
  datatype Event =
    | Store(cfg: Config, host: string, ips: seq<string>, source: string, now: int)
    | Evict(host: string)

  function Apply(m: map<string, Entry>, e: Event): map<string, Entry>
  {
    match e
    case Store(cfg, host, ips, source, now) => m[CacheKey(cfg, HostOf(host)) := Entry(ips, source, now + TTL)]
    case Evict(host) => Evicted(m, host)
  }

  function After(events: seq<Event>): map<string, Entry>
  {
    if events == [] then map[]
    else Apply(After(events[..|events| - 1]), events[|events| - 1])
  }

  /** The reference: the last answer stored for this mode, servers with these pieces and this host since
      the host was last evicted. */
  function LastStored(events: seq<Event>, mode: string, pieces: seq<string>, host: string): Option<Entry>
  {
    if events == [] then None
    else
      var front := events[..|events| - 1];
      match events[|events| - 1]
      case Store(cfg, h, ips, source, now) =>
        if cfg.mode == mode && Pieces(Normalized(cfg.servers)) == pieces && HostOf(h) == host then
          Some(Entry(ips, source, now + TTL))
        else LastStored(front, mode, pieces, host)
      case Evict(h) =>
        if HostOf(h) != "" && HostOf(h) == host then None else LastStored(front, mode, pieces, host)
  }

  /** No bars where the key needs them as separators: in mode and host. */
  predicate Clean(mode: string, host: string) { '|' !in mode && '|' !in host }

  predicate CleanEvent(e: Event)
  {
    match e
    case Store(cfg, h, _, _, _) => Clean(cfg.mode, HostOf(h))
    case Evict(h) => '|' !in HostOf(h)
  }

  lemma StoreHits(e: Event, cfg: Config, host: string)
    requires e.Store? && CleanEvent(e) && Clean(cfg.mode, host)
    ensures CacheKey(cfg, host) == CacheKey(e.cfg, HostOf(e.host)) <==>
              && e.cfg.mode == cfg.mode && HostOf(e.host) == host
              && Pieces(Normalized(e.cfg.servers)) == Pieces(Normalized(cfg.servers))
  {
    KeysAreInjective(cfg, host, e.cfg, HostOf(e.host));
  }

  /** The string-keyed map is the map by mode, pieces of the servers and host, whatever the servers: after
      any history it holds exactly the answer last stored for each triple. */
  lemma {:induction false} CacheIsByTriple(events: seq<Event>, cfg: Config, host: string)
    requires (forall i | 0 <= i < |events| :: CleanEvent(events[i])) && Clean(cfg.mode, host)
    ensures var key := CacheKey(cfg, host);
            LastStored(events, cfg.mode, Pieces(Normalized(cfg.servers)), host)
            == if key in After(events) then Some(After(events)[key]) else None
  {
    if events != [] {
      var front, e := events[..|events| - 1], events[|events| - 1];
      CacheIsByTriple(front, cfg, host);
      assert CleanEvent(e);
      if e.Store? {
        StoreHits(e, cfg, host);
      } else {
        SuffixAfterBar(cfg.mode + "|" + Join(Normalized(cfg.servers)), host, HostOf(e.host));
      }
    }
  }

  /** An unexpired hit is the answer last stored; anything else is a miss. */
  lemma HitIsLastStored(events: seq<Event>, cfg: Config, host: string, now: int)
    requires (forall i | 0 <= i < |events| :: CleanEvent(events[i])) && Clean(cfg.mode, HostOf(host))
    ensures var last := LastStored(events, cfg.mode, Pieces(Normalized(cfg.servers)), HostOf(host));
            Lookup(After(events), CacheKey(cfg, HostOf(host)), now) ==
            if last.Some? && now < last.value.expires then Some((last.value.ips, "dns_cached_" + last.value.source))
            else None
  {
    CacheIsByTriple(events, cfg, HostOf(host));
  }

  /** Evicting removes the entries whose host, after its last bar, is the given one, and no other:
      for hosts without bars, all and only that host's. */
  lemma EvictIsByHost(entries: map<string, Entry>, cfg: Config, host: string, evicted: string)
    requires '|' !in HostOf(evicted) && HostOf(evicted) != ""
    ensures CacheKey(cfg, host) in Evicted(entries, evicted) <==>
              CacheKey(cfg, host) in entries && AfterBars(host) != HostOf(evicted)
  {
    SuffixAfterBar(cfg.mode + "|" + Join(Normalized(cfg.servers)), host, HostOf(evicted));
  }

  /** The event stores nothing for this host, nor for one that ends in a bar and this host. */
  predicate SparesHost(e: Event, host: string) { e.Store? ==> AfterBars(HostOf(e.host)) != host }

  lemma OtherKey(a: Config, h: string, b: Config, host: string)
    requires '|' !in host && AfterBars(h) != host
    ensures CacheKey(a, h) != CacheKey(b, host)
  {
    SuffixAfterBar(b.mode + "|" + Join(Normalized(b.servers)), host, host);
    SuffixAfterBar(a.mode + "|" + Join(Normalized(a.servers)), h, host);
  }

  lemma ApplyKeepsMiss(m: map<string, Entry>, e: Event, cfg: Config, host: string)
    requires '|' !in host && CacheKey(cfg, host) !in m && SparesHost(e, host)
    ensures CacheKey(cfg, host) !in Apply(m, e)
  {
    if e.Store? {
      OtherKey(e.cfg, HostOf(e.host), cfg, host);
    }
  }

  lemma AfterOneMore(events: seq<Event>, e: Event)
    ensures After(events + [e]) == Apply(After(events), e)
  {
    assert (events + [e])[..|events|] == events;
  }

  lemma {:induction false} StaysMissing(events: seq<Event>, n: nat, cfg: Config, host: string)
    requires n <= |events| && '|' !in host && CacheKey(cfg, host) !in After(events[..n])
    requires forall i | n <= i < |events| :: SparesHost(events[i], host)
    ensures CacheKey(cfg, host) !in After(events)
    decreases |events|
  {
    if n == |events| {
      assert events[..n] == events;
    } else {
      var front := events[..|events| - 1];
      assert front[..n] == events[..n];
      StaysMissing(front, n, cfg, host);
      ApplyKeepsMiss(After(front), events[|events| - 1], cfg, host);
    }
  }

  /** After an eviction every look for the host misses, under every configuration and at any time,
      until something is stored for it again. */
  lemma EvictThenMiss(before: seq<Event>, evicted: string, later: seq<Event>, cfg: Config, host: string, now: int)
    requires HostOf(host) == HostOf(evicted) != "" && '|' !in HostOf(host)
    requires forall i | 0 <= i < |later| :: SparesHost(later[i], HostOf(host))
    ensures Lookup(After(before + [Evict(evicted)] + later), CacheKey(cfg, HostOf(host)), now).None?
  {
    var through := before + [Evict(evicted)];
    var events := through + later;
    AfterOneMore(before, Evict(evicted));
    EvictIsByHost(After(before), cfg, HostOf(host), evicted);
    assert events[..|through|] == through;
    assert forall i | |through| <= i < |events| :: events[i] == later[i - |through|];
    StaysMissing(events, |through|, cfg, HostOf(host));
  }
}
