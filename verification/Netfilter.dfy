/** The part of the kernel's packet filter that the scripts work on: the mangle and nat tables,
    their chains of rules, the commands that change them and the traversal of a packet. */
module Netfilter {
  import opened Numbers
  import opened Seqs

  datatype Chain =
    | Prerouting
    | Output
    | SshcTcp
    | SshcTcpOutput
    | SshcUdp
    | SshcDns
    | SshcProbe
    | SshcDrop6
    | SshcOutput          // the remaining SSHC names are those of earlier releases
    | SshcPrerouting
    | SshcProxy
    | SshcHotspot
    | SshcHotspotDns
    | Foreign(name: string)

  datatype Proto = Tcp | Udp | OtherProto

  datatype Match =
    | ProtoIs(proto: Proto)
    | DstBlock(base: nat, bits: nat)      // -d a.b.c.d/bits
    | DstIn(ips: set<nat>)                // -d with a list of addresses
    | DportIs(port: nat)
    | UidIs(uid: nat)
    | InIface(pattern: string)            // a trailing '+' matches any suffix

  datatype Target =
    | Jump(chain: Chain)
    | Return
    | Tproxy(port: nat)
    | Redirect(port: nat)
    | Dnat(port: nat)
    | SetMark(on: bool)
    | Accept
    | Drop

  datatype Rule = Rule(matches: seq<Match>, target: Target)

  type Table = map<Chain, seq<Rule>>

  datatype Tbl = Mangle | Nat

  /** `route` stands for the mark rule and its local route. `tproxy` and `bareTproxy` say whether
      the kernel takes TPROXY rules with and without a protocol match. */
  datatype Kernel = Kernel(mangle: Table, natTable: Table, route: bool, tproxy: bool, bareTproxy: bool)

  datatype Cmd =
    | New(t: Tbl, c: Chain)
    | Flush(t: Tbl, c: Chain)
    | Delete(t: Tbl, c: Chain)            // -X
    | Append(t: Tbl, c: Chain, r: Rule)
    | Insert(t: Tbl, c: Chain, r: Rule)   // at position 1
    | Remove(t: Tbl, c: Chain, r: Rule)   // -D
    | RouteAdd
    | RouteDel

  predicate BuiltIn(c: Chain) { c.Prerouting? || c.Output? }

  predicate IsSshc(c: Chain) { !BuiltIn(c) && !c.Foreign? }

  predicate JumpsTo(r: Rule, c: Chain) { r.target == Jump(c) }

  predicate SshcJump(r: Rule) { r.target.Jump? && IsSshc(r.target.chain) }

  predicate SomeJump(rules: seq<Rule>, c: Chain)
  {
    exists r | r in rules :: JumpsTo(r, c)
  }

  predicate Referenced(tb: Table, c: Chain)
  {
    exists d | d in tb :: SomeJump(tb[d], c)
  }

  function TableOf(k: Kernel, t: Tbl): Table { if t.Mangle? then k.mangle else k.natTable }

  function WithTable(k: Kernel, t: Tbl, tb: Table): Kernel
  {
    if t.Mangle? then k.(mangle := tb) else k.(natTable := tb)
  }

  /** Whether the kernel takes this rule. */
  predicate Admits(k: Kernel, t: Tbl, r: Rule)
  {
    && (r.target.Jump? ==> r.target.chain in TableOf(k, t))
    && (r.target.Tproxy? ==> t.Mangle? && k.tproxy && (k.bareTproxy || exists m | m in r.matches :: m.ProtoIs?))
  }

  /** Whether a command exits with success. */
  predicate Succeeds(k: Kernel, cmd: Cmd)
  {
    match cmd
    case New(t, c) => c !in TableOf(k, t)
    case Flush(t, c) => c in TableOf(k, t)
    case Delete(t, c) =>
      c in TableOf(k, t) && !BuiltIn(c) && TableOf(k, t)[c] == [] && !Referenced(TableOf(k, t), c)
    case Append(t, c, r) => c in TableOf(k, t) && Admits(k, t, r)
    case Insert(t, c, r) => c in TableOf(k, t) && Admits(k, t, r)
    case Remove(t, c, r) => c in TableOf(k, t) && r in TableOf(k, t)[c]
    case RouteAdd => !k.route
    case RouteDel => k.route
  }

  /** A failing command changes nothing. */
  function Exec(k: Kernel, cmd: Cmd): (k': Kernel)
    ensures k'.tproxy == k.tproxy && k'.bareTproxy == k.bareTproxy
  {
    if !Succeeds(k, cmd) then k else
    match cmd
    case New(t, c) => WithTable(k, t, TableOf(k, t)[c := []])
    case Flush(t, c) => WithTable(k, t, TableOf(k, t)[c := []])
    case Delete(t, c) => WithTable(k, t, TableOf(k, t) - {c})
    case Append(t, c, r) => WithTable(k, t, TableOf(k, t)[c := TableOf(k, t)[c] + [r]])
    case Insert(t, c, r) => WithTable(k, t, TableOf(k, t)[c := [r] + TableOf(k, t)[c]])
    case Remove(t, c, r) => WithTable(k, t, TableOf(k, t)[c := RemoveFirst(TableOf(k, t)[c], r)])
    case RouteAdd => k.(route := true)
    case RouteDel => k.(route := false)
  }

  /** A list of commands whose exit codes are ignored. */
  function RunAll(k: Kernel, cmds: seq<Cmd>): Kernel
    decreases |cmds|
  {
    if cmds == [] then k else RunAll(Exec(k, cmds[0]), cmds[1..])
  }

  lemma {:induction false} RunConcat(k: Kernel, a: seq<Cmd>, b: seq<Cmd>)
    ensures RunAll(k, a + b) == RunAll(RunAll(k, a), b)
    decreases |a|
  {
    if a == [] {
      assert a + b == b;
    } else {
      assert (a + b)[1..] == a[1..] + b;
      RunConcat(Exec(k, a[0]), a[1..], b);
    }
  }

  lemma RunThen(k: Kernel, a: seq<Cmd>, b: seq<Cmd>, k1: Kernel, k2: Kernel)
    requires RunAll(k, a) == k1 && RunAll(k1, b) == k2
    ensures RunAll(k, a + b) == k2
  {
    RunConcat(k, a, b);
  }

  lemma RunOne(k: Kernel, cmd: Cmd)
    ensures RunAll(k, [cmd]) == Exec(k, cmd)
  {
    assert RunAll(Exec(k, cmd), []) == Exec(k, cmd);
  }

  // ---------------------------------------------------------------------------
  // Packets.

  datatype Packet = Packet(proto: Proto, dst: nat, dport: nat, uid: nat, iface: string, mark: bool)

  predicate InBlock(ip: nat, base: nat, bits: nat)
  {
    bits <= 32 && base <= ip < base + Pow2(32 - bits)
  }

  predicate IfaceMatches(pattern: string, name: string)
  {
    if |pattern| > 0 && pattern[|pattern| - 1] == '+' then pattern[..|pattern| - 1] <= name else pattern == name
  }

  predicate Satisfies(p: Packet, m: Match)
  {
    match m
    case ProtoIs(proto) => p.proto == proto
    case DstBlock(base, bits) => InBlock(p.dst, base, bits)
    case DstIn(ips) => p.dst in ips
    case DportIs(port) => p.dport == port
    case UidIs(uid) => p.uid == uid
    case InIface(pattern) => IfaceMatches(pattern, p.iface)
  }

  predicate Hits(r: Rule, p: Packet)
  {
    forall m | m in r.matches :: Satisfies(p, m)
  }

  datatype Verdict = Accepted | Dropped | ToSocket(port: nat) | Redirected(port: nat) | Rewritten(port: nat)

  datatype Outcome = Through(p: Packet) | Stopped(v: Verdict, q: Packet)

  /** First-match traversal. `avail` holds the chains that are not being traversed already; the
      kernel refuses tables in which a jump could leave it. */
  function Traverse(tb: Table, avail: set<Chain>, rules: seq<Rule>, p: Packet): Outcome
    decreases |avail|, |rules|
  {
    if rules == [] then Through(p)
    else if !Hits(rules[0], p) then Traverse(tb, avail, rules[1..], p)
    else
      match rules[0].target
      case Return => Through(p)
      case Jump(c) =>
        if c in avail && c in tb then
          var sub := Traverse(tb, avail - {c}, tb[c], p);
          if sub.Through? then Traverse(tb, avail, rules[1..], sub.p) else sub
        else Traverse(tb, avail, rules[1..], p)
      case SetMark(on) => Traverse(tb, avail, rules[1..], p.(mark := on))
      case Tproxy(port) => Stopped(ToSocket(port), p.(mark := true))
      case Redirect(port) => Stopped(Redirected(port), p)
      case Dnat(port) => Stopped(Rewritten(port), p)
      case Accept => Stopped(Accepted, p)
      case Drop => Stopped(Dropped, p)
  }

  /** A packet at a built-in chain. */
  function Hook(tb: Table, base: Chain, p: Packet): Outcome
  {
    if base in tb then Traverse(tb, tb.Keys - {base}, tb[base], p) else Through(p)
  }

  /** Return rules in front of a list: the first one that matches ends the chain. */
  lemma {:induction false} ReturnsFirst(tb: Table, avail: set<Chain>, exits: seq<Rule>, rest: seq<Rule>, p: Packet)
    requires forall r | r in exits :: r.target.Return?
    ensures Traverse(tb, avail, exits + rest, p) ==
            if exists r | r in exits :: Hits(r, p) then Through(p) else Traverse(tb, avail, rest, p)
  {
    if exits == [] {
      assert exits + rest == rest;
    } else {
      assert (exits + rest)[1..] == exits[1..] + rest;
      ReturnsFirst(tb, avail, exits[1..], rest, p);
      assert forall r | r in exits :: r == exits[0] || r in exits[1..];
    }
  }

  /** Rules that do not match are skipped. */
  lemma {:induction false} SkipMisses(tb: Table, avail: set<Chain>, misses: seq<Rule>, rest: seq<Rule>, p: Packet)
    requires forall r | r in misses :: !Hits(r, p)
    ensures Traverse(tb, avail, misses + rest, p) == Traverse(tb, avail, rest, p)
  {
    if misses == [] {
      assert misses + rest == rest;
    } else {
      assert (misses + rest)[1..] == misses[1..] + rest;
      SkipMisses(tb, avail, misses[1..], rest, p);
    }
  }
}
