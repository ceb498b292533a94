/** How many hooks the daemon can leave behind, over any sequence of starts, connects, stops
    and crashes, and what net_clean makes of them. */
module NetHooks {
  import opened Seqs
  import opened Netfilter
  import opened NetScripts
  import opened NetForeign
  import opened NetShape

  function Count(tb: Table, b: Chain, r: Rule): nat
  {
    if b in tb then multiset(tb[b])[r] else 0
  }

  lemma {:induction false} RemoveCounts(s: seq<Rule>, r: Rule)
    ensures multiset(RemoveFirst(s, r)) == multiset(s) - multiset{r}
  {
    if s == [] {
    } else if s[0] == r {
      assert s == [s[0]] + s[1..];
    } else {
      RemoveCounts(s[1..], r);
      assert s == [s[0]] + s[1..];
      assert multiset(s) == multiset{s[0]} + multiset(s[1..]);
      assert multiset(RemoveFirst(s, r)) == multiset{s[0]} + multiset(RemoveFirst(s[1..], r));
    }
  }

  /** Every jump to an SSHC chain stands in a built-in chain. */
  ghost predicate Tidy(tb: Table)
  {
    && Prerouting in tb && Output in tb
    && forall c, r | c in tb && r in tb[c] && SshcJump(r) :: BuiltIn(c)
  }

  /** How many -D commands for this very rule a list holds. */
  function Dels(cmds: seq<Cmd>, t: Tbl, b: Chain, r: Rule): nat
  {
    if cmds == [] then 0
    else (if cmds[0] == Remove(t, b, r) then 1 else 0) + Dels(cmds[1..], t, b, r)
  }

  lemma {:induction false} DelsConcat(x: seq<Cmd>, y: seq<Cmd>, t: Tbl, b: Chain, r: Rule)
    ensures Dels(x + y, t, b, r) == Dels(x, t, b, r) + Dels(y, t, b, r)
  {
    if x == [] {
      assert x + y == y;
    } else {
      assert (x + y)[1..] == x[1..] + y;
      DelsConcat(x[1..], y, t, b, r);
    }
  }

  lemma {:induction false} DelsIn(cmds: seq<Cmd>, t: Tbl, b: Chain, r: Rule)
    ensures Remove(t, b, r) in cmds <==> Dels(cmds, t, b, r) >= 1
  {
    if cmds != [] {
      DelsIn(cmds[1..], t, b, r);
      assert cmds == [cmds[0]] + cmds[1..];
    }
  }

  function Less(n: nat, d: nat): nat { if n < d then 0 else n - d }

  ghost predicate CountsChange(tb: Table, tb': Table, gone: set<(Chain, Rule)>)
  {
    forall b, r | BuiltIn(b) :: Count(tb', b, r) == Less(Count(tb, b, r), if (b, r) in gone then 1 else 0)
  }

  lemma RemoveCount(s: seq<Rule>, r: Rule, x: Rule)
    ensures multiset(RemoveFirst(s, r))[x] == Less(multiset(s)[x], if x == r then 1 else 0)
  {
    RemoveCounts(s, r);
  }

  /** A chain that loses one copy of a rule, if it has one. */
  lemma ShrinkStep(tb: Table, c: Chain, r: Rule, rules: seq<Rule>)
    requires Tidy(tb) && BuiltIn(c) && c in tb
    requires forall x :: multiset(rules)[x] == Less(multiset(tb[c])[x], if x == r then 1 else 0)
    ensures Tidy(tb[c := rules]) && CountsChange(tb, tb[c := rules], {(c, r)})
  {
  }

  lemma UnhookStep(tb: Table, c: Chain, r: Rule)
    requires Tidy(tb) && BuiltIn(c) && c in tb
    ensures Tidy(tb[c := RemoveFirst(tb[c], r)]) && CountsChange(tb, tb[c := RemoveFirst(tb[c], r)], {(c, r)})
    ensures r !in tb[c] ==> CountsChange(tb, tb, {(c, r)})
  {
    var rules := RemoveFirst(tb[c], r);
    forall x
      ensures multiset(rules)[x] == Less(multiset(tb[c])[x], if x == r then 1 else 0)
    {
      RemoveCount(tb[c], r, x);
    }
    ShrinkStep(tb, c, r, rules);
  }

  lemma OwnChainStep(tb: Table, c: Chain)
    requires Tidy(tb) && IsSshc(c)
    ensures Tidy(tb[c := []]) && CountsChange(tb, tb[c := []], {})
    ensures Tidy(tb - {c}) && CountsChange(tb, tb - {c}, {})
  {
  }

  lemma SameCounts(tb: Table)
    ensures CountsChange(tb, tb, {})
  {
  }

  lemma SweepStep(k: Kernel, cmd: Cmd, t: Tbl)
    requires Sweep(cmd) && Tidy(TableOf(k, t))
    ensures var tb, tb' := TableOf(k, t), TableOf(Exec(k, cmd), t);
      && Tidy(tb') && tb'.Keys <= tb.Keys
      && CountsChange(tb, tb', if cmd.Remove? && cmd.t == t then {(cmd.c, cmd.r)} else {})
  {
    if !cmd.RouteDel? && cmd.t == t {
      if cmd.Remove? {
        UnhookStep(TableOf(k, t), cmd.c, cmd.r);
      } else {
        OwnChainStep(TableOf(k, t), cmd.c);
      }
    } else {
      SameCounts(TableOf(k, t));
    }
  }

  /** The accounting law of cleaning: a rule is left exactly as often as its copies outnumber
      the -D commands for it. */
  lemma {:induction false} SweepCounts(k: Kernel, cmds: seq<Cmd>, t: Tbl)
    requires AllSweep(cmds) && Tidy(TableOf(k, t))
    ensures var tb, tb' := TableOf(k, t), TableOf(RunAll(k, cmds), t);
      && Tidy(tb') && tb'.Keys <= tb.Keys
      && (forall b, r | BuiltIn(b) :: Count(tb', b, r) == Less(Count(tb, b, r), Dels(cmds, t, b, r)))
    decreases |cmds|
  {
    if cmds != [] {
      SweepStep(k, cmds[0], t);
      SweepCounts(Exec(k, cmds[0]), cmds[1..], t);
    }
  }

  // ---------------------------------------------------------------------------
  // The hooks the daemon inserts.

  /** How often each hook may stand in a built-in chain: SSHC_UDP twice, once from the script and
      once from the tunnel loop, everything else once. */
  function Limit(t: Tbl, b: Chain, r: Rule): nat
  {
    if t.Mangle? && b.Prerouting? then
      if r == PlainHook(SshcUdp) then 2
      else if r == TcpHook(SshcTcp) || exists i | i in IFACES :: r == IfaceTcpHook(i, SshcTcp) then 1 else 0
    else if t.Mangle? then
      if r == TcpHook(SshcTcpOutput) then 1 else 0
    else if b.Prerouting? then
      if r == TcpHook(SshcTcp) then 1 else 0
    else
      if r == TcpHook(SshcTcpOutput) || r == DnsHook(SshcDns) then 1 else 0
  }

  ghost predicate WithinLimits(tb: Table, t: Tbl)
  {
    forall b, r | BuiltIn(b) && SshcJump(r) :: Count(tb, b, r) <= Limit(t, b, r)
  }

  predicate MayExist(t: Tbl, c: Chain)
  {
    c in (if t.Mangle? then {SshcTcp, SshcTcpOutput, SshcUdp, SshcProbe} else {SshcTcp, SshcTcpOutput, SshcDns})
  }

  /** At most what the daemon leaves, wherever it is cut off. */
  ghost predicate HookedTable(tb: Table, t: Tbl)
  {
    Tidy(tb) && WithinLimits(tb, t) && forall c | c in tb && IsSshc(c) :: MayExist(t, c)
  }

  ghost predicate HookedKernel(k: Kernel)
  {
    HookedTable(k.mangle, Mangle) && HookedTable(k.natTable, Nat)
  }

  lemma CleanIsHooked(k: Kernel)
    requires Clean(k)
    ensures HookedKernel(k)
  {
    forall b, r | BuiltIn(b) && SshcJump(r)
      ensures Count(k.mangle, b, r) == 0 && Count(k.natTable, b, r) == 0
    {
      CleanHasNoHook(k.mangle, b, r);
      CleanHasNoHook(k.natTable, b, r);
    }
  }

  // ---------------------------------------------------------------------------
  // What net_clean does to them.

  /** Chains that no hook is left for are dropped. */
  lemma DropGone(k: Kernel, t: Tbl, c: Chain)
    requires IsSshc(c) && Tidy(TableOf(k, t))
    requires forall b, r | BuiltIn(b) && JumpsTo(r, c) :: Count(TableOf(k, t), b, r) == 0
    ensures c !in TableOf(RunAll(k, DropChain(t, c)), t)
  {
    var k1 := Exec(k, Flush(t, c));
    RunTwoCmds(k, Flush(t, c), Delete(t, c));
    var tb, tb1 := TableOf(k, t), TableOf(k1, t);
    forall d | d in tb1
      ensures !SomeJump(tb1[d], c)
    {
      if d != c {
        forall r | r in tb[d]
          ensures !JumpsTo(r, c)
        {
          assert JumpsTo(r, c) ==> SshcJump(r);
          assert BuiltIn(d) ==> Count(tb, d, r) == multiset(tb[d])[r];
        }
      }
    }
  }

  ghost predicate Unhooked(tb: Table, c: Chain)
  {
    Tidy(tb) && forall b, r | BuiltIn(b) && JumpsTo(r, c) :: Count(tb, b, r) == 0
  }

  lemma UnhookedStays(k: Kernel, cmds: seq<Cmd>, t: Tbl, c: Chain)
    requires AllSweep(cmds) && Unhooked(TableOf(k, t), c)
    ensures Unhooked(TableOf(RunAll(k, cmds), t), c)
  {
    SweepCounts(k, cmds, t);
  }

  lemma GoneStays(k: Kernel, cmds: seq<Cmd>, t: Tbl, c: Chain)
    requires AllSweep(cmds) && Tidy(TableOf(k, t)) && c !in TableOf(k, t)
    ensures c !in TableOf(RunAll(k, cmds), t)
  {
    SweepCounts(k, cmds, t);
  }

  lemma DropFirstGone(k: Kernel, c: Chain)
    requires IsSshc(c) && Unhooked(k.mangle, c)
    ensures c !in RunAll(RunAll(k, DropChain(Mangle, c)), DropChain(Nat, c)).mangle
  {
    DropGone(k, Mangle, c);
    UnhookedStays(k, DropChain(Mangle, c), Mangle, c);
    GoneStays(RunAll(k, DropChain(Mangle, c)), DropChain(Nat, c), Mangle, c);
  }

  lemma DropSecondGone(k: Kernel, c: Chain)
    requires IsSshc(c) && Unhooked(k.natTable, c)
    ensures c !in RunAll(RunAll(k, DropChain(Mangle, c)), DropChain(Nat, c)).natTable
  {
    UnhookedStays(k, DropChain(Mangle, c), Nat, c);
    DropGone(RunAll(k, DropChain(Mangle, c)), Nat, c);
  }

  lemma DropBothGone(k: Kernel, t: Tbl, c: Chain)
    requires IsSshc(c) && Unhooked(TableOf(k, t), c)
    ensures c !in TableOf(RunAll(k, DropBoth(c)), t)
  {
    RunConcat(k, DropChain(Mangle, c), DropChain(Nat, c));
    if t.Mangle? {
      DropFirstGone(k, c);
    } else {
      DropSecondGone(k, c);
    }
  }

  lemma DropStaysOrGoes(k: Kernel, init: seq<Cmd>, last: Chain, t: Tbl, c: Chain)
    requires AllSweep(init) && IsSshc(last) && Unhooked(TableOf(k, t), c)
    requires c == last || c !in TableOf(RunAll(k, init), t)
    ensures c !in TableOf(RunAll(k, init + DropBoth(last)), t)
  {
    var k1 := RunAll(k, init);
    UnhookedStays(k, init, t, c);
    RunConcat(k, init, DropBoth(last));
    if c == last {
      DropBothGone(k1, t, c);
    } else {
      GoneStays(k1, DropBoth(last), t, c);
    }
  }

  /** The last loop of cleanup(). */
  lemma {:induction false} DropChainsGone(k: Kernel, chains: seq<Chain>, t: Tbl, c: Chain)
    requires c in chains && (forall d | d in chains :: IsSshc(d)) && Unhooked(TableOf(k, t), c)
    ensures c !in TableOf(RunAll(k, ForChains(chains, DropBoth)), t)
  {
    var init, last := chains[..|chains| - 1], chains[|chains| - 1];
    ForChainsSweep(init, DropBoth);
    if c != last {
      DropChainsGone(k, init, t, c);
    }
    DropStaysOrGoes(k, ForChains(init, DropBoth), last, t, c);
  }

  lemma {:induction false} InForChains(chains: seq<Chain>, f: Chain -> seq<Cmd>, c: Chain, cmd: Cmd)
    requires c in chains && cmd in f(c)
    ensures cmd in ForChains(chains, f)
  {
    if c != chains[|chains| - 1] {
      InForChains(chains[..|chains| - 1], f, c, cmd);
    }
  }

  lemma {:induction false} InForIfaces(ifaces: seq<string>, f: string -> seq<Cmd>, i: string, cmd: Cmd)
    requires i in ifaces && cmd in f(i)
    ensures cmd in ForIfaces(ifaces, f)
  {
    if i != ifaces[|ifaces| - 1] {
      InForIfaces(ifaces[..|ifaces| - 1], f, i, cmd);
    }
  }

  function HookPass(): seq<Cmd> { ForChains(CLEANUP_HOOKS, c => CleanupChain(c, [])) }

  /** The -D commands of the first pass. */
  lemma InHookPass(c: Chain, cmd: Cmd)
    requires c in CLEANUP_HOOKS && cmd in CleanupHooksOf(c)
    ensures cmd in HookPass()
  {
    InForChains(CLEANUP_HOOKS, d => CleanupChain(d, []), c, cmd);
  }

  /** One -D command for each hook that the daemon inserts without naming an interface. */
  ghost predicate UnhooksOnce(cmds: seq<Cmd>)
  {
    && AllSweep(cmds)
    && Remove(Mangle, Prerouting, PlainHook(SshcUdp)) in cmds
    && Remove(Mangle, Prerouting, TcpHook(SshcTcp)) in cmds
    && Remove(Mangle, Output, TcpHook(SshcTcpOutput)) in cmds
    && Remove(Nat, Prerouting, TcpHook(SshcTcp)) in cmds
    && Remove(Nat, Output, TcpHook(SshcTcpOutput)) in cmds
    && Remove(Nat, Output, DnsHook(SshcDns)) in cmds
  }

  lemma HookPassHas(c: Chain, n: nat)
    requires c in CLEANUP_HOOKS && n < |CleanupHooksOf(c)|
    ensures CleanupHooksOf(c)[n] in HookPass()
  {
    InHookPass(c, CleanupHooksOf(c)[n]);
  }

  lemma HookPassUnhooks()
    ensures UnhooksOnce(HookPass())
  {
    CleanupHooksSweep([]);
    HookPassHas(SshcUdp, 1);
    HookPassHas(SshcTcp, 0);
    HookPassHas(SshcTcpOutput, 2);
    HookPassHas(SshcTcp, 5);
    HookPassHas(SshcTcpOutput, 4);
    HookPassHas(SshcDns, 6);
  }

  /** How often a rule may still stand in mangle after the first pass. */
  function LeftLimit(b: Chain, r: Rule): nat
  {
    if b.Prerouting? && (r == PlainHook(SshcUdp) || exists i | i in IFACES :: r == IfaceTcpHook(i, SshcTcp)) then 1
    else 0
  }

  /** mangle keeps at most one jump to SSHC_UDP and the hotspot hooks. */
  ghost predicate MangleLeft(m: Table)
  {
    Tidy(m) && forall b, r | BuiltIn(b) && SshcJump(r) :: Count(m, b, r) <= LeftLimit(b, r)
  }

  /** A limit less the -D commands of the first pass. */
  lemma LeftOfLimit(b: Chain, r: Rule, dels: nat)
    requires BuiltIn(b)
    requires b.Prerouting? && (r == PlainHook(SshcUdp) || r == TcpHook(SshcTcp)) ==> dels >= 1
    requires b.Output? && r == TcpHook(SshcTcpOutput) ==> dels >= 1
    ensures Less(Limit(Mangle, b, r), dels) <= LeftLimit(b, r)
  {
  }

  lemma MangleAfterUnhooking(k: Kernel, hooks: seq<Cmd>)
    requires HookedTable(k.mangle, Mangle) && UnhooksOnce(hooks)
    ensures var k1 := RunAll(k, hooks); MangleLeft(k1.mangle) && k1.mangle.Keys <= k.mangle.Keys
  {
    SweepCounts(k, hooks, Mangle);
    DelsIn(hooks, Mangle, Prerouting, PlainHook(SshcUdp));
    DelsIn(hooks, Mangle, Prerouting, TcpHook(SshcTcp));
    DelsIn(hooks, Mangle, Output, TcpHook(SshcTcpOutput));
    var m := RunAll(k, hooks).mangle;
    forall b, r | BuiltIn(b) && SshcJump(r)
      ensures Count(m, b, r) <= LeftLimit(b, r)
    {
      LeftOfLimit(b, r, Dels(hooks, Mangle, b, r));
    }
  }

  lemma NatAfterUnhooking(k: Kernel, hooks: seq<Cmd>)
    requires HookedTable(k.natTable, Nat) && UnhooksOnce(hooks)
    ensures var k1 := RunAll(k, hooks); Tidy(k1.natTable) && NoHooks(k1.natTable) && k1.natTable.Keys <= k.natTable.Keys
  {
    SweepCounts(k, hooks, Nat);
    DelsIn(hooks, Nat, Prerouting, TcpHook(SshcTcp));
    DelsIn(hooks, Nat, Output, TcpHook(SshcTcpOutput));
    DelsIn(hooks, Nat, Output, DnsHook(SshcDns));
  }

  /** After the hooks of the first pass. */
  lemma AfterUnhooking(k: Kernel, hooks: seq<Cmd>)
    requires HookedKernel(k) && UnhooksOnce(hooks)
    ensures var k1 := RunAll(k, hooks);
      && MangleLeft(k1.mangle) && Tidy(k1.natTable) && NoHooks(k1.natTable)
      && k1.mangle.Keys <= k.mangle.Keys && k1.natTable.Keys <= k.natTable.Keys
  {
    MangleAfterUnhooking(k, hooks);
    NatAfterUnhooking(k, hooks);
  }

  ghost predicate NoHooks(tb: Table)
  {
    forall b, r | BuiltIn(b) && SshcJump(r) :: Count(tb, b, r) == 0
  }

  lemma NoHooksUnhooked(tb: Table, c: Chain)
    requires Tidy(tb) && NoHooks(tb) && IsSshc(c)
    ensures Unhooked(tb, c)
  {
    forall b, r | BuiltIn(b) && JumpsTo(r, c)
      ensures Count(tb, b, r) == 0
    {
      assert SshcJump(r);
    }
  }

  /** Dropping every chain that may exist from a table without hooks leaves it clean. */
  lemma AllDropped(k: Kernel, t: Tbl, drops: seq<Cmd>)
    requires AllSweep(drops) && Tidy(TableOf(k, t)) && NoHooks(TableOf(k, t))
    requires forall c | c in TableOf(k, t) && IsSshc(c) :: MayExist(t, c)
    requires forall c | MayExist(t, c) :: c !in TableOf(RunAll(k, drops), t)
    ensures CleanTable(TableOf(RunAll(k, drops), t))
  {
    SweepCounts(k, drops, t);
    NoneLeft(TableOf(RunAll(k, drops), t), t);
    NearlyCleanIsClean(TableOf(RunAll(k, drops), t));
  }

  /** A list that takes away every unhooked chain that may exist in nat. */
  ghost predicate DropsNat(drops: seq<Cmd>)
  {
    AllSweep(drops)
    && forall k: Kernel, c | MayExist(Nat, c) && Unhooked(k.natTable, c) :: c !in RunAll(k, drops).natTable
  }

  lemma DropPassDropsNat()
    ensures DropsNat(ForChains(CLEANUP_CHAINS, DropBoth))
  {
    ForChainsSweep(CLEANUP_CHAINS, DropBoth);
    forall k: Kernel, c | MayExist(Nat, c) && Unhooked(k.natTable, c)
      ensures c !in RunAll(k, ForChains(CLEANUP_CHAINS, DropBoth)).natTable
    {
      DropChainsGone(k, CLEANUP_CHAINS, Nat, c);
    }
  }

  lemma ThreeParts(k: Kernel, a: seq<Cmd>, b: seq<Cmd>, c: Cmd)
    ensures RunAll(k, a + b + [c]) == Exec(RunAll(RunAll(k, a), b), c)
  {
    RunConcat(k, a + b, [c]);
    RunConcat(k, a, b);
    RunOne(RunAll(RunAll(k, a), b), c);
  }

  lemma NatDropped(k: Kernel, drops: seq<Cmd>)
    requires Tidy(k.natTable) && NoHooks(k.natTable) && DropsNat(drops)
    requires forall c | c in k.natTable && IsSshc(c) :: MayExist(Nat, c)
    ensures CleanTable(RunAll(k, drops).natTable)
  {
    forall c | MayExist(Nat, c)
      ensures c !in RunAll(k, drops).natTable
    {
      NoHooksUnhooked(k.natTable, c);
    }
    AllDropped(k, Nat, drops);
  }

  /** The first pass: nat is clean, mangle keeps what MangleLeft says. */
  lemma FirstPassCleans(k: Kernel, hooks: seq<Cmd>, drops: seq<Cmd>)
    requires HookedKernel(k) && UnhooksOnce(hooks) && DropsNat(drops)
    ensures var r := RunAll(k, hooks + drops + [RouteDel]);
            CleanTable(r.natTable) && MangleLeft(r.mangle) && r.mangle.Keys <= k.mangle.Keys
  {
    var k1 := RunAll(k, hooks);
    AfterUnhooking(k, hooks);
    NatDropped(k1, drops);
    SweepKeepsMangleLeft(k1, drops);
    ThreeParts(k, hooks, drops, RouteDel);
  }

  /** No jump to an SSHC chain, and no such chain but the probe's. */
  ghost predicate NearlyClean(tb: Table)
  {
    && Prerouting in tb && Output in tb
    && (forall c | c in tb && IsSshc(c) :: c == SshcProbe)
    && (forall c, r | c in tb && r in tb[c] :: !SshcJump(r))
  }

  lemma NearlyCleanIsClean(tb: Table)
    ensures CleanTable(tb) <==> NearlyClean(tb) && SshcProbe !in tb
  {
  }

  lemma NoneLeft(tb: Table, t: Tbl)
    requires Tidy(tb) && NoHooks(tb)
    requires forall c | c in tb && IsSshc(c) :: MayExist(t, c)
    requires forall c | MayExist(t, c) && c != SshcProbe :: c !in tb
    ensures NearlyClean(tb)
  {
    forall c, r | c in tb && r in tb[c]
      ensures !SshcJump(r)
    {
      assert BuiltIn(c) ==> Count(tb, c, r) == multiset(tb[c])[r];
    }
  }

  lemma SweepKeepsMangleLeft(k: Kernel, cmds: seq<Cmd>)
    requires AllSweep(cmds) && MangleLeft(k.mangle)
    ensures MangleLeft(RunAll(k, cmds).mangle) && RunAll(k, cmds).mangle.Keys <= k.mangle.Keys
  {
    SweepCounts(k, cmds, Mangle);
  }

  lemma UdpUnhooked(k: Kernel, hook: seq<Cmd>)
    requires MangleLeft(k.mangle) && hook == [Remove(Mangle, Prerouting, PlainHook(SshcUdp))]
    ensures var m := RunAll(k, hook).mangle;
      MangleLeft(m) && m.Keys <= k.mangle.Keys && Unhooked(m, SshcUdp) && Count(m, Prerouting, PlainHook(SshcUdp)) == 0
  {
    SweepCounts(k, hook, Mangle);
    DelsIn(hook, Mangle, Prerouting, PlainHook(SshcUdp));
    assert hook[0] in hook;
    var m := RunAll(k, hook).mangle;
    forall b, r | BuiltIn(b) && JumpsTo(r, SshcUdp)
      ensures Count(m, b, r) == 0
    {
      assert SshcJump(r);
    }
  }

  /** clean_udp_tproxy: -D for one jump, then the chain. */
  lemma UdpTproxyCleans(k: Kernel)
    requires MangleLeft(k.mangle)
    ensures var m := RunAll(k, CleanUdpTproxy()).mangle;
      && MangleLeft(m) && m.Keys <= k.mangle.Keys && SshcUdp !in m && Count(m, Prerouting, PlainHook(SshcUdp)) == 0
  {
    var hook := [Remove(Mangle, Prerouting, PlainHook(SshcUdp))];
    var k1 := RunAll(k, hook);
    UdpUnhooked(k, hook);
    DropGone(k1, Mangle, SshcUdp);
    SweepKeepsMangleLeft(k1, DropChain(Mangle, SshcUdp));
    SweepCounts(k1, DropChain(Mangle, SshcUdp), Mangle);
    RunThen(k, hook, DropChain(Mangle, SshcUdp), k1, RunAll(k1, DropChain(Mangle, SshcUdp)));
  }

  /** -D for every hook that MangleLeft still allows once the SSHC_UDP hook is gone. */
  ghost predicate UnhooksIfaces(cmds: seq<Cmd>)
  {
    && AllSweep(cmds)
    && forall i | i in IFACES :: Remove(Mangle, Prerouting, IfaceTcpHook(i, SshcTcp)) in cmds
  }

  lemma TcpHooksUnhook()
    ensures UnhooksIfaces(CleanTcpHooks())
  {
    CleanTcpHooksSweep();
    forall i | i in IFACES
      ensures Remove(Mangle, Prerouting, IfaceTcpHook(i, SshcTcp)) in CleanTcpHooks()
    {
      InForIfaces(IFACES, CleanTcpIface, i, CleanTcpIface(i)[0]);
    }
  }

  lemma IfacesUnhooked(k: Kernel, hooks: seq<Cmd>)
    requires UnhooksIfaces(hooks) && MangleLeft(k.mangle) && Count(k.mangle, Prerouting, PlainHook(SshcUdp)) == 0
    ensures var m := RunAll(k, hooks).mangle; Tidy(m) && NoHooks(m) && m.Keys <= k.mangle.Keys
  {
    SweepCounts(k, hooks, Mangle);
    var m := RunAll(k, hooks).mangle;
    forall b, r | BuiltIn(b) && SshcJump(r)
      ensures Count(m, b, r) == 0
    {
      if b.Prerouting? && exists i | i in IFACES :: r == IfaceTcpHook(i, SshcTcp) {
        DelsIn(hooks, Mangle, b, r);
      }
    }
  }

  lemma DropUnhooked(k: Kernel, c: Chain)
    requires Tidy(k.mangle) && NoHooks(k.mangle) && IsSshc(c)
    ensures var m := RunAll(k, DropChain(Mangle, c)).mangle; Tidy(m) && NoHooks(m) && m.Keys <= k.mangle.Keys - {c}
  {
    NoHooksUnhooked(k.mangle, c);
    DropGone(k, Mangle, c);
    SweepCounts(k, DropChain(Mangle, c), Mangle);
  }

  lemma DropTcpChains(k: Kernel)
    requires Tidy(k.mangle) && NoHooks(k.mangle)
    ensures var m := RunAll(RunAll(k, DropChain(Mangle, SshcTcp)), DropChain(Mangle, SshcTcpOutput)).mangle;
      Tidy(m) && NoHooks(m) && m.Keys <= k.mangle.Keys - {SshcTcp, SshcTcpOutput}
  {
    DropUnhooked(k, SshcTcp);
    DropUnhooked(RunAll(k, DropChain(Mangle, SshcTcp)), SshcTcpOutput);
  }

  /** clean_tcp_tproxy: the hotspot hooks, and with them the chains. */
  lemma TcpTproxyCleans(k: Kernel, hooks: seq<Cmd>)
    requires UnhooksIfaces(hooks) && MangleLeft(k.mangle)
    requires Count(k.mangle, Prerouting, PlainHook(SshcUdp)) == 0 && SshcUdp !in k.mangle
    requires forall c | c in k.mangle && IsSshc(c) :: MayExist(Mangle, c)
    ensures NearlyClean(RunAll(k, hooks + DropChain(Mangle, SshcTcp) + DropChain(Mangle, SshcTcpOutput)).mangle)
  {
    var a, b := DropChain(Mangle, SshcTcp), DropChain(Mangle, SshcTcpOutput);
    RunConcat(k, hooks + a, b);
    RunConcat(k, hooks, a);
    IfacesUnhooked(k, hooks);
    DropTcpChains(RunAll(k, hooks));
    NoneLeft(RunAll(RunAll(RunAll(k, hooks), a), b).mangle, Mangle);
  }

  lemma UdpCleanedAfter(k: Kernel, v4: seq<Cmd>)
    requires AllSweep(v4) && MangleLeft(k.mangle)
    ensures var m := RunAll(k, v4 + CleanUdpTproxy()).mangle;
      && MangleLeft(m) && m.Keys <= k.mangle.Keys && SshcUdp !in m && Count(m, Prerouting, PlainHook(SshcUdp)) == 0
  {
    RunConcat(k, v4, CleanUdpTproxy());
    SweepKeepsMangleLeft(k, v4);
    UdpTproxyCleans(RunAll(k, v4));
  }

  /** The second pass takes what the first one left, whatever it does to the nat table before. */
  lemma SecondPassCleans(k: Kernel, v4: seq<Cmd>, hooks: seq<Cmd>)
    requires AllSweep(v4) && UnhooksIfaces(hooks) && MangleLeft(k.mangle)
    requires forall c | c in k.mangle && IsSshc(c) :: MayExist(Mangle, c)
    ensures NearlyClean(RunAll(k, v4 + CleanUdpTproxy()
              + (hooks + DropChain(Mangle, SshcTcp) + DropChain(Mangle, SshcTcpOutput)) + [RouteDel]).mangle)
  {
    var tcp := hooks + DropChain(Mangle, SshcTcp) + DropChain(Mangle, SshcTcpOutput);
    ThreeParts(k, v4 + CleanUdpTproxy(), tcp, RouteDel);
    UdpCleanedAfter(k, v4);
    TcpTproxyCleans(RunAll(k, v4 + CleanUdpTproxy()), hooks);
  }

  lemma SweepKeepsClean(k: Kernel, cmds: seq<Cmd>)
    requires AllSweep(cmds) && CleanTable(k.natTable)
    ensures CleanTable(RunAll(k, cmds).natTable)
    decreases |cmds|
  {
    if cmds != [] {
      assert Sweep(cmds[0]);
      SweepKeepsClean(Exec(k, cmds[0]), cmds[1..]);
    }
  }

  lemma BothPassesClean(k: Kernel, first: seq<Cmd>, second: seq<Cmd>)
    requires AllSweep(second)
    requires CleanTable(RunAll(k, first).natTable) && NearlyClean(RunAll(RunAll(k, first), second).mangle)
    ensures CleanTable(RunAll(k, first + second).natTable) && NearlyClean(RunAll(k, first + second).mangle)
  {
    RunConcat(k, first, second);
    SweepKeepsClean(RunAll(k, first), second);
  }

  lemma FirstPassResult(k: Kernel)
    requires HookedKernel(k)
    ensures var r := RunAll(k, Cleanup([]));
            CleanTable(r.natTable) && MangleLeft(r.mangle) && r.mangle.Keys <= k.mangle.Keys
  {
    HookPassUnhooks();
    DropPassDropsNat();
    FirstPassCleans(k, HookPass(), ForChains(CLEANUP_CHAINS, DropBoth));
  }

  lemma SecondPassResult(k: Kernel)
    requires MangleLeft(k.mangle) && forall c | c in k.mangle && IsSshc(c) :: MayExist(Mangle, c)
    ensures NearlyClean(RunAll(k, SecondPass()).mangle) && AllSweep(SecondPass())
  {
    NetCleanSweeps();
    CleanV4Sweeps();
    TcpHooksUnhook();
    SecondPassCleans(k, CleanV4(), CleanTcpHooks());
  }

  // ------------------------------------------------------------ the one chain that net_clean forgets

  lemma {:induction false} KeepsChain(k: Kernel, cmds: seq<Cmd>, t: Tbl, c: Chain)
    requires Delete(t, c) !in cmds && New(t, c) !in cmds
    ensures c in TableOf(RunAll(k, cmds), t) <==> c in TableOf(k, t)
    decreases |cmds|
  {
    if cmds != [] {
      assert cmds == [cmds[0]] + cmds[1..];
      OneKeepsChain(k, cmds[0], t, c);
      KeepsChain(Exec(k, cmds[0]), cmds[1..], t, c);
    }
  }

  lemma OtherTableKept(k: Kernel, cmd: Cmd, t: Tbl)
    requires cmd.RouteAdd? || cmd.RouteDel? || cmd.t != t
    ensures TableOf(Exec(k, cmd), t) == TableOf(k, t)
  {
  }

  lemma OneKeepsChain(k: Kernel, cmd: Cmd, t: Tbl, c: Chain)
    requires cmd != Delete(t, c) && cmd != New(t, c)
    ensures c in TableOf(Exec(k, cmd), t) <==> c in TableOf(k, t)
  {
    if cmd.RouteAdd? || cmd.RouteDel? || cmd.t != t {
      OtherTableKept(k, cmd, t);
    } else if Succeeds(k, cmd) {
      SucceedingKeepsChain(k, cmd, c);
    }
  }

  lemma UpdateKeepsKeys(tb: Table, c: Chain, rules: seq<Rule>)
    requires c in tb
    ensures tb[c := rules].Keys == tb.Keys
  {
  }

  lemma SucceedingNewOrDelete(k: Kernel, cmd: Cmd, c: Chain)
    requires (cmd.New? || cmd.Delete?) && Succeeds(k, cmd) && cmd != Delete(cmd.t, c) && cmd != New(cmd.t, c)
    ensures c in TableOf(Exec(k, cmd), cmd.t) <==> c in TableOf(k, cmd.t)
  {
    var tb, tb' := TableOf(k, cmd.t), TableOf(Exec(k, cmd), cmd.t);
    if cmd.New? {
      assert tb' == tb[cmd.c := []];
    } else {
      assert tb' == tb - {cmd.c};
    }
  }

  lemma SucceedingKeepsChain(k: Kernel, cmd: Cmd, c: Chain)
    requires !cmd.RouteAdd? && !cmd.RouteDel? && Succeeds(k, cmd) && cmd != Delete(cmd.t, c) && cmd != New(cmd.t, c)
    ensures c in TableOf(Exec(k, cmd), cmd.t) <==> c in TableOf(k, cmd.t)
  {
    if cmd.New? || cmd.Delete? {
      SucceedingNewOrDelete(k, cmd, c);
    } else {
      var tb, tb' := TableOf(k, cmd.t), TableOf(Exec(k, cmd), cmd.t);
      assert tb' == tb[cmd.c := tb'[cmd.c]];
      UpdateKeepsKeys(tb, cmd.c, tb'[cmd.c]);
    }
  }

  /** Lists that neither drop nor create nor empty the probe's chain. */
  ghost predicate SparesProbe(cmds: seq<Cmd>)
  {
    forall cmd | cmd in cmds ::
      cmd != Delete(Mangle, SshcProbe) && cmd != New(Mangle, SshcProbe) && cmd != Flush(Mangle, SshcProbe)
  }

  lemma {:induction false} ChainsSpareProbe(chains: seq<Chain>, f: Chain -> seq<Cmd>)
    requires forall c | c in chains :: SparesProbe(f(c))
    ensures SparesProbe(ForChains(chains, f))
  {
    if chains != [] {
      ChainsSpareProbe(chains[..|chains| - 1], f);
    }
  }

  lemma {:induction false} IfacesSpareProbe(ifaces: seq<string>, f: string -> seq<Cmd>)
    requires forall i :: SparesProbe(f(i))
    ensures SparesProbe(ForIfaces(ifaces, f))
  {
    if ifaces != [] {
      IfacesSpareProbe(ifaces[..|ifaces| - 1], f);
    }
  }

  lemma RemovalsSpareProbe(cmds: seq<Cmd>)
    requires forall i | 0 <= i < |cmds| :: cmds[i].Remove?
    ensures SparesProbe(cmds)
  {
  }

  lemma UnhookingSparesProbe(c: Chain, ifaces: seq<string>)
    ensures SparesProbe(CleanupChain(c, ifaces)) && SparesProbe(CleanV4Chain(c))
  {
    RemovalsSpareProbe(CleanupHooksOf(c));
    RemovalsSpareProbe(CleanV4HooksOf(c));
    IfacesSpareProbe(ifaces, i => CleanupIface(i, c));
    IfacesSpareProbe(IFACES, i => CleanV4Iface(i, c));
  }

  lemma UnhookLoopsSpareProbe(chains: seq<Chain>, ifaces: seq<string>)
    ensures SparesProbe(ForChains(chains, c => CleanupChain(c, ifaces))) && SparesProbe(ForChains(chains, CleanV4Chain))
  {
    forall c
      ensures SparesProbe(CleanupChain(c, ifaces)) && SparesProbe(CleanV4Chain(c))
    {
      UnhookingSparesProbe(c, ifaces);
    }
    ChainsSpareProbe(chains, c => CleanupChain(c, ifaces));
    ChainsSpareProbe(chains, CleanV4Chain);
  }

  lemma DropLoopsSpareProbe(chains: seq<Chain>)
    requires SshcProbe !in chains
    ensures SparesProbe(ForChains(chains, DropBoth)) && SparesProbe(ForChains(chains, c => DropChain(Nat, c)))
  {
    ChainsSpareProbe(chains, DropBoth);
    ChainsSpareProbe(chains, c => DropChain(Nat, c));
  }

  lemma CleanupSparesProbe(ifaces: seq<string>)
    ensures SparesProbe(Cleanup(ifaces))
  {
    UnhookLoopsSpareProbe(CLEANUP_HOOKS, ifaces);
    DropLoopsSpareProbe(CLEANUP_CHAINS);
  }

  lemma SecondPassSparesProbe()
    ensures SparesProbe(SecondPass())
  {
    UnhookLoopsSpareProbe(CLEAN_V4_CHAINS, []);
    DropLoopsSpareProbe(CLEAN_V4_CHAINS);
    IfacesSpareProbe(IFACES, CleanTcpIface);
    assert SparesProbe(CleanV4());
    assert SparesProbe(CleanUdpTproxy());
    assert SparesProbe(CleanTcpTproxy());
  }

  lemma NetCleanSparesProbe()
    ensures SparesProbe(NetClean())
  {
    CleanupSparesProbe([]);
    SecondPassSparesProbe();
  }

  /** net_clean.sh on whatever the daemon left, wherever it was cut off: no jump to an SSHC chain and
      no SSHC chain remains in mangle or nat, except the chain of enable's TPROXY probe if that was
      left behind; so the result is clean if and only if it was not. */
  lemma NetCleanCleans(k: Kernel)
    requires HookedKernel(k)
    ensures var r := RunAll(k, NetClean());
      && NearlyClean(r.mangle) && CleanTable(r.natTable)
      && (SshcProbe in r.mangle <==> SshcProbe in k.mangle)
      && (Clean(r) <==> SshcProbe !in k.mangle)
  {
    FirstPassResult(k);
    SecondPassResult(RunAll(k, Cleanup([])));
    BothPassesClean(k, Cleanup([]), SecondPass());
    NetCleanSparesProbe();
    KeepsChain(k, NetClean(), Mangle, SshcProbe);
    NearlyCleanIsClean(RunAll(k, NetClean()).mangle);
  }
}
