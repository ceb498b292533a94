/** What the cleaning scripts take that the daemon of today does not put there: the chains that earlier releases left
    in nat, hooks in unused forms, and the mark route. */
module NetLegacy {
  import opened Netfilter
  import opened NetScripts
  import opened NetForeign
  import opened NetHooks

  /** The chains of earlier releases. */
  predicate Legacy(c: Chain) { c in {SshcOutput, SshcPrerouting, SshcProxy, SshcHotspot, SshcHotspotDns} }

  /** The hooks that those releases put in front of their chains. */
  predicate LegacyHook(b: Chain, r: Rule, c: Chain)
  {
    if b.Output? then
      r in {Rule([ProtoIs(Tcp)], Jump(c)), Rule([], Jump(c)), Rule([ProtoIs(Udp), DportIs(53)], Jump(c))}
    else
      || r in {Rule([ProtoIs(Tcp)], Jump(c)), Rule([], Jump(c))}
      || exists i | i in {"wlan+", "swlan+", "ap+", "rndis+", "ncm+", "bt-pan+"} ::
           r in {Rule([InIface(i), ProtoIs(Tcp)], Jump(c)), Rule([InIface(i)], Jump(c))}
  }

  /** At most one copy of each. */
  ghost predicate HookedOnce(n: Table, c: Chain)
  {
    Tidy(n) && forall b, r | BuiltIn(b) && JumpsTo(r, c) :: Count(n, b, r) <= if LegacyHook(b, r, c) then 1 else 0
  }

  function V4Hooks(): seq<Cmd> { ForChains(CLEAN_V4_CHAINS, CleanV4Chain) }

  function V4Drops(): seq<Cmd> { ForChains(CLEAN_V4_CHAINS, c => DropChain(Nat, c)) }

  lemma InV4Chain(b: Chain, r: Rule, c: Chain)
    requires BuiltIn(b) && LegacyHook(b, r, c)
    ensures Remove(Nat, b, r) in CleanV4Chain(c)
  {
    var named := CleanV4HooksOf(c);
    if b.Output? || r in {Rule([ProtoIs(Tcp)], Jump(c)), Rule([], Jump(c))} {
      assert Remove(Nat, b, r) in named by {
        assert named[0] in named && named[1] in named && named[2] in named && named[3] in named && named[4] in named;
      }
    } else {
      var i :| i in {"wlan+", "swlan+", "ap+", "rndis+", "ncm+", "bt-pan+"}
        && r in {Rule([InIface(i), ProtoIs(Tcp)], Jump(c)), Rule([InIface(i)], Jump(c))};
      AllIfaces(i);
      assert CleanV4Iface(i, c)[0] in CleanV4Iface(i, c) && CleanV4Iface(i, c)[1] in CleanV4Iface(i, c);
      InForIfaces(IFACES, x => CleanV4Iface(x, c), i, Remove(Nat, b, r));
    }
  }

  lemma AllIfaces(i: string)
    requires i in {"wlan+", "swlan+", "ap+", "rndis+", "ncm+", "bt-pan+"}
    ensures i in IFACES
  {
  }

  lemma InV4Hooks(b: Chain, r: Rule, c: Chain)
    requires BuiltIn(b) && LegacyHook(b, r, c) && Legacy(c)
    ensures Remove(Nat, b, r) in V4Hooks()
  {
    InV4Chain(b, r, c);
    InForChains(CLEAN_V4_CHAINS, CleanV4Chain, c, Remove(Nat, b, r));
  }

  lemma {:induction false} DropsGone(k: Kernel, chains: seq<Chain>, c: Chain)
    requires c in chains && (forall d | d in chains :: IsSshc(d)) && Unhooked(k.natTable, c)
    ensures c !in RunAll(k, ForChains(chains, d => DropChain(Nat, d))).natTable
  {
    var drop := (d: Chain) => DropChain(Nat, d);
    var init, last := chains[..|chains| - 1], chains[|chains| - 1];
    var k1 := RunAll(k, ForChains(init, drop));
    ForChainsSweep(init, drop);
    RunConcat(k, ForChains(init, drop), DropChain(Nat, last));
    UnhookedStays(k, ForChains(init, drop), Nat, c);
    if c == last {
      DropGone(k1, Nat, c);
    } else {
      DropsGone(k, init, c);
      GoneStays(k1, DropChain(Nat, last), Nat, c);
    }
  }

  lemma UnhookedOnce(k: Kernel, hooks: seq<Cmd>, c: Chain)
    requires AllSweep(hooks) && HookedOnce(k.natTable, c)
    requires forall b, r | BuiltIn(b) && LegacyHook(b, r, c) :: Remove(Nat, b, r) in hooks
    ensures Unhooked(RunAll(k, hooks).natTable, c)
  {
    SweepCounts(k, hooks, Nat);
    forall b, r | BuiltIn(b) && JumpsTo(r, c)
      ensures Count(RunAll(k, hooks).natTable, b, r) == 0
    {
      DelsIn(hooks, Nat, b, r);
    }
  }

  lemma SweepKeepsOnce(k: Kernel, cmds: seq<Cmd>, c: Chain)
    requires AllSweep(cmds) && HookedOnce(k.natTable, c)
    ensures HookedOnce(RunAll(k, cmds).natTable, c)
  {
    SweepCounts(k, cmds, Nat);
    forall b, r | BuiltIn(b) && JumpsTo(r, c)
      ensures Count(RunAll(k, cmds).natTable, b, r) <= if LegacyHook(b, r, c) then 1 else 0
    {
      assert Count(k.natTable, b, r) <= if LegacyHook(b, r, c) then 1 else 0;
    }
  }

  lemma V4Cleans(k: Kernel, c: Chain)
    requires HookedOnce(k.natTable, c) && Legacy(c)
    ensures c !in RunAll(k, CleanV4()).natTable && Tidy(RunAll(k, CleanV4()).natTable)
  {
    UnhookV4Sweeps(CLEAN_V4_CHAINS);
    CleanV4Sweeps();
    forall b, r | BuiltIn(b) && LegacyHook(b, r, c)
      ensures Remove(Nat, b, r) in V4Hooks()
    {
      InV4Hooks(b, r, c);
    }
    UnhookedOnce(k, V4Hooks(), c);
    DropsGone(RunAll(k, V4Hooks()), CLEAN_V4_CHAINS, c);
    RunConcat(k, V4Hooks(), V4Drops());
    SweepCounts(k, CleanV4(), Nat);
  }

  lemma InThree(k: Kernel, a: seq<Cmd>, b: seq<Cmd>, rest: seq<Cmd>, c: Chain)
    requires c !in RunAll(RunAll(k, a), b).natTable && Tidy(RunAll(RunAll(k, a), b).natTable) && AllSweep(rest)
    ensures c !in RunAll(k, a + (b + rest)).natTable
  {
    RunConcat(k, a, b + rest);
    RunConcat(RunAll(k, a), b, rest);
    GoneStays(RunAll(RunAll(k, a), b), rest, Nat, c);
  }

  lemma SecondPassParts() returns (rest: seq<Cmd>)
    ensures NetClean() == Cleanup([]) + (CleanV4() + rest) && AllSweep(rest)
  {
    rest := CleanUdpTproxy() + CleanTcpTproxy() + [RouteDel];
    CleanTproxySweeps();
    Regrouped(CleanV4(), CleanUdpTproxy(), CleanTcpTproxy(), [RouteDel]);
  }

  lemma Regrouped(a: seq<Cmd>, b: seq<Cmd>, c: seq<Cmd>, d: seq<Cmd>)
    ensures a + b + c + d == a + (b + c + d)
  {
  }

  /** A chain that an earlier release left in nat, hooked in any of its ways, is gone after net_clean. */
  lemma LegacyChainsGo(k: Kernel, c: Chain)
    requires HookedOnce(k.natTable, c) && Legacy(c)
    ensures c !in RunAll(k, NetClean()).natTable
  {
    var rest := SecondPassParts();
    CleanupSweeps([]);
    SweepKeepsOnce(k, Cleanup([]), c);
    V4Cleans(RunAll(k, Cleanup([])), c);
    InThree(k, Cleanup([]), CleanV4(), rest, c);
  }

  /** The hooks that cleanup() names for chain c, given its list of interfaces. */
  predicate CleanupHook(t: Tbl, b: Chain, r: Rule, c: Chain, ifaces: seq<string>)
  {
    if b.Output? then
      if t.Mangle? then r in {Rule([ProtoIs(Tcp)], Jump(c)), Rule([], Jump(c))}
      else r in {Rule([ProtoIs(Tcp)], Jump(c)), Rule([ProtoIs(Udp), DportIs(53)], Jump(c))}
    else
      || r == Rule([ProtoIs(Tcp)], Jump(c)) || (t.Mangle? && r == Rule([], Jump(c)))
      || exists i | i in ifaces :: r == Rule([InIface(i), ProtoIs(Tcp)], Jump(c))
  }

  lemma InCleanupChain(t: Tbl, b: Chain, r: Rule, c: Chain, ifaces: seq<string>)
    requires BuiltIn(b) && CleanupHook(t, b, r, c, ifaces)
    ensures Remove(t, b, r) in CleanupChain(c, ifaces)
  {
    var named := CleanupHooksOf(c);
    assert named[0] in named && named[1] in named && named[2] in named && named[3] in named;
    assert named[4] in named && named[5] in named && named[6] in named;
    if Remove(t, b, r) !in named {
      var i :| i in ifaces && r == Rule([InIface(i), ProtoIs(Tcp)], Jump(c));
      assert CleanupIface(i, c)[0] in CleanupIface(i, c) && CleanupIface(i, c)[1] in CleanupIface(i, c);
      InForIfaces(ifaces, x => CleanupIface(x, c), i, Remove(t, b, r));
    }
  }

  /** A hook that stands once is gone after cleanup(): for each of its five chains, in every form that it names. */
  lemma CleanupUnhooks(k: Kernel, t: Tbl, b: Chain, r: Rule, c: Chain, ifaces: seq<string>)
    requires c in {SshcTcp, SshcTcpOutput, SshcUdp, SshcDns, SshcDrop6}
    requires BuiltIn(b) && CleanupHook(t, b, r, c, ifaces)
    requires Tidy(TableOf(k, t)) && Count(TableOf(k, t), b, r) <= 1
    ensures Count(TableOf(RunAll(k, Cleanup(ifaces)), t), b, r) == 0
  {
    var chain := (x: Chain) => CleanupChain(x, ifaces);
    InCleanupChain(t, b, r, c, ifaces);
    CleanupChains(c);
    InForChains(CLEANUP_HOOKS, chain, c, Remove(t, b, r));
    CleanupSweeps(ifaces);
    SweepCounts(k, Cleanup(ifaces), t);
    DelsIn(Cleanup(ifaces), t, b, r);
  }

  lemma CleanupChains(c: Chain)
    requires c in {SshcTcp, SshcTcpOutput, SshcUdp, SshcDns, SshcDrop6}
    ensures c in CLEANUP_HOOKS
  {
  }

  /** The mark route goes with every cleanup, whatever the kernel. */
  lemma RouteGoes(k: Kernel, ifaces: seq<string>)
    ensures !RunAll(k, Cleanup(ifaces)).route && !RunAll(k, NetClean()).route
  {
    LastIsRouteDel(k, ForChains(CLEANUP_HOOKS, c => CleanupChain(c, ifaces)) + ForChains(CLEANUP_CHAINS, DropBoth));
    LastIsRouteDel(RunAll(k, Cleanup([])), CleanV4() + CleanUdpTproxy() + CleanTcpTproxy());
    RunConcat(k, Cleanup([]), SecondPass());
  }

  lemma LastIsRouteDel(k: Kernel, cmds: seq<Cmd>)
    ensures !RunAll(k, cmds + [RouteDel]).route
  {
    RunConcat(k, cmds, [RouteDel]);
    RunOne(RunAll(k, cmds), RouteDel);
  }
}
