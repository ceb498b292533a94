/** What one connect leaves, whole or cut off, and why net_clean needs its second pass. */
module NetRuns {
  import opened Seqs
  import opened Netfilter
  import opened NetScripts
  import opened NetForeign
  import opened NetShape
  import opened NetHooks
  import opened NetRestart
  import opened NetInserts

  // ---------------------------------------------------------------------------
  // What one connect leaves on a clean kernel.

  /** Filling a chain and hooking it adds that one hook. */
  lemma HookedCounts(tb: Table, c: Chain, rules: seq<Rule>, b: Chain, hook: Rule)
    requires Tidy(tb) && IsSshc(c) && BuiltIn(b) && SshcJump(hook) && forall r | r in rules :: !r.target.Jump?
    ensures Tidy(Hooked(tb, c, rules, b, hook)) && Hooked(tb, c, rules, b, hook).Keys == tb.Keys + {c}
    ensures forall d, r | BuiltIn(d) ::
              Count(Hooked(tb, c, rules, b, hook), d, r) == Count(tb, d, r) + (if d == b && r == hook then 1 else 0)
  {
    assert multiset([hook] + tb[b]) == multiset{hook} + multiset(tb[b]);
  }

  lemma {:induction false} IfaceHookOnce(ifaces: seq<string>, r: Rule)
    requires Distinct(ifaces)
    ensures multiset(IfaceHooks(ifaces))[r] <= 1
    ensures multiset(IfaceHooks(ifaces))[r] == 1 ==> exists i | i in ifaces :: r == IfaceTcpHook(i, SshcTcp)
  {
    if ifaces != [] {
      var init, last := ifaces[..|ifaces| - 1], ifaces[|ifaces| - 1];
      IfaceHookOnce(init, r);
      assert multiset(IfaceHooks(ifaces)) == multiset{IfaceTcpHook(last, SshcTcp)} + multiset(IfaceHooks(init));
      assert last !in init;
      if multiset(IfaceHooks(init))[r] == 1 {
        var i :| i in init && r == IfaceTcpHook(i, SshcTcp);
        assert IfaceTcpHook(i, SshcTcp).matches[0].pattern == i;
        assert IfaceTcpHook(last, SshcTcp).matches[0].pattern == last;
        assert i in ifaces;
      } else if r == IfaceTcpHook(last, SshcTcp) {
        assert last in ifaces;
      }
    }
  }

  lemma HotspotHooksOnce(p: Params, r: Rule)
    ensures multiset(HotspotHooks(p))[r] <= 1
    ensures multiset(HotspotHooks(p))[r] == 1 ==> exists i | i in IFACES :: r == IfaceTcpHook(i, SshcTcp)
  {
    IfaceHookOnce(IFACES, r);
  }

  /** mangle PREROUTING with `udp` jumps to SSHC_UDP, the other tables as one connect leaves them. */
  ghost predicate ConnectedMangle(m: Table, udp: nat)
  {
    && Tidy(m)
    && (forall c | c in m && IsSshc(c) :: MayExist(Mangle, c))
    && (forall b, r | BuiltIn(b) && SshcJump(r) ::
          Count(m, b, r) <= if b.Prerouting? && r == PlainHook(SshcUdp) then udp else Limit(Mangle, b, r))
    && Count(m, Prerouting, PlainHook(SshcUdp)) == udp
  }

  lemma CleanCounts(tb: Table)
    requires CleanTable(tb)
    ensures Tidy(tb) && NoHooks(tb)
  {
    forall b, r | BuiltIn(b) && SshcJump(r)
      ensures Count(tb, b, r) == 0
    {
      CleanHasNoHook(tb, b, r);
    }
  }

  predicate TcpHookOf(b: Chain, r: Rule) { r == TcpHook(if b.Output? then SshcTcpOutput else SshcTcp) }

  lemma BaseHooks(tb: Table, tcp: seq<Rule>, out: seq<Rule>)
    requires CleanTable(tb) && forall r | r in tcp || r in out :: !r.target.Jump?
    ensures var base := BaseWith(tb, tcp, out);
      && Tidy(base) && base.Keys == tb.Keys + {SshcTcp, SshcTcpOutput}
      && (forall b, r | BuiltIn(b) && SshcJump(r) :: Count(base, b, r) == if TcpHookOf(b, r) then 1 else 0)
  {
    CleanCounts(tb);
    HookedCounts(tb, SshcTcp, tcp, Prerouting, TcpHook(SshcTcp));
    HookedCounts(Hooked(tb, SshcTcp, tcp, Prerouting, TcpHook(SshcTcp)), SshcTcpOutput, out, Output,
        TcpHook(SshcTcpOutput));
  }

  lemma ConnectedLimit(b: Chain, r: Rule, hotspot: nat)
    requires BuiltIn(b) && hotspot <= 1 && (hotspot == 1 ==> exists i | i in IFACES :: r == IfaceTcpHook(i, SshcTcp))
    ensures (if TcpHookOf(b, r) then 1 else 0) + (if b.Prerouting? then hotspot else 0)
            <= if b.Prerouting? && r == PlainHook(SshcUdp) then 0 else Limit(Mangle, b, r)
  {
    IfaceHookIsNotPlain(SshcTcp);
    IfaceHookIsNotPlain(SshcUdp);
    assert |TcpHook(SshcTcp).matches| == 1 && |PlainHook(SshcUdp).matches| == 0;
  }

  lemma BaseCounts(tb: Table, tcp: seq<Rule>, out: seq<Rule>, hooks: seq<Rule>)
    requires CleanTable(tb)
    requires forall r | r in tcp || r in out :: !r.target.Jump?
    requires forall r ::
               && multiset(hooks)[r] <= 1
               && (multiset(hooks)[r] == 1 ==> exists i | i in IFACES :: r == IfaceTcpHook(i, SshcTcp))
    ensures var base := BaseWith(tb, tcp, out);
            ConnectedMangle(base[Prerouting := hooks + base[Prerouting]], 0)
  {
    var base := BaseWith(tb, tcp, out);
    BaseHooks(tb, tcp, out);
    AddHooks(base, hooks);
    var m := base[Prerouting := hooks + base[Prerouting]];
    forall b, r | BuiltIn(b) && SshcJump(r)
      ensures Count(m, b, r) <= if b.Prerouting? && r == PlainHook(SshcUdp) then 0 else Limit(Mangle, b, r)
    {
      ConnectedLimit(b, r, multiset(hooks)[r]);
    }
  }

  lemma AddHooks(tb: Table, hooks: seq<Rule>)
    requires Tidy(tb)
    ensures var m := tb[Prerouting := hooks + tb[Prerouting]];
      && Tidy(m) && m.Keys == tb.Keys
      && forall b, r | BuiltIn(b) :: Count(m, b, r) == Count(tb, b, r) + if b.Prerouting? then multiset(hooks)[r] else 0
  {
    assert multiset(hooks + tb[Prerouting]) == multiset(hooks) + multiset(tb[Prerouting]);
  }

  /** One more jump to SSHC_UDP, and the chain refilled. */
  lemma UdpHookAdded(m: Table, rules: seq<Rule>, udp: nat)
    requires ConnectedMangle(m, udp) && forall r | r in rules :: !r.target.Jump?
    ensures ConnectedMangle(Hooked(m, SshcUdp, rules, Prerouting, PlainHook(SshcUdp)), udp + 1)
  {
    HookedCounts(m, SshcUdp, rules, Prerouting, PlainHook(SshcUdp));
  }

  lemma NearlyCleanHasNoHooks(tb: Table)
    requires NearlyClean(tb)
    ensures Tidy(tb) && NoHooks(tb)
  {
    forall b, r | BuiltIn(b) && SshcJump(r)
      ensures Count(tb, b, r) == 0
    {
      if b in tb {
        assert r !in tb[b];
      }
    }
  }

  lemma NearlyCleanIsConnected(m: Table)
    requires NearlyClean(m)
    ensures ConnectedMangle(m, 0)
  {
    NearlyCleanHasNoHooks(m);
  }

  lemma TproxyNat(n: Table, rules: seq<Rule>)
    requires CleanTable(n) && forall r | r in rules :: !r.target.Jump?
    ensures HookedTable(Hooked(n, SshcDns, rules, Output, DnsHook(SshcDns)), Nat)
  {
    CleanCounts(n);
    HookedCounts(n, SshcDns, rules, Output, DnsHook(SshcDns));
  }

  lemma RedirectHooks(n: Table, tcp: seq<Rule>, out: seq<Rule>)
    requires CleanTable(n) && forall r | r in tcp || r in out :: !r.target.Jump?
    ensures var base := RedirectWith(n, tcp, out);
      && Tidy(base) && base.Keys == n.Keys + {SshcTcp, SshcTcpOutput}
      && (forall b, r | BuiltIn(b) && SshcJump(r) :: Count(base, b, r) == if TcpHookOf(b, r) then 1 else 0)
  {
    CleanCounts(n);
    HookedCounts(n, SshcTcpOutput, out, Output, TcpHook(SshcTcpOutput));
    HookedCounts(Hooked(n, SshcTcpOutput, out, Output, TcpHook(SshcTcpOutput)), SshcTcp, tcp, Prerouting,
        TcpHook(SshcTcp));
  }

  lemma RedirectNatCounts(n: Table, tcp: seq<Rule>, out: seq<Rule>, dns: seq<Rule>)
    requires CleanTable(n) && forall r | r in tcp || r in out || r in dns :: !r.target.Jump?
    ensures HookedTable(Hooked(RedirectWith(n, tcp, out), SshcDns, dns, Output, DnsHook(SshcDns)), Nat)
  {
    RedirectHooks(n, tcp, out);
    HookedCounts(RedirectWith(n, tcp, out), SshcDns, dns, Output, DnsHook(SshcDns));
  }

  lemma TproxyMangleCounts(tb: Table, tcp: seq<Rule>, out: seq<Rule>, hooks: seq<Rule>, udp: seq<Rule>)
    requires CleanTable(tb)
    requires forall r | r in tcp || r in out || r in udp :: !r.target.Jump?
    requires forall r ::
               && multiset(hooks)[r] <= 1
               && (multiset(hooks)[r] == 1 ==> exists i | i in IFACES :: r == IfaceTcpHook(i, SshcTcp))
    ensures var base := BaseWith(tb, tcp, out);
            ConnectedMangle(Hooked(base[Prerouting := hooks + base[Prerouting]], SshcUdp, udp, Prerouting,
                PlainHook(SshcUdp)), 1)
  {
    BaseCounts(tb, tcp, out, hooks);
    var base := BaseWith(tb, tcp, out);
    UdpHookAdded(base[Prerouting := hooks + base[Prerouting]], udp, 0);
  }

  lemma TproxyCounts(k: Kernel, p: Params)
    requires Clean(k)
    ensures ConnectedMangle(TproxyTables(k, p).mangle, 1) && HookedTable(TproxyTables(k, p).natTable, Nat)
  {
    TcpChainsDoNotJump(p);
    var hooks := HotspotHooks(p);
    forall r
      ensures multiset(hooks)[r] <= 1
      ensures multiset(hooks)[r] == 1 ==> exists i | i in IFACES :: r == IfaceTcpHook(i, SshcTcp)
    {
      HotspotHooksOnce(p, r);
    }
    TproxyMangleCounts(k.mangle, MangleTcp(p), MangleTcpOutput(p), hooks, UdpRules(p));
    TproxyNat(k.natTable, DnsRules(p));
  }

  lemma RedirectCounts(k: Kernel, p: Params)
    requires Clean(k)
    ensures ConnectedMangle(RedirectTables(k, p).mangle, 0) && HookedTable(RedirectTables(k, p).natTable, Nat)
  {
    TcpChainsDoNotJump(p);
    NearlyCleanIsClean(k.mangle);
    NearlyCleanIsConnected(k.mangle);
    RedirectNatCounts(k.natTable, NatTcp(p), NatTcpOutput(p), DnsRules(p));
  }

  /** Enabling leaves one jump to SSHC_UDP where TPROXY is supported and none elsewhere. */
  lemma EnableCounts(k: Kernel, p: Params)
    requires Cleaned(k)
    ensures ConnectedMangle(Enable(k, p).mangle, if Probed(k) then 1 else 0) && HookedTable(Enable(k, p).natTable, Nat)
  {
    EnableOnCleaned(k, p);
    EnableOnClean(WithoutProbe(k), p);
    if Probed(k) {
      TproxyCounts(WithoutProbe(k), p);
    } else {
      RedirectCounts(WithoutProbe(k), p);
    }
  }

  /** What the first connect of a run does: the script if transparent proxying is on, then the
      insertions of the loop in any case. */
  function Connect(k: Kernel, p: Params, transparent: bool): Kernel
  {
    RunAll(if transparent then Enable(k, p) else k, GoInsert(p))
  }

  lemma ConnectCounts(k: Kernel, p: Params, transparent: bool)
    requires Cleaned(k)
    ensures HookedKernel(Connect(k, p, transparent))
    ensures Count(Connect(k, p, transparent).mangle, Prerouting, PlainHook(SshcUdp))
            == if transparent && Probed(k) then 2 else 1
    ensures SshcUdp in Connect(k, p, transparent).mangle
  {
    var k1 := if transparent then Enable(k, p) else k;
    var udp := if transparent && Probed(k) then 1 else 0;
    if transparent {
      EnableCounts(k, p);
    } else {
      NearlyCleanIsConnected(k.mangle);
      CleanCounts(k.natTable);
    }
    GoInsertRun(k1, p);
    var rules := if k1.tproxy then UdpRules(p) else UdpRules(p)[..2];
    UdpHookAdded(k1.mangle, rules, udp);
    ConnectedWithinLimits(Hooked(k1.mangle, SshcUdp, rules, Prerouting, PlainHook(SshcUdp)), udp + 1);
  }

  lemma ConnectedWithinLimits(m: Table, udp: nat)
    requires ConnectedMangle(m, udp) && udp <= 2
    ensures HookedTable(m, Mangle)
  {
  }

  // ---------------------------------------------------------------------------
  // Why net_clean needs its second pass.

  /** -X fails while a jump to the chain stands. */
  lemma HookedChainSurvives(k: Kernel, cmd: Cmd, c: Chain, b: Chain, r: Rule)
    requires Sweep(cmd) && c in k.mangle && JumpsTo(r, c) && Count(k.mangle, b, r) >= 1
    ensures c in Exec(k, cmd).mangle
  {
    if cmd == Delete(Mangle, c) {
      assert r in k.mangle[b];
      assert SomeJump(k.mangle[b], c);
    } else {
      OneKeepsChain(k, cmd, Mangle, c);
    }
  }

  lemma {:induction false} HookedChainStays(k: Kernel, cmds: seq<Cmd>, c: Chain, b: Chain, r: Rule)
    requires AllSweep(cmds) && Tidy(k.mangle) && c in k.mangle && BuiltIn(b) && JumpsTo(r, c)
    requires Count(RunAll(k, cmds).mangle, b, r) >= 1
    ensures c in RunAll(k, cmds).mangle
    decreases |cmds|
  {
    if cmds != [] {
      SweepCounts(k, cmds, Mangle);
      HookedChainSurvives(k, cmds[0], c, b, r);
      SweepStep(k, cmds[0], Mangle);
      HookedChainStays(Exec(k, cmds[0]), cmds[1..], c, b, r);
    }
  }

  lemma {:induction false} DelsNone(cmds: seq<Cmd>, t: Tbl, b: Chain, r: Rule)
    requires Remove(t, b, r) !in cmds
    ensures Dels(cmds, t, b, r) == 0
  {
    DelsIn(cmds, t, b, r);
  }

  lemma {:induction false} DelsForChains(chains: seq<Chain>, f: Chain -> seq<Cmd>, c: Chain, t: Tbl, b: Chain, r: Rule)
    requires Distinct(chains)
    requires forall d | d in chains :: Dels(f(d), t, b, r) == if d == c then 1 else 0
    ensures Dels(ForChains(chains, f), t, b, r) == if c in chains then 1 else 0
  {
    if chains != [] {
      var init, last := chains[..|chains| - 1], chains[|chains| - 1];
      DelsForChains(init, f, c, t, b, r);
      DelsConcat(ForChains(init, f), f(last), t, b, r);
      assert chains == init + [last];
      assert last !in init;
    }
  }

  lemma OneOfSeveral(cmds: seq<Cmd>, i: nat, t: Tbl, b: Chain, r: Rule)
    requires i < |cmds| && forall k | 0 <= k < |cmds| && k != i :: cmds[k] != Remove(t, b, r)
    ensures Dels(cmds, t, b, r) == if cmds[i] == Remove(t, b, r) then 1 else 0
  {
    assert cmds == cmds[..i] + ([cmds[i]] + cmds[i + 1..]);
    DelsConcat(cmds[..i], [cmds[i]] + cmds[i + 1..], t, b, r);
    DelsConcat([cmds[i]], cmds[i + 1..], t, b, r);
    DelsNone(cmds[..i], t, b, r);
    DelsNone(cmds[i + 1..], t, b, r);
    assert [cmds[i]][1..] == [];
  }

  lemma PlainHookDeletedOnce(c: Chain)
    ensures Dels(CleanupChain(c, []), Mangle, Prerouting, PlainHook(SshcUdp)) == if c == SshcUdp then 1 else 0
  {
    var cmds := CleanupHooksOf(c);
    assert TcpHook(c).matches[0] == ProtoIs(Tcp) && DnsHook(c).matches[0] == ProtoIs(Udp);
    OneOfSeveral(cmds, 1, Mangle, Prerouting, PlainHook(SshcUdp));
    assert CleanupChain(c, []) == cmds;
  }

  lemma HookPassDeletesUdpOnce()
    ensures Dels(HookPass(), Mangle, Prerouting, PlainHook(SshcUdp)) == 1
  {
    forall c | c in CLEANUP_HOOKS
      ensures Dels(CleanupChain(c, []), Mangle, Prerouting, PlainHook(SshcUdp)) == if c == SshcUdp then 1 else 0
    {
      PlainHookDeletedOnce(c);
    }
    DelsForChains(CLEANUP_HOOKS, c => CleanupChain(c, []), SshcUdp, Mangle, Prerouting, PlainHook(SshcUdp));
  }

  lemma {:induction false} DropsDeleteNoRule(chains: seq<Chain>, t: Tbl, b: Chain, r: Rule)
    ensures Dels(ForChains(chains, DropBoth), t, b, r) == 0
  {
    if chains != [] {
      var init, last := chains[..|chains| - 1], chains[|chains| - 1];
      DropsDeleteNoRule(init, t, b, r);
      DelsConcat(ForChains(init, DropBoth), DropBoth(last), t, b, r);
      DelsNone(DropBoth(last), t, b, r);
    }
  }

  lemma PassDels(hooks: seq<Cmd>, drops: seq<Cmd>, t: Tbl, b: Chain, r: Rule)
    requires Dels(drops, t, b, r) == 0
    ensures Dels(hooks + drops + [RouteDel], t, b, r) == Dels(hooks, t, b, r)
  {
    DelsConcat(hooks + drops, [RouteDel], t, b, r);
    DelsConcat(hooks, drops, t, b, r);
    DelsNone([RouteDel], t, b, r);
  }

  lemma FirstPassDeletesUdpOnce()
    ensures Dels(Cleanup([]), Mangle, Prerouting, PlainHook(SshcUdp)) == 1
  {
    HookPassDeletesUdpOnce();
    DropsDeleteNoRule(CLEANUP_CHAINS, Mangle, Prerouting, PlainHook(SshcUdp));
    PassDels(HookPass(), ForChains(CLEANUP_CHAINS, DropBoth), Mangle, Prerouting, PlainHook(SshcUdp));
  }

  /** After a connect in TPROXY mode `ssh.iptables disable` alone leaves one of the two jumps to
      SSHC_UDP, and with it the chain. */
  lemma FirstPassIsNotEnough(k: Kernel, p: Params)
    requires Cleaned(k) && Probed(k)
    ensures var r := RunAll(Connect(k, p, true), Cleanup([]));
            SshcUdp in r.mangle && Count(r.mangle, Prerouting, PlainHook(SshcUdp)) == 1
  {
    ConnectCounts(k, p, true);
    FirstPassDeletesUdpOnce();
    CleanupSweeps([]);
    OneOfTwoStays(Connect(k, p, true), Cleanup([]));
  }

  lemma OneOfTwoStays(k: Kernel, cmds: seq<Cmd>)
    requires AllSweep(cmds) && Tidy(k.mangle) && SshcUdp in k.mangle
    requires Count(k.mangle, Prerouting, PlainHook(SshcUdp)) == 2
            && Dels(cmds, Mangle, Prerouting, PlainHook(SshcUdp)) == 1
    ensures SshcUdp in RunAll(k, cmds).mangle && Count(RunAll(k, cmds).mangle, Prerouting, PlainHook(SshcUdp)) == 1
  {
    SweepCounts(k, cmds, Mangle);
    HookedChainStays(k, cmds, SshcUdp, Prerouting, PlainHook(SshcUdp));
  }

  // ---------------------------------------------------------------------------
  // A connect that is cut off.

  lemma ConnectIsItsCommands(k: Kernel, p: Params, transparent: bool)
    ensures RunAll(k, ConnectCmds(k, p, transparent)) == Connect(k, p, transparent)
  {
    if transparent {
      EnableIsItsCommands(k, p);
      RunConcat(k, EnableCmds(k, p), GoInsert(p));
    } else {
      assert [] + GoInsert(p) == GoInsert(p);
    }
  }

  lemma PrefixInserts(cmds: seq<Cmd>, n: nat, t: Tbl, b: Chain, r: Rule)
    requires n <= |cmds|
    ensures Ins(cmds[..n], t, b, r) <= Ins(cmds, t, b, r)
  {
    assert cmds == cmds[..n] + cmds[n..];
    InsJoin(cmds[..n], cmds[n..], t, b, r);
  }

  /** Wherever a connect is cut off, it leaves each hook within its limit. */
  lemma CutConnectTable(k: Kernel, p: Params, transparent: bool, n: nat, t: Tbl)
    requires n <= |ConnectCmds(k, p, transparent)| && NearlyClean(TableOf(k, t)) && (t.Nat? ==> CleanTable(k.natTable))
    ensures HookedTable(TableOf(RunAll(k, ConnectCmds(k, p, transparent)[..n]), t), t)
  {
    var cmds := ConnectCmds(k, p, transparent);
    ConnectIsPart(k, p, transparent);
    NearlyCleanHasNoHooks(TableOf(k, t));
    assert forall cmd | cmd in cmds[..n] :: cmd in cmds;
    OwnCounts(k, cmds[..n], t);
    forall b, r | BuiltIn(b) && SshcJump(r)
      ensures Ins(cmds[..n], t, b, r) <= Limit(t, b, r)
    {
      ConnectInserts(k, p, transparent, t, b, r);
      PrefixInserts(cmds, n, t, b, r);
    }
  }

  lemma FillSparesProbe(t: Tbl, c: Chain, rules: seq<Rule>)
    requires c != SshcProbe
    ensures SparesProbe(Fill(t, c, rules))
  {
    AppendsCreateNothing(t, c, rules);
  }

  lemma TcpCmdsSpareProbe(k: Kernel, p: Params)
    ensures SparesProbe(TcpCmds(k, p))
  {
    FillSparesProbe(Mangle, SshcTcp, MangleTcp(p));
    FillSparesProbe(Mangle, SshcTcpOutput, MangleTcpOutput(p));
    FillSparesProbe(Nat, SshcTcp, NatTcp(p));
    FillSparesProbe(Nat, SshcTcpOutput, NatTcpOutput(p));
    HotspotCreatesNothing(IFACES);
  }

  lemma RestSparesProbe(k: Kernel, p: Params)
    ensures SparesProbe(UdpCmds(k, p)) && SparesProbe(EnableDns(p)) && SparesProbe(GoInsert(p))
  {
    AppendsCreateNothing(Mangle, SshcUdp, UdpRules(p));
    FillSparesProbe(Mangle, SshcUdp, UdpRules(p));
    FillSparesProbe(Nat, SshcDns, DnsRules(p));
  }

  lemma SparesJoin(a: seq<Cmd>, b: seq<Cmd>)
    requires SparesProbe(a) && SparesProbe(b)
    ensures SparesProbe(a + b)
  {
  }

  /** A connect is a cleanup, the four commands of the probe, and commands that leave its chain alone. */
  lemma AroundTheProbe(k: Kernel, p: Params) returns (rest: seq<Cmd>)
    ensures ConnectCmds(k, p, true) == Cleanup(IFACES) + ProbeAndDrop() + rest
    ensures SparesProbe(rest) && SparesProbe(Cleanup(IFACES))
  {
    var k2 := Prepare(k);
    var k3 := EnableTcp(k2, p);
    CleanupSparesProbe(IFACES);
    TcpCmdsSpareProbe(k2, p);
    RestSparesProbe(k3, p);
    rest := TcpCmds(k2, p) + UdpCmds(k3, p) + EnableDns(p) + GoInsert(p);
    SparesJoin(TcpCmds(k2, p), UdpCmds(k3, p));
    SparesJoin(TcpCmds(k2, p) + UdpCmds(k3, p), EnableDns(p));
    SparesJoin(TcpCmds(k2, p) + UdpCmds(k3, p) + EnableDns(p), GoInsert(p));
    Regrouped(Cleanup(IFACES), ProbeAndDrop(), TcpCmds(k2, p), UdpCmds(k3, p), EnableDns(p), GoInsert(p));
  }

  lemma Regrouped(a: seq<Cmd>, b: seq<Cmd>, c: seq<Cmd>, d: seq<Cmd>, e: seq<Cmd>, f: seq<Cmd>)
    ensures (a + b + c + d + e) + f == a + b + (c + d + e + f)
  {
  }

  lemma ProbeGoesIn(k: Kernel, m: nat)
    requires 1 <= m <= 3
    ensures SshcProbe in RunAll(k, ProbeAndDrop()[..m]).mangle
  {
    var cmds := ProbeAndDrop()[..m];
    RunFirst(k, cmds);
    assert cmds[0] == New(Mangle, SshcProbe);
    assert forall cmd | cmd in cmds[1..] :: cmd.Append? || cmd.Flush?;
    KeepsChain(Exec(k, cmds[0]), cmds[1..], Mangle, SshcProbe);
  }

  lemma ProbeGoesOut(k: Kernel)
    requires Unhooked(k.mangle, SshcProbe)
    ensures SshcProbe !in RunAll(k, ProbeAndDrop()).mangle
  {
    var probe := Probe();
    var k1 := RunAll(k, probe);
    RunConcat(k, probe, DropChain(Mangle, SshcProbe));
    OwnCounts(k, probe, Mangle);
    forall b, r | BuiltIn(b) && JumpsTo(r, SshcProbe)
      ensures Count(k1.mangle, b, r) == 0
    {
      NoneInserted(probe, Mangle, b, r);
    }
    DropGone(k1, Mangle, SshcProbe);
  }

  lemma CutBeforeProbe(k: Kernel, a: seq<Cmd>, n: nat)
    requires SparesProbe(a) && n <= |a|
    ensures SshcProbe in RunAll(k, a[..n]).mangle <==> SshcProbe in k.mangle
  {
    assert forall cmd | cmd in a[..n] :: cmd in a;
    KeepsChain(k, a[..n], Mangle, SshcProbe);
  }

  lemma CutInProbe(k: Kernel, a: seq<Cmd>, m: nat)
    requires 1 <= m <= 3
    ensures SshcProbe in RunAll(k, a + ProbeAndDrop()[..m]).mangle
  {
    RunConcat(k, a, ProbeAndDrop()[..m]);
    ProbeGoesIn(RunAll(k, a), m);
  }

  lemma CutAfterProbe(k: Kernel, a: seq<Cmd>, rest: seq<Cmd>, m: nat)
    requires AllSweep(a) && Unhooked(k.mangle, SshcProbe) && SparesProbe(rest) && m <= |rest|
    ensures SshcProbe !in RunAll(k, a + ProbeAndDrop() + rest[..m]).mangle
  {
    RunConcat(k, a + ProbeAndDrop(), rest[..m]);
    RunConcat(k, a, ProbeAndDrop());
    UnhookedStays(k, a, Mangle, SshcProbe);
    ProbeGoesOut(RunAll(k, a));
    CutBeforeProbe(RunAll(RunAll(k, a), ProbeAndDrop()), rest, m);
  }

  /** Where a prefix of three lists ends. */
  lemma PrefixOfThree(a: seq<Cmd>, b: seq<Cmd>, c: seq<Cmd>, n: nat)
    requires n <= |a + b + c|
    ensures n <= |a| ==> (a + b + c)[..n] == a[..n]
    ensures |a| <= n <= |a| + |b| ==> (a + b + c)[..n] == a + b[..n - |a|]
    ensures |a| + |b| <= n ==> (a + b + c)[..n] == a + b + c[..n - |a| - |b|]
  {
  }

  lemma ProbeStaysIn(k: Kernel, a: seq<Cmd>, rest: seq<Cmd>, n: nat)
    requires NearlyClean(k.mangle) && AllSweep(a) && SparesProbe(a) && SparesProbe(rest)
            && n <= |a + ProbeAndDrop() + rest|
    ensures SshcProbe in RunAll(k, (a + ProbeAndDrop() + rest)[..n]).mangle <==>
              n < |a| + 4 && (n > |a| || SshcProbe in k.mangle)
  {
    PrefixOfThree(a, ProbeAndDrop(), rest, n);
    if n <= |a| {
      CutBeforeProbe(k, a, n);
    } else if n < |a| + 4 {
      CutInProbe(k, a, n - |a|);
    } else {
      NearlyCleanHasNoHooks(k.mangle);
      NoHooksUnhooked(k.mangle, SshcProbe);
      CutAfterProbe(k, a, rest, n - |a| - 4);
    }
  }

  /** The probe's chain is there after a cut connect if and only if the cut falls between the probe's
      -N and its -X, or before the -N and the chain was there already. */
  lemma ProbeStaysIff(k: Kernel, p: Params, n: nat)
    requires NearlyClean(k.mangle) && n <= |ConnectCmds(k, p, true)|
    ensures var start := |Cleanup(IFACES)|;
      SshcProbe in RunAll(k, ConnectCmds(k, p, true)[..n]).mangle <==>
        n < start + 4 && (n > start || SshcProbe in k.mangle)
  {
    var rest := AroundTheProbe(k, p);
    CleanupSweeps(IFACES);
    ProbeStaysIn(k, Cleanup(IFACES), rest, n);
  }
}
