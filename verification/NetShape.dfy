/** The exact tables that enabling leaves on a kernel without any SSHC chain or hook. */
module NetShape {
  import opened Seqs
  import opened Netfilter
  import opened NetScripts
  import opened NetForeign

  ghost predicate CleanTable(tb: Table)
  {
    && Prerouting in tb && Output in tb
    && (forall c | c in tb :: !IsSshc(c))
    && (forall c, r | c in tb && r in tb[c] :: !SshcJump(r))
  }

  /** No SSHC chain and no jump to one in either table. */
  ghost predicate Clean(k: Kernel)
  {
    CleanTable(k.mangle) && CleanTable(k.natTable)
  }

  /** Cleaning a clean kernel touches no table. */
  lemma {:induction false} SweepOfClean(k: Kernel, cmds: seq<Cmd>)
    requires Clean(k) && AllSweep(cmds)
    ensures RunAll(k, cmds) == k.(route := RunAll(k, cmds).route)
    ensures k.route ==> (RouteDel in cmds ==> !RunAll(k, cmds).route)
    ensures !k.route ==> !RunAll(k, cmds).route
    decreases |cmds|
  {
    if cmds != [] {
      assert Sweep(cmds[0]);
      SweepOfClean(Exec(k, cmds[0]), cmds[1..]);
      assert cmds == [cmds[0]] + cmds[1..];
    }
  }

  ghost predicate Fillable(k: Kernel, t: Tbl, rules: seq<Rule>)
  {
    forall r | r in rules :: !r.target.Jump? && (r.target.Tproxy? ==> Admits(k, t, r))
  }

  lemma {:induction false} AppendsRun(k: Kernel, t: Tbl, c: Chain, rules: seq<Rule>)
    requires c in TableOf(k, t) && Fillable(k, t, rules)
    ensures RunAll(k, Appends(t, c, rules)) == WithTable(k, t, TableOf(k, t)[c := TableOf(k, t)[c] + rules])
  {
    if rules == [] {
      assert TableOf(k, t)[c] + rules == TableOf(k, t)[c];
      assert TableOf(k, t)[c := TableOf(k, t)[c]] == TableOf(k, t);
    } else {
      var init, last := rules[..|rules| - 1], rules[|rules| - 1];
      AppendsRun(k, t, c, init);
      RunConcat(k, Appends(t, c, init), [Append(t, c, last)]);
      RunOne(RunAll(k, Appends(t, c, init)), Append(t, c, last));
      assert last in rules;
      assert (TableOf(k, t)[c] + init) + [last] == TableOf(k, t)[c] + rules;
    }
  }

  lemma NewFlush(k: Kernel, t: Tbl, c: Chain)
    ensures RunAll(k, [New(t, c), Flush(t, c)]) == WithTable(k, t, TableOf(k, t)[c := []])
  {
    RunTwoCmds(k, New(t, c), Flush(t, c));
    assert TableOf(k, t)[c := []][c := []] == TableOf(k, t)[c := []];
  }

  /** Filling a chain replaces whatever it held. */
  lemma FillRun(k: Kernel, t: Tbl, c: Chain, rules: seq<Rule>)
    requires Fillable(k, t, rules)
    ensures RunAll(k, Fill(t, c, rules)) == WithTable(k, t, TableOf(k, t)[c := rules])
  {
    var k2 := WithTable(k, t, TableOf(k, t)[c := []]);
    NewFlush(k, t, c);
    AppendsRun(k2, t, c, rules);
    assert [] + rules == rules;
    assert TableOf(k, t)[c := []][c := rules] == TableOf(k, t)[c := rules];
    RunThen(k, [New(t, c), Flush(t, c)], Appends(t, c, rules), k2, WithTable(k, t, TableOf(k, t)[c := rules]));
  }

  lemma TproxyAdmitted(k: Kernel, proto: Proto, port: nat)
    ensures Admits(k, Mangle, TproxyRule(proto, port)) <==> k.tproxy
  {
    assert ProtoIs(proto) in TproxyRule(proto, port).matches;
  }

  lemma StaysUnreferenced(tb: Table, c: Chain, d: Chain, rules: seq<Rule>)
    requires !Referenced(tb, c) && !SomeJump(rules, c)
    ensures !Referenced(tb[d := rules], c)
  {
  }

  /** A probe: create a chain and try one rule in it. */
  lemma ProbeRun(k: Kernel, c: Chain, port: nat)
    requires c !in k.mangle
    ensures RunAll(k, [New(Mangle, c), Append(Mangle, c, BareTproxy(port))])
            == k.(mangle := k.mangle[c := if Probed(k) then [BareTproxy(port)] else []])
  {
    RunTwoCmds(k, New(Mangle, c), Append(Mangle, c, BareTproxy(port)));
    var k1 := k.(mangle := k.mangle[c := []]);
    assert Exec(k, New(Mangle, c)) == k1;
    assert [] + [BareTproxy(port)] == [BareTproxy(port)];
    assert k1.mangle[c := [BareTproxy(port)]] == k.mangle[c := [BareTproxy(port)]];
  }

  /** Dropping a fresh chain that nothing refers to takes it away again. */
  lemma DropRun(k: Kernel, c: Chain, rules: seq<Rule>)
    requires c !in k.mangle && !BuiltIn(c) && !Referenced(k.mangle, c)
    ensures RunAll(k.(mangle := k.mangle[c := rules]), DropChain(Mangle, c)) == k
  {
    var k1, k2 := k.(mangle := k.mangle[c := rules]), k.(mangle := k.mangle[c := []]);
    RunTwoCmds(k1, Flush(Mangle, c), Delete(Mangle, c));
    assert k1.mangle[c := []] == k2.mangle;
    StaysUnreferenced(k.mangle, c, c, []);
    assert k2.mangle - {c} == k.mangle;
  }

  /** Hooking a chain that exists. */
  lemma InsertRun(k: Kernel, t: Tbl, b: Chain, r: Rule)
    requires b in TableOf(k, t) && r.target.Jump? && r.target.chain in TableOf(k, t)
    ensures RunAll(k, [Insert(t, b, r)]) == WithTable(k, t, TableOf(k, t)[b := [r] + TableOf(k, t)[b]])
  {
    RunOne(k, Insert(t, b, r));
  }

  /** The hotspot hooks, last interface first. */
  function IfaceHooks(ifaces: seq<string>): seq<Rule>
  {
    if ifaces == [] then []
    else [IfaceTcpHook(ifaces[|ifaces| - 1], SshcTcp)] + IfaceHooks(ifaces[..|ifaces| - 1])
  }

  function HotspotHooks(p: Params): seq<Rule> { if p.hotspot then IfaceHooks(IFACES) else [] }

  lemma {:induction false} HotspotRun(k: Kernel, ifaces: seq<string>)
    requires Prerouting in k.mangle && SshcTcp in k.mangle
    ensures RunAll(k, ForIfaces(ifaces, HotspotIface))
            == k.(mangle := k.mangle[Prerouting := IfaceHooks(ifaces) + k.mangle[Prerouting]])
  {
    if ifaces == [] {
      assert IfaceHooks(ifaces) + k.mangle[Prerouting] == k.mangle[Prerouting];
      assert k.mangle[Prerouting := k.mangle[Prerouting]] == k.mangle;
    } else {
      var init, last := ifaces[..|ifaces| - 1], ifaces[|ifaces| - 1];
      HotspotRun(k, init);
      var k1 := RunAll(k, ForIfaces(init, HotspotIface));
      RunConcat(k, ForIfaces(init, HotspotIface), HotspotIface(last));
      InsertRun(k1, Mangle, Prerouting, IfaceTcpHook(last, SshcTcp));
      assert [IfaceTcpHook(last, SshcTcp)] + (IfaceHooks(init) + k.mangle[Prerouting])
             == IfaceHooks(ifaces) + k.mangle[Prerouting];
    }
  }

  lemma CleanIsUnreferenced(tb: Table, c: Chain)
    requires CleanTable(tb) && IsSshc(c)
    ensures c !in tb && !Referenced(tb, c)
  {
    forall d | d in tb
      ensures !SomeJump(tb[d], c)
    {
      assert forall r | r in tb[d] :: !SshcJump(r);
    }
  }

  lemma PrepareClean(k: Kernel)
    requires Clean(k)
    ensures Prepare(k) == k.(route := false)
  {
    CleanupSweeps(IFACES);
    SweepOfClean(k, Cleanup(IFACES));
    assert RouteDel in Cleanup(IFACES);
    ProbingChangesNothing(k.(route := false));
  }

  lemma ProbingChangesNothing(k: Kernel)
    requires Clean(k)
    ensures RunAll(k, ProbeAndDrop()) == k
  {
    CleanIsUnreferenced(k.mangle, SshcProbe);
    ProbeRun(k, SshcProbe, 65535);
    var k1 := RunAll(k, Probe());
    DropRun(k, SshcProbe, k1.mangle[SshcProbe]);
    RunThen(k, Probe(), DropChain(Mangle, SshcProbe), k1, k);
  }

  lemma FillableEnd(k: Kernel, t: Tbl, exits: seq<Rule>, last: Rule)
    requires AllExits(exits) && !last.target.Jump? && (last.target.Tproxy? ==> Admits(k, t, last))
    ensures Fillable(k, t, exits + [last])
  {
  }

  lemma TcpFillable(k: Kernel, p: Params)
    ensures k.tproxy ==> Fillable(k, Mangle, MangleTcp(p))
    ensures Fillable(k, Mangle, MangleTcpOutput(p)) && Fillable(k, Nat, NatTcp(p)) && Fillable(k, Nat, NatTcpOutput(p))
  {
    AllAreExits(p);
    TproxyAdmitted(k, Tcp, p.tcp);
    if k.tproxy {
      FillableEnd(k, Mangle, MangleTcpExits(p), TproxyRule(Tcp, p.tcp));
    }
    FillableEnd(k, Mangle, MangleTcpOutputExits(p), Rule([ProtoIs(Tcp)], SetMark(true)));
    FillableEnd(k, Nat, NatTcpExits(p), Rule([ProtoIs(Tcp)], Redirect(p.tcp)));
    FillableEnd(k, Nat, NatTcpOutputExits(p), Rule([ProtoIs(Tcp)], Redirect(p.tcp)));
  }

  lemma UdpFillable(k: Kernel, p: Params)
    ensures k.tproxy ==> Fillable(k, Mangle, UdpRules(p))
    ensures Fillable(k, Mangle, UdpRules(p)[..2]) && Fillable(k, Nat, DnsRules(p))
  {
    TproxyAdmitted(k, Udp, p.udp);
  }

  /** One filled and hooked chain. */
  function Hooked(tb: Table, c: Chain, rules: seq<Rule>, b: Chain, hook: Rule): Table
    requires b in tb
  {
    tb[c := rules][b := [hook] + tb[b]]
  }

  lemma FillAndHook(k: Kernel, t: Tbl, c: Chain, rules: seq<Rule>, b: Chain, hook: Rule)
    requires Fillable(k, t, rules) && b in TableOf(k, t) && c != b && hook.target == Jump(c)
    ensures RunAll(k, Fill(t, c, rules) + [Insert(t, b, hook)])
            == WithTable(k, t, Hooked(TableOf(k, t), c, rules, b, hook))
  {
    FillRun(k, t, c, rules);
    var k1 := WithTable(k, t, TableOf(k, t)[c := rules]);
    InsertRun(k1, t, b, hook);
    RunThen(k, Fill(t, c, rules), [Insert(t, b, hook)], k1, WithTable(k, t, Hooked(TableOf(k, t), c, rules, b, hook)));
  }

  function BaseWith(tb: Table, tcp: seq<Rule>, out: seq<Rule>): Table
    requires Prerouting in tb && Output in tb
  {
    Hooked(Hooked(tb, SshcTcp, tcp, Prerouting, TcpHook(SshcTcp)), SshcTcpOutput, out, Output, TcpHook(SshcTcpOutput))
  }

  function TproxyBase(tb: Table, p: Params): Table
    requires Prerouting in tb && Output in tb
  {
    BaseWith(tb, MangleTcp(p), MangleTcpOutput(p))
  }

  /** The setup for any contents of the two chains. */
  lemma SetupRun(k: Kernel, tcp: seq<Rule>, out: seq<Rule>)
    requires Prerouting in k.mangle && Output in k.mangle && !k.route
    requires Fillable(k, Mangle, tcp) && forall k': Kernel | Probed(k') == Probed(k) :: Fillable(k', Mangle, out)
    ensures RunAll(k, [RouteAdd] + Fill(Mangle, SshcTcp, tcp) + [Insert(Mangle, Prerouting, TcpHook(SshcTcp))]
                      + Fill(Mangle, SshcTcpOutput, out) + [Insert(Mangle, Output, TcpHook(SshcTcpOutput))])
            == k.(route := true, mangle := BaseWith(k.mangle, tcp, out))
  {
    var a, b := [RouteAdd], Fill(Mangle, SshcTcp, tcp) + [Insert(Mangle, Prerouting, TcpHook(SshcTcp))];
    var c := Fill(Mangle, SshcTcpOutput, out) + [Insert(Mangle, Output, TcpHook(SshcTcpOutput))];
    assert [RouteAdd] + Fill(Mangle, SshcTcp, tcp) + [Insert(Mangle, Prerouting, TcpHook(SshcTcp))]
           + Fill(Mangle, SshcTcpOutput, out) + [Insert(Mangle, Output, TcpHook(SshcTcpOutput))] == a + b + c;
    RunOne(k, RouteAdd);
    var k1 := k.(route := true);
    FillAndHook(k1, Mangle, SshcTcp, tcp, Prerouting, TcpHook(SshcTcp));
    var k2 := k1.(mangle := Hooked(k1.mangle, SshcTcp, tcp, Prerouting, TcpHook(SshcTcp)));
    RunThen(k, a, b, k1, k2);
    FillAndHook(k2, Mangle, SshcTcpOutput, out, Output, TcpHook(SshcTcpOutput));
    RunThen(k, a + b, c, k2, RunAll(k2, c));
  }

  lemma TproxySetupRun(k: Kernel, p: Params)
    requires Prerouting in k.mangle && Output in k.mangle && Probed(k) && !k.route
    ensures RunAll(k, TproxySetup(p)) == k.(route := true, mangle := TproxyBase(k.mangle, p))
  {
    var out := MangleTcpOutput(p);
    forall k': Kernel | Probed(k') == Probed(k)
      ensures Fillable(k', Mangle, out)
    {
      TcpFillable(k', p);
    }
    TcpFillable(k, p);
    SetupRun(k, MangleTcp(p), out);
  }

  function TproxyMangle(tb: Table, p: Params): Table
    requires Prerouting in tb && Output in tb
  {
    var base := TproxyBase(tb, p);
    base[Prerouting := HotspotHooks(p) + base[Prerouting]]
  }

  lemma EnableTproxyRun(k: Kernel, p: Params)
    requires Prerouting in k.mangle && Output in k.mangle && Probed(k) && !k.route
    ensures EnableTcp(k, p) == k.(route := true, mangle := TproxyMangle(k.mangle, p))
  {
    TproxySetupRun(k, p);
    var k1 := k.(route := true, mangle := TproxyBase(k.mangle, p));
    if p.hotspot {
      HotspotRun(k1, IFACES);
    } else {
      assert [] + k1.mangle[Prerouting] == k1.mangle[Prerouting];
      assert k1.mangle[Prerouting := k1.mangle[Prerouting]] == k1.mangle;
    }
    RunThen(k, TproxySetup(p), Hotspot(p), k1, RunAll(k1, Hotspot(p)));
  }

  function RedirectWith(tb: Table, tcp: seq<Rule>, out: seq<Rule>): Table
    requires Prerouting in tb && Output in tb
  {
    tb[SshcTcp := tcp][SshcTcpOutput := out]
      [Output := [TcpHook(SshcTcpOutput)] + tb[Output]][Prerouting := [TcpHook(SshcTcp)] + tb[Prerouting]]
  }

  function RedirectNat(tb: Table, p: Params): Table
    requires Prerouting in tb && Output in tb
  {
    RedirectWith(tb, NatTcp(p), NatTcpOutput(p))
  }

  lemma FillTwo(k: Kernel, tcp: seq<Rule>, out: seq<Rule>)
    requires forall k': Kernel :: Fillable(k', Nat, tcp) && Fillable(k', Nat, out)
    ensures RunAll(k, Fill(Nat, SshcTcp, tcp) + Fill(Nat, SshcTcpOutput, out))
            == k.(natTable := k.natTable[SshcTcp := tcp][SshcTcpOutput := out])
  {
    FillRun(k, Nat, SshcTcp, tcp);
    var k1 := k.(natTable := k.natTable[SshcTcp := tcp]);
    FillRun(k1, Nat, SshcTcpOutput, out);
    RunThen(k, Fill(Nat, SshcTcp, tcp), Fill(Nat, SshcTcpOutput, out), k1,
            k1.(natTable := k1.natTable[SshcTcpOutput := out]));
  }

  lemma RedirectRun(k: Kernel, tcp: seq<Rule>, out: seq<Rule>)
    requires Prerouting in k.natTable && Output in k.natTable
    requires forall k': Kernel :: Fillable(k', Nat, tcp) && Fillable(k', Nat, out)
    ensures RunAll(k, Fill(Nat, SshcTcp, tcp) + Fill(Nat, SshcTcpOutput, out)
                      + [Insert(Nat, Output, TcpHook(SshcTcpOutput)), Insert(Nat, Prerouting, TcpHook(SshcTcp))])
            == k.(natTable := RedirectWith(k.natTable, tcp, out))
  {
    FillTwo(k, tcp, out);
    var k2 := k.(natTable := k.natTable[SshcTcp := tcp][SshcTcpOutput := out]);
    var c, d := Insert(Nat, Output, TcpHook(SshcTcpOutput)), Insert(Nat, Prerouting, TcpHook(SshcTcp));
    RunTwoCmds(k2, c, d);
    RunThen(k, Fill(Nat, SshcTcp, tcp) + Fill(Nat, SshcTcpOutput, out), [c, d], k2, Exec(Exec(k2, c), d));
  }

  lemma EnableRedirectRun(k: Kernel, p: Params)
    requires Prerouting in k.natTable && Output in k.natTable && !Probed(k)
    ensures EnableTcp(k, p) == k.(natTable := RedirectNat(k.natTable, p))
  {
    var tcp, out := NatTcp(p), NatTcpOutput(p);
    forall k': Kernel
      ensures Fillable(k', Nat, tcp) && Fillable(k', Nat, out)
    {
      TcpFillable(k', p);
    }
    RedirectRun(k, tcp, out);
  }

  lemma UdpFillRun(k: Kernel, rules: seq<Rule>)
    requires Prerouting in k.mangle && SshcUdp in k.mangle && Fillable(k, Mangle, rules)
    ensures RunAll(k, [Flush(Mangle, SshcUdp)] + Appends(Mangle, SshcUdp, rules)
            + [Insert(Mangle, Prerouting, PlainHook(SshcUdp))])
            == k.(mangle := Hooked(k.mangle, SshcUdp, rules, Prerouting, PlainHook(SshcUdp)))
  {
    var a, b := [Flush(Mangle, SshcUdp)], Appends(Mangle, SshcUdp, rules);
    var k1, k2 := k.(mangle := k.mangle[SshcUdp := []]), k.(mangle := k.mangle[SshcUdp := rules]);
    RunOne(k, Flush(Mangle, SshcUdp));
    AppendsRun(k1, Mangle, SshcUdp, rules);
    assert [] + rules == rules;
    assert k1.mangle[SshcUdp := rules] == k2.mangle;
    RunThen(k, a, b, k1, k2);
    InsertRun(k2, Mangle, Prerouting, PlainHook(SshcUdp));
    RunThen(k, a + b, [Insert(Mangle, Prerouting, PlainHook(SshcUdp))], k2,
            k.(mangle := Hooked(k.mangle, SshcUdp, rules, Prerouting, PlainHook(SshcUdp))));
  }

  lemma EnableUdpRun(k: Kernel, p: Params)
    requires Prerouting in k.mangle && SshcUdp !in k.mangle && !Referenced(k.mangle, SshcUdp)
    ensures EnableUdp(k, p) == if !Probed(k) then k else
      k.(mangle := Hooked(k.mangle, SshcUdp, UdpRules(p), Prerouting, PlainHook(SshcUdp)))
  {
    ProbeRun(k, SshcUdp, p.udp);
    if Probed(k) {
      var probed := k.(mangle := k.mangle[SshcUdp := [BareTproxy(p.udp)]]);
      UdpFillable(probed, p);
      UdpFillRun(probed, UdpRules(p));
      assert Hooked(probed.mangle, SshcUdp, UdpRules(p), Prerouting, PlainHook(SshcUdp))
             == Hooked(k.mangle, SshcUdp, UdpRules(p), Prerouting, PlainHook(SshcUdp));
    } else {
      DropRun(k, SshcUdp, []);
    }
  }

  lemma DnsRun(k: Kernel, rules: seq<Rule>)
    requires Output in k.natTable && DnsHook(SshcDns) !in k.natTable[Output] && Fillable(k, Nat, rules)
    ensures RunAll(k, Fill(Nat, SshcDns, rules)
            + [Remove(Nat, Output, DnsHook(SshcDns)), Insert(Nat, Output, DnsHook(SshcDns))])
            == k.(natTable := Hooked(k.natTable, SshcDns, rules, Output, DnsHook(SshcDns)))
  {
    var b, c := Remove(Nat, Output, DnsHook(SshcDns)), Insert(Nat, Output, DnsHook(SshcDns));
    FillRun(k, Nat, SshcDns, rules);
    var k1 := k.(natTable := k.natTable[SshcDns := rules]);
    RunTwoCmds(k1, b, c);
    RunThen(k, Fill(Nat, SshcDns, rules), [b, c], k1, Exec(k1, c));
  }

  lemma EnableDnsRun(k: Kernel, p: Params)
    requires Output in k.natTable && DnsHook(SshcDns) !in k.natTable[Output]
    ensures RunAll(k, EnableDns(p))
            == k.(natTable := Hooked(k.natTable, SshcDns, DnsRules(p), Output, DnsHook(SshcDns)))
  {
    UdpFillable(k, p);
    DnsRun(k, DnsRules(p));
  }

  // ---------------------------------------------------------------------------

  function TproxyTables(k: Kernel, p: Params): Kernel
    requires Prerouting in k.mangle && Output in k.mangle && Output in k.natTable
  {
    k.(route := true,
       mangle := Hooked(TproxyMangle(k.mangle, p), SshcUdp, UdpRules(p), Prerouting, PlainHook(SshcUdp)),
       natTable := Hooked(k.natTable, SshcDns, DnsRules(p), Output, DnsHook(SshcDns)))
  }

  function RedirectTables(k: Kernel, p: Params): Kernel
    requires Prerouting in k.natTable && Output in k.natTable
  {
    k.(route := false,
       natTable := Hooked(RedirectNat(k.natTable, p), SshcDns, DnsRules(p), Output, DnsHook(SshcDns)))
  }

  lemma EnableUdpOnClean(k: Kernel, p: Params)
    requires Clean(k) && Probed(k)
    ensures EnableUdp(k.(mangle := TproxyMangle(k.mangle, p)), p)
            == k.(mangle := Hooked(TproxyMangle(k.mangle, p), SshcUdp, UdpRules(p), Prerouting, PlainHook(SshcUdp)))
  {
    IfaceHooksJump(IFACES);
    TcpChainsDoNotJump(p);
    UdpNotReferenced(k.mangle, MangleTcp(p), MangleTcpOutput(p), HotspotHooks(p));
    EnableUdpRun(k.(mangle := TproxyMangle(k.mangle, p)), p);
  }

  lemma CleanHasNoHook(tb: Table, c: Chain, r: Rule)
    requires CleanTable(tb) && c in tb && SshcJump(r)
    ensures r !in tb[c]
  {
  }

  lemma EnableTproxyOnClean(k: Kernel, p: Params)
    requires Clean(k) && Probed(k)
    ensures Enable(k, p) == TproxyTables(k, p)
  {
    PrepareClean(k);
    var k3 := k.(route := true, mangle := TproxyMangle(k.mangle, p));
    EnableTproxyRun(k.(route := false), p);
    EnableUdpOnClean(k.(route := true), p);
    var k4 := k3.(mangle := Hooked(k3.mangle, SshcUdp, UdpRules(p), Prerouting, PlainHook(SshcUdp)));
    assert EnableUdp(k3, p) == k4;
    CleanHasNoHook(k.natTable, Output, DnsHook(SshcDns));
    EnableDnsRun(k4, p);
  }

  lemma NoDnsHook(tb: Table, tcp: seq<Rule>, out: seq<Rule>)
    requires CleanTable(tb)
    ensures DnsHook(SshcDns) !in RedirectWith(tb, tcp, out)[Output]
  {
    CleanHasNoHook(tb, Output, DnsHook(SshcDns));
    assert DnsHook(SshcDns).matches[0] != TcpHook(SshcTcpOutput).matches[0];
  }

  lemma EnableRedirectOnClean(k: Kernel, p: Params)
    requires Clean(k) && !Probed(k)
    ensures Enable(k, p) == RedirectTables(k, p)
  {
    PrepareClean(k);
    EnableRedirectRun(k.(route := false), p);
    RedirectRest(k.(route := false, natTable := RedirectNat(k.natTable, p)), p) by {
      CleanIsUnreferenced(k.mangle, SshcUdp);
      NoDnsHook(k.natTable, NatTcp(p), NatTcpOutput(p));
    }
  }

  lemma RedirectRest(k: Kernel, p: Params)
    requires !Probed(k) && Prerouting in k.mangle && SshcUdp !in k.mangle && !Referenced(k.mangle, SshcUdp)
    requires Output in k.natTable && DnsHook(SshcDns) !in k.natTable[Output]
    ensures RunAll(EnableUdp(k, p), EnableDns(p))
            == k.(natTable := Hooked(k.natTable, SshcDns, DnsRules(p), Output, DnsHook(SshcDns)))
  {
    EnableUdpRun(k, p);
    EnableDnsRun(k, p);
  }

  /** `ssh.iptables enable` on a clean kernel, in the mode that the probe selects. */
  lemma EnableOnClean(k: Kernel, p: Params)
    requires Clean(k)
    ensures Enable(k, p) == if Probed(k) then TproxyTables(k, p) else RedirectTables(k, p)
  {
    if Probed(k) {
      EnableTproxyOnClean(k, p);
    } else {
      EnableRedirectOnClean(k, p);
    }
  }

  lemma UdpNotReferenced(tb: Table, tcp: seq<Rule>, out: seq<Rule>, hooks: seq<Rule>)
    requires CleanTable(tb)
    requires forall r | r in tcp || r in out :: !r.target.Jump?
    requires forall r | r in hooks :: r.target == Jump(SshcTcp)
    ensures var base := BaseWith(tb, tcp, out);
            var m := base[Prerouting := hooks + base[Prerouting]];
            SshcUdp !in m && !Referenced(m, SshcUdp)
  {
    var base := BaseWith(tb, tcp, out);
    var m := base[Prerouting := hooks + base[Prerouting]];
    CleanIsUnreferenced(tb, SshcUdp);
    forall d | d in m
      ensures !SomeJump(m[d], SshcUdp)
    {
      assert d in tb ==> !SomeJump(tb[d], SshcUdp);
    }
  }

  lemma {:induction false} IfaceHooksJump(ifaces: seq<string>)
    ensures forall r | r in IfaceHooks(ifaces) :: r.target == Jump(SshcTcp)
  {
    if ifaces != [] {
      IfaceHooksJump(ifaces[..|ifaces| - 1]);
    }
  }

  lemma ShortFill(t: Tbl, c: Chain, rules: seq<Rule>, last: Rule)
    ensures Fill(t, c, rules + [last]) == Fill(t, c, rules) + [Append(t, c, last)]
  {
    assert (rules + [last])[..|rules|] == rules;
  }

  /** The insertions of the tunnel loop on top; a kernel without TPROXY refuses the last rule. */
  lemma GoInsertRun(k: Kernel, p: Params)
    requires Prerouting in k.mangle
    ensures RunAll(k, GoInsert(p)) ==
      k.(mangle := Hooked(k.mangle, SshcUdp, if k.tproxy then UdpRules(p) else UdpRules(p)[..2],
                          Prerouting, PlainHook(SshcUdp)))
  {
    UdpFillable(k, p);
    if k.tproxy {
      FillAndHook(k, Mangle, SshcUdp, UdpRules(p), Prerouting, PlainHook(SshcUdp));
    } else {
      TproxyAdmitted(k, Udp, p.udp);
      assert UdpRules(p) == UdpRules(p)[..2] + [TproxyRule(Udp, p.udp)];
      RefusedFill(k, UdpRules(p)[..2], TproxyRule(Udp, p.udp));
    }
  }

  lemma RefusedFill(k: Kernel, rules: seq<Rule>, last: Rule)
    requires Prerouting in k.mangle && Fillable(k, Mangle, rules) && last.target.Tproxy? && !Admits(k, Mangle, last)
    ensures RunAll(k, Fill(Mangle, SshcUdp, rules + [last]) + [Insert(Mangle, Prerouting, PlainHook(SshcUdp))])
            == k.(mangle := Hooked(k.mangle, SshcUdp, rules, Prerouting, PlainHook(SshcUdp)))
  {
    var hook := [Insert(Mangle, Prerouting, PlainHook(SshcUdp))];
    ShortFill(Mangle, SshcUdp, rules, last);
    FillRun(k, Mangle, SshcUdp, rules);
    var k1 := k.(mangle := k.mangle[SshcUdp := rules]);
    RunOne(k1, Append(Mangle, SshcUdp, last));
    RunThen(k, Fill(Mangle, SshcUdp, rules), [Append(Mangle, SshcUdp, last)], k1, k1);
    InsertRun(k1, Mangle, Prerouting, PlainHook(SshcUdp));
    RunThen(k, Fill(Mangle, SshcUdp, rules + [last]), hook, k1, RunAll(k1, hook));
  }
}
