/** Rules and chains that are not the daemon's own survive everything the scripts do. */
module NetForeign {
  import opened Seqs
  import opened Netfilter
  import opened NetScripts

  /** Commands of the daemon: they create, fill and drop SSHC chains, and hook them into or
      unhook them from the built-in chains. */
  predicate Own(cmd: Cmd)
  {
    match cmd
    case New(_, c) => IsSshc(c)
    case Flush(_, c) => IsSshc(c)
    case Delete(_, c) => IsSshc(c)
    case Append(_, c, r) => IsSshc(c) && !r.target.Jump?
    case Insert(_, c, r) => BuiltIn(c) && SshcJump(r)
    case Remove(_, c, r) => BuiltIn(c) && SshcJump(r)
    case _ => true
  }

  /** Commands that only take away. */
  predicate Sweep(cmd: Cmd)
  {
    Own(cmd) && !cmd.New? && !cmd.Append? && !cmd.Insert? && !cmd.RouteAdd?
  }

  predicate AllOwn(cmds: seq<Cmd>) { forall c | c in cmds :: Own(c) }

  predicate AllSweep(cmds: seq<Cmd>) { forall c | c in cmds :: Sweep(c) }

  /** The rules of a chain that do not jump to an SSHC chain, in their order. */
  function Strip(rules: seq<Rule>): seq<Rule>
  {
    if rules == [] then []
    else (if SshcJump(rules[0]) then [] else [rules[0]]) + Strip(rules[1..])
  }

  lemma {:induction false} StripRemove(rules: seq<Rule>, r: Rule)
    requires SshcJump(r)
    ensures Strip(RemoveFirst(rules, r)) == Strip(rules)
  {
    if rules != [] && rules[0] != r {
      StripRemove(rules[1..], r);
      var rest := RemoveFirst(rules[1..], r);
      assert ([rules[0]] + rest)[1..] == rest;
    }
  }

  lemma StripInsert(rules: seq<Rule>, r: Rule)
    requires SshcJump(r)
    ensures Strip([r] + rules) == Strip(rules)
  {
    assert ([r] + rules)[1..] == rules;
  }

  ghost predicate SameForeign(a: Table, b: Table)
  {
    forall c | !IsSshc(c) :: (c in a <==> c in b) && (c in a ==> Strip(a[c]) == Strip(b[c]))
  }

  ghost predicate ForeignKept(k: Kernel, k': Kernel)
  {
    SameForeign(k.mangle, k'.mangle) && SameForeign(k.natTable, k'.natTable)
  }

  lemma KeptTrans(a: Kernel, b: Kernel, c: Kernel)
    requires ForeignKept(a, b) && ForeignKept(b, c)
    ensures ForeignKept(a, c)
  {
  }

  lemma UpdateKeepsForeign(tb: Table, c: Chain, rules: seq<Rule>)
    requires IsSshc(c) || (c in tb && Strip(rules) == Strip(tb[c]))
    ensures SameForeign(tb, tb[c := rules])
  {
  }

  lemma ExecKeepsTable(k: Kernel, cmd: Cmd, t: Tbl)
    requires Own(cmd) && !cmd.RouteAdd? && !cmd.RouteDel? && cmd.t == t && Succeeds(k, cmd)
    ensures SameForeign(TableOf(k, t), TableOf(Exec(k, cmd), t))
  {
    var tb := TableOf(k, t);
    match cmd
    case New(_, c) => UpdateKeepsForeign(tb, c, []);
    case Flush(_, c) => UpdateKeepsForeign(tb, c, []);
    case Delete(_, c) => assert IsSshc(c);
    case Append(_, c, r) => UpdateKeepsForeign(tb, c, tb[c] + [r]);
    case Insert(_, c, r) =>
      StripInsert(tb[c], r);
      UpdateKeepsForeign(tb, c, [r] + tb[c]);
    case Remove(_, c, r) =>
      StripRemove(tb[c], r);
      UpdateKeepsForeign(tb, c, RemoveFirst(tb[c], r));
  }

  lemma ExecKeepsForeign(k: Kernel, cmd: Cmd)
    requires Own(cmd)
    ensures ForeignKept(k, Exec(k, cmd))
  {
    if Succeeds(k, cmd) && !cmd.RouteAdd? && !cmd.RouteDel? {
      ExecKeepsTable(k, cmd, cmd.t);
    }
  }

  lemma {:induction false} RunKeepsForeign(k: Kernel, cmds: seq<Cmd>)
    requires AllOwn(cmds)
    ensures ForeignKept(k, RunAll(k, cmds))
    decreases |cmds|
  {
    if cmds != [] {
      ExecKeepsForeign(k, cmds[0]);
      RunKeepsForeign(Exec(k, cmds[0]), cmds[1..]);
      KeptTrans(k, Exec(k, cmds[0]), RunAll(k, cmds));
    }
  }

  // ---------------------------------------------------------------------------
  // Every script consists of own commands.

  lemma {:induction false} ForIfacesSweep(ifaces: seq<string>, f: string -> seq<Cmd>)
    requires forall i :: AllSweep(f(i))
    ensures AllSweep(ForIfaces(ifaces, f))
  {
    if ifaces != [] {
      ForIfacesSweep(ifaces[..|ifaces| - 1], f);
    }
  }

  lemma {:induction false} ForIfacesOwn(ifaces: seq<string>, f: string -> seq<Cmd>)
    requires forall i :: AllOwn(f(i))
    ensures AllOwn(ForIfaces(ifaces, f))
  {
    if ifaces != [] {
      ForIfacesOwn(ifaces[..|ifaces| - 1], f);
    }
  }

  lemma {:induction false} ForChainsSweep(chains: seq<Chain>, f: Chain -> seq<Cmd>)
    requires forall c | c in chains :: AllSweep(f(c))
    ensures AllSweep(ForChains(chains, f))
  {
    if chains != [] {
      ForChainsSweep(chains[..|chains| - 1], f);
    }
  }

  lemma BothSweep(a: seq<Cmd>, b: seq<Cmd>)
    requires AllSweep(a) && AllSweep(b)
    ensures AllSweep(a + b)
  {
  }

  lemma CleanupChainSweeps(c: Chain, ifaces: seq<string>)
    requires IsSshc(c)
    ensures AllSweep(CleanupChain(c, ifaces))
  {
    HooksOfSweep(c);
    CleanupIfacesSweep(c, ifaces);
    BothSweep(CleanupHooksOf(c), ForIfaces(ifaces, i => CleanupIface(i, c)));
  }

  lemma HooksOfSweep(c: Chain)
    requires IsSshc(c)
    ensures AllSweep(CleanupHooksOf(c))
  {
    var hooks := CleanupHooksOf(c);
    assert forall i | 0 <= i < 7 :: hooks[i].Remove? && BuiltIn(hooks[i].c) && SshcJump(hooks[i].r);
  }

  lemma CleanupIfacesSweep(c: Chain, ifaces: seq<string>)
    requires IsSshc(c)
    ensures AllSweep(ForIfaces(ifaces, i => CleanupIface(i, c)))
  {
    ForIfacesSweep(ifaces, i => CleanupIface(i, c));
  }

  lemma CleanV4IfacesSweep(c: Chain, ifaces: seq<string>)
    requires IsSshc(c)
    ensures AllSweep(ForIfaces(ifaces, i => CleanV4Iface(i, c)))
  {
    ForIfacesSweep(ifaces, i => CleanV4Iface(i, c));
  }

  lemma UnhookSweeps(chains: seq<Chain>, ifaces: seq<string>)
    requires forall c | c in chains :: IsSshc(c)
    ensures AllSweep(ForChains(chains, c => CleanupChain(c, ifaces)))
  {
    forall c | c in chains
      ensures AllSweep(CleanupChain(c, ifaces))
    {
      CleanupChainSweeps(c, ifaces);
    }
    ForChainsSweep(chains, c => CleanupChain(c, ifaces));
  }

  lemma DropsSweep(chains: seq<Chain>)
    requires forall c | c in chains :: IsSshc(c)
    ensures AllSweep(ForChains(chains, DropBoth)) && AllSweep(ForChains(chains, c => DropChain(Nat, c)))
  {
    ForChainsSweep(chains, DropBoth);
    ForChainsSweep(chains, c => DropChain(Nat, c));
  }

  lemma CleanupHooksSweep(ifaces: seq<string>)
    ensures AllSweep(ForChains(CLEANUP_HOOKS, c => CleanupChain(c, ifaces)))
  {
    UnhookSweeps(CLEANUP_HOOKS, ifaces);
  }

  lemma CleanupSweeps(ifaces: seq<string>)
    ensures AllSweep(Cleanup(ifaces))
  {
    CleanupHooksSweep(ifaces);
    DropsSweep(CLEANUP_CHAINS);
  }

  lemma V4HooksOfSweep(c: Chain)
    requires IsSshc(c)
    ensures AllSweep(CleanV4HooksOf(c))
  {
    var hooks := CleanV4HooksOf(c);
    assert forall i | 0 <= i < 5 :: hooks[i].Remove? && BuiltIn(hooks[i].c) && SshcJump(hooks[i].r);
  }

  lemma CleanV4ChainSweeps(c: Chain)
    requires IsSshc(c)
    ensures AllSweep(CleanV4Chain(c))
  {
    V4HooksOfSweep(c);
    CleanV4IfacesSweep(c, IFACES);
    BothSweep(CleanV4HooksOf(c), ForIfaces(IFACES, i => CleanV4Iface(i, c)));
  }

  lemma UnhookV4Sweeps(chains: seq<Chain>)
    requires forall c | c in chains :: IsSshc(c)
    ensures AllSweep(ForChains(chains, CleanV4Chain))
  {
    forall c | c in chains
      ensures AllSweep(CleanV4Chain(c))
    {
      CleanV4ChainSweeps(c);
    }
    ForChainsSweep(chains, CleanV4Chain);
  }

  lemma CleanV4Sweeps()
    ensures AllSweep(CleanV4())
  {
    UnhookV4Sweeps(CLEAN_V4_CHAINS);
    DropsSweep(CLEAN_V4_CHAINS);
    BothSweep(ForChains(CLEAN_V4_CHAINS, CleanV4Chain), ForChains(CLEAN_V4_CHAINS, c => DropChain(Nat, c)));
  }

  lemma CleanTcpHooksSweep()
    ensures AllSweep(CleanTcpHooks())
  {
    ForIfacesSweep(IFACES, CleanTcpIface);
  }

  lemma CleanTproxySweeps()
    ensures AllSweep(CleanUdpTproxy()) && AllSweep(CleanTcpTproxy())
  {
    CleanTcpHooksSweep();
  }

  lemma SecondPassSweeps()
    ensures AllSweep(SecondPass())
  {
    CleanV4Sweeps();
    CleanTproxySweeps();
    BothSweep(CleanV4(), CleanUdpTproxy());
    BothSweep(CleanV4() + CleanUdpTproxy(), CleanTcpTproxy());
  }

  lemma NetCleanSweeps()
    ensures AllSweep(NetClean()) && AllSweep(SecondPass())
  {
    CleanupSweeps([]);
    SecondPassSweeps();
    BothSweep(Cleanup([]), SecondPass());
  }

  lemma {:induction false} AppendsOwn(t: Tbl, c: Chain, rules: seq<Rule>)
    requires IsSshc(c) && forall r | r in rules :: !r.target.Jump?
    ensures AllOwn(Appends(t, c, rules))
  {
    if rules != [] {
      AppendsOwn(t, c, rules[..|rules| - 1]);
    }
  }

  lemma ExitsDoNotJump(exits: seq<Rule>, last: Rule)
    requires AllExits(exits) && !last.target.Jump?
    ensures forall r | r in exits + [last] :: !r.target.Jump?
  {
  }

  lemma TcpChainsDoNotJump(p: Params)
    ensures forall r | r in MangleTcp(p) || r in MangleTcpOutput(p) :: !r.target.Jump?
    ensures forall r | r in NatTcp(p) || r in NatTcpOutput(p) :: !r.target.Jump?
  {
    AllAreExits(p);
    ExitsDoNotJump(MangleTcpExits(p), TproxyRule(Tcp, p.tcp));
    ExitsDoNotJump(MangleTcpOutputExits(p), Rule([ProtoIs(Tcp)], SetMark(true)));
    ExitsDoNotJump(NatTcpExits(p), Rule([ProtoIs(Tcp)], Redirect(p.tcp)));
    ExitsDoNotJump(NatTcpOutputExits(p), Rule([ProtoIs(Tcp)], Redirect(p.tcp)));
  }

  lemma FillsOwn(t: Tbl, a: seq<Rule>, b: seq<Rule>)
    requires forall r | r in a || r in b :: !r.target.Jump?
    ensures AllOwn(Fill(t, SshcTcp, a)) && AllOwn(Fill(t, SshcTcpOutput, b))
  {
    AppendsOwn(t, SshcTcp, a);
    AppendsOwn(t, SshcTcpOutput, b);
  }

  lemma EnableTcpTproxyOwn(p: Params)
    ensures AllOwn(EnableTcpTproxy(p))
  {
    TcpChainsDoNotJump(p);
    FillsOwn(Mangle, MangleTcp(p), MangleTcpOutput(p));
    ForIfacesOwn(IFACES, HotspotIface);
  }

  lemma EnableTcpRedirectOwn(p: Params)
    ensures AllOwn(EnableTcpRedirect(p))
  {
    TcpChainsDoNotJump(p);
    FillsOwn(Nat, NatTcp(p), NatTcpOutput(p));
  }

  lemma EnableTcpOwn(p: Params)
    ensures AllOwn(EnableTcpTproxy(p)) && AllOwn(EnableTcpRedirect(p))
  {
    EnableTcpTproxyOwn(p);
    EnableTcpRedirectOwn(p);
  }

  lemma UdpOwn(p: Params)
    ensures AllOwn(UdpProbe(p)) && AllOwn(UdpFill(p)) && AllOwn(EnableDns(p)) && AllOwn(GoInsert(p))
  {
    AppendsOwn(Mangle, SshcUdp, UdpRules(p));
    AppendsOwn(Nat, SshcDns, DnsRules(p));
  }

  /** Disabling, and net_clean, on any kernel. */
  lemma CleaningKeepsForeign(k: Kernel, ifaces: seq<string>)
    ensures ForeignKept(k, RunAll(k, Cleanup(ifaces)))
    ensures ForeignKept(k, RunAll(k, NetClean()))
  {
    CleanupSweeps(ifaces);
    NetCleanSweeps();
    RunKeepsForeign(k, Cleanup(ifaces));
    RunKeepsForeign(k, NetClean());
  }

  /** The insertions of the tunnel loop, on any kernel. */
  lemma GoInsertKeepsForeign(k: Kernel, p: Params)
    ensures ForeignKept(k, RunAll(k, GoInsert(p)))
  {
    UdpOwn(p);
    RunKeepsForeign(k, GoInsert(p));
  }

  lemma EnableTcpKeepsForeign(k: Kernel, p: Params)
    ensures ForeignKept(k, EnableTcp(k, p))
  {
    EnableTcpOwn(p);
    RunKeepsForeign(k, EnableTcpTproxy(p));
    RunKeepsForeign(k, EnableTcpRedirect(p));
  }

  lemma EnableUdpKeepsForeign(k: Kernel, p: Params)
    ensures ForeignKept(k, EnableUdp(k, p))
  {
    UdpOwn(p);
    var probed := RunAll(k, UdpProbe(p));
    RunKeepsForeign(k, UdpProbe(p));
    RunKeepsForeign(probed, UdpFill(p));
    RunKeepsForeign(probed, DropChain(Mangle, SshcUdp));
    KeptTrans(k, probed, EnableUdp(k, p));
  }

  lemma ProbingKeepsForeign(k: Kernel)
    ensures ForeignKept(k, RunAll(k, ProbeAndDrop()))
  {
    assert AllOwn(ProbeAndDrop());
    RunKeepsForeign(k, ProbeAndDrop());
  }

  lemma PrepareKeepsForeign(k: Kernel)
    ensures ForeignKept(k, Prepare(k))
  {
    CleaningKeepsForeign(k, IFACES);
    ProbingKeepsForeign(RunAll(k, Cleanup(IFACES)));
    KeptTrans(k, RunAll(k, Cleanup(IFACES)), Prepare(k));
  }

  lemma DnsKeepsForeign(k: Kernel, p: Params)
    ensures ForeignKept(k, RunAll(k, EnableDns(p)))
  {
    UdpOwn(p);
    RunKeepsForeign(k, EnableDns(p));
  }

  /** Enabling, in either mode, on any kernel. */
  lemma EnableKeepsForeign(k: Kernel, p: Params)
    ensures ForeignKept(k, Enable(k, p))
  {
    var k2 := Prepare(k);
    var k3 := EnableTcp(k2, p);
    var k4 := EnableUdp(k3, p);
    PrepareKeepsForeign(k);
    EnableTcpKeepsForeign(k2, p);
    EnableUdpKeepsForeign(k3, p);
    DnsKeepsForeign(k4, p);
    KeptTrans(k, k2, k3);
    KeptTrans(k, k3, k4);
    KeptTrans(k, k4, Enable(k, p));
  }
}
