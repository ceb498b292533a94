/** What a connect can add at most, wherever it is cut off: counted by its -I and -N commands. */
module NetInserts {
  import opened Seqs
  import opened Netfilter
  import opened NetScripts
  import opened NetForeign
  import opened NetHooks

  /** How many -I commands for this very rule a list holds. */
  function Ins(cmds: seq<Cmd>, t: Tbl, b: Chain, r: Rule): nat
  {
    multiset(cmds)[Insert(t, b, r)]
  }

  lemma AppendStep(k: Kernel, cmd: Cmd)
    requires Own(cmd) && (cmd.New? || cmd.Flush? || cmd.Append? || cmd.Delete?) && Tidy(TableOf(k, cmd.t))
    ensures var tb, tb' := TableOf(k, cmd.t), TableOf(Exec(k, cmd), cmd.t);
      Tidy(tb') && (forall b, r | BuiltIn(b) :: Count(tb', b, r) == Count(tb, b, r))
  {
  }

  lemma InsertStep(k: Kernel, cmd: Cmd)
    requires Own(cmd) && cmd.Insert? && Tidy(TableOf(k, cmd.t))
    ensures var tb, tb' := TableOf(k, cmd.t), TableOf(Exec(k, cmd), cmd.t);
      && Tidy(tb')
      && (forall b, r | BuiltIn(b) :: Count(tb', b, r) <= Count(tb, b, r) + (if (b, r) == (cmd.c, cmd.r) then 1 else 0))
  {
    if Succeeds(k, cmd) {
      var rules := TableOf(k, cmd.t)[cmd.c];
      assert multiset([cmd.r] + rules) == multiset{cmd.r} + multiset(rules);
    }
  }

  /** One of the daemon's commands adds a hook only by -I, and a chain only by -N. */
  lemma OwnStep(k: Kernel, cmd: Cmd, t: Tbl)
    requires Own(cmd) && Tidy(TableOf(k, t))
    ensures var tb, tb' := TableOf(k, t), TableOf(Exec(k, cmd), t);
      && Tidy(tb')
      && (forall b, r | BuiltIn(b) :: Count(tb', b, r) <= Count(tb, b, r) + (if cmd == Insert(t, b, r) then 1 else 0))
  {
    if cmd.RouteAdd? || cmd.RouteDel? || cmd.t != t {
      OtherTableKept(k, cmd, t);
    } else if cmd.Insert? {
      InsertStep(k, cmd);
    } else if cmd.Remove? {
      SweepStep(k, cmd, t);
    } else {
      AppendStep(k, cmd);
    }
  }

  lemma OwnCreates(k: Kernel, cmd: Cmd, t: Tbl, c: Chain)
    requires c in TableOf(Exec(k, cmd), t)
    ensures c in TableOf(k, t) || cmd == New(t, c)
  {
    if cmd != Delete(t, c) && cmd != New(t, c) {
      OneKeepsChain(k, cmd, t, c);
    }
  }

  /** A hook stands at most as often as before plus the -I commands for it; a chain is there only if
      it was there or is created. */
  lemma {:induction false} OwnCounts(k: Kernel, cmds: seq<Cmd>, t: Tbl)
    requires AllOwn(cmds) && Tidy(TableOf(k, t))
    ensures var tb, tb' := TableOf(k, t), TableOf(RunAll(k, cmds), t);
      && Tidy(tb')
      && (forall b, r | BuiltIn(b) :: Count(tb', b, r) <= Count(tb, b, r) + Ins(cmds, t, b, r))
      && (forall c | c in tb' :: c in tb || New(t, c) in cmds)
    decreases |cmds|
  {
    if cmds != [] {
      var k1 := Exec(k, cmds[0]);
      assert cmds == [cmds[0]] + cmds[1..];
      OwnStep(k, cmds[0], t);
      OwnCounts(k1, cmds[1..], t);
      forall b, r | BuiltIn(b)
        ensures Ins(cmds, t, b, r) == (if cmds[0] == Insert(t, b, r) then 1 else 0) + Ins(cmds[1..], t, b, r)
      {
        assert multiset(cmds) == multiset{cmds[0]} + multiset(cmds[1..]);
      }
      forall c | c in TableOf(RunAll(k, cmds), t)
        ensures c in TableOf(k, t) || New(t, c) in cmds
      {
        if c in TableOf(k1, t) {
          OwnCreates(k, cmds[0], t, c);
        }
      }
    }
  }

  // ------------------------------------------------------------ the commands of a connect

  /** The first connect of a run: the script if transparent proxying is on, then the insertions of the
      loop in any case. */
  function ConnectCmds(k: Kernel, p: Params, transparent: bool): seq<Cmd>
  {
    (if transparent then EnableCmds(k, p) else []) + GoInsert(p)
  }

  /** Own commands that create only chains that may exist. */
  ghost predicate Part(cmds: seq<Cmd>)
  {
    AllOwn(cmds) && forall t, c | New(t, c) in cmds :: MayExist(t, c)
  }

  lemma PartsJoin(a: seq<Cmd>, b: seq<Cmd>)
    requires Part(a) && Part(b)
    ensures Part(a + b)
  {
  }

  lemma SweepIsPart(cmds: seq<Cmd>)
    requires AllSweep(cmds)
    ensures Part(cmds)
  {
  }

  lemma {:induction false} AppendsCreateNothing(t: Tbl, c: Chain, rules: seq<Rule>)
    ensures forall cmd | cmd in Appends(t, c, rules) :: cmd.Append?
  {
    if rules != [] {
      AppendsCreateNothing(t, c, rules[..|rules| - 1]);
    }
  }

  lemma FillIsPart(t: Tbl, c: Chain, rules: seq<Rule>)
    requires IsSshc(c) && MayExist(t, c) && forall r | r in rules :: !r.target.Jump?
    ensures Part(Fill(t, c, rules)) && NoInserts(Fill(t, c, rules))
  {
    AppendsOwn(t, c, rules);
    AppendsCreateNothing(t, c, rules);
  }

  ghost predicate NoInserts(cmds: seq<Cmd>) { forall cmd | cmd in cmds :: !cmd.Insert? }

  lemma NoneInserted(cmds: seq<Cmd>, t: Tbl, b: Chain, r: Rule)
    requires NoInserts(cmds)
    ensures Ins(cmds, t, b, r) == 0
  {
    assert Insert(t, b, r) !in cmds;
  }

  function One(cmd: Cmd, t: Tbl, b: Chain, r: Rule): nat { if cmd == Insert(t, b, r) then 1 else 0 }

  lemma InsOfTwo(x: seq<Cmd>, i: Cmd, y: seq<Cmd>, j: Cmd, t: Tbl, b: Chain, r: Rule)
    requires NoInserts(x) && NoInserts(y)
    ensures Ins(x + [i] + y + [j], t, b, r) == One(i, t, b, r) + One(j, t, b, r)
  {
    NoneInserted(x, t, b, r);
    NoneInserted(y, t, b, r);
    assert multiset(x + [i] + y + [j]) == multiset(x) + multiset{i} + multiset(y) + multiset{j};
  }

  lemma InsJoin(x: seq<Cmd>, y: seq<Cmd>, t: Tbl, b: Chain, r: Rule)
    ensures Ins(x + y, t, b, r) == Ins(x, t, b, r) + Ins(y, t, b, r)
  {
  }

  lemma {:induction false} HotspotInserts(ifaces: seq<string>, t: Tbl, b: Chain, r: Rule)
    requires Distinct(ifaces)
    ensures Ins(ForIfaces(ifaces, HotspotIface), t, b, r)
            == if t.Mangle? && b.Prerouting? && exists i | i in ifaces :: r == IfaceTcpHook(i, SshcTcp) then 1 else 0
  {
    if ifaces != [] {
      var init, last := ifaces[..|ifaces| - 1], ifaces[|ifaces| - 1];
      HotspotInserts(init, t, b, r);
      assert ifaces == init + [last] && last !in init;
      var hook := Insert(Mangle, Prerouting, IfaceTcpHook(last, SshcTcp));
      InsJoin(ForIfaces(init, HotspotIface), HotspotIface(last), t, b, r);
      assert Ins(HotspotIface(last), t, b, r) == One(hook, t, b, r);
      forall i | i in init
        ensures IfaceTcpHook(i, SshcTcp) != IfaceTcpHook(last, SshcTcp)
      {
        assert IfaceTcpHook(i, SshcTcp).matches[0].pattern == i
            && IfaceTcpHook(last, SshcTcp).matches[0].pattern == last;
      }
      if hook == Insert(t, b, r) {
        assert last in ifaces;
      }
    }
  }

  /** The hooks of the TPROXY mode: those of the two chains and the hotspot's. */
  predicate TproxyHook(t: Tbl, b: Chain, r: Rule)
  {
    t.Mangle? && (if b.Prerouting? then r == TcpHook(SshcTcp) || exists i | i in IFACES :: r == IfaceTcpHook(i, SshcTcp)
                  else r == TcpHook(SshcTcpOutput))
  }

  predicate RedirectHook(t: Tbl, b: Chain, r: Rule)
  {
    t.Nat? && (if b.Prerouting? then r == TcpHook(SshcTcp) else r == TcpHook(SshcTcpOutput))
  }

  lemma TproxyFills(p: Params)
    ensures Part(Fill(Mangle, SshcTcp, MangleTcp(p))) && NoInserts(Fill(Mangle, SshcTcp, MangleTcp(p)))
    ensures Part(Fill(Mangle, SshcTcpOutput, MangleTcpOutput(p)))
            && NoInserts(Fill(Mangle, SshcTcpOutput, MangleTcpOutput(p)))
  {
    TcpChainsDoNotJump(p);
    FillIsPart(Mangle, SshcTcp, MangleTcp(p));
    FillIsPart(Mangle, SshcTcpOutput, MangleTcpOutput(p));
  }

  lemma TproxySetupInserts(p: Params, t: Tbl, b: Chain, r: Rule)
    ensures Ins(TproxySetup(p), t, b, r)
            == One(Insert(Mangle, Prerouting, TcpHook(SshcTcp)), t, b, r)
                + One(Insert(Mangle, Output, TcpHook(SshcTcpOutput)), t, b, r)
  {
    TproxyFills(p);
    var x := [RouteAdd] + Fill(Mangle, SshcTcp, MangleTcp(p));
    InsOfTwo(x, Insert(Mangle, Prerouting, TcpHook(SshcTcp)), Fill(Mangle, SshcTcpOutput, MangleTcpOutput(p)),
             Insert(Mangle, Output, TcpHook(SshcTcpOutput)), t, b, r);
  }

  lemma HotspotOf(p: Params, t: Tbl, b: Chain, r: Rule)
    ensures Ins(Hotspot(p), t, b, r)
            <= if t.Mangle? && b.Prerouting? && exists i | i in IFACES :: r == IfaceTcpHook(i, SshcTcp) then 1 else 0
  {
    if p.hotspot {
      HotspotInserts(IFACES, t, b, r);
    }
  }

  lemma IfaceHookIsNotPlain(c: Chain)
    ensures forall i: string :: IfaceTcpHook(i, SshcTcp) != TcpHook(c) && IfaceTcpHook(i, SshcTcp) != PlainHook(c)
  {
    forall i: string
      ensures IfaceTcpHook(i, SshcTcp) != TcpHook(c) && IfaceTcpHook(i, SshcTcp) != PlainHook(c)
    {
      assert |IfaceTcpHook(i, SshcTcp).matches| == 2 && |TcpHook(c).matches| == 1 && |PlainHook(c).matches| == 0;
    }
  }

  lemma TproxySum(setup: nat, hotspot: nat, t: Tbl, b: Chain, r: Rule)
    requires BuiltIn(b)
    requires setup == One(Insert(Mangle, Prerouting, TcpHook(SshcTcp)), t, b, r)
            + One(Insert(Mangle, Output, TcpHook(SshcTcpOutput)), t, b, r)
    requires hotspot
             <= if t.Mangle? && b.Prerouting? && exists i | i in IFACES :: r == IfaceTcpHook(i, SshcTcp) then 1 else 0
    ensures setup + hotspot <= if TproxyHook(t, b, r) then 1 else 0
  {
    IfaceHookIsNotPlain(SshcTcp);
  }

  lemma TproxyInserts(p: Params, t: Tbl, b: Chain, r: Rule)
    requires BuiltIn(b)
    ensures Ins(EnableTcpTproxy(p), t, b, r) <= if TproxyHook(t, b, r) then 1 else 0
  {
    TproxySetupInserts(p, t, b, r);
    HotspotOf(p, t, b, r);
    InsJoin(TproxySetup(p), Hotspot(p), t, b, r);
    TproxySum(Ins(TproxySetup(p), t, b, r), Ins(Hotspot(p), t, b, r), t, b, r);
  }

  lemma RedirectFills(p: Params)
    ensures Part(Fill(Nat, SshcTcp, NatTcp(p))) && NoInserts(Fill(Nat, SshcTcp, NatTcp(p)))
    ensures Part(Fill(Nat, SshcTcpOutput, NatTcpOutput(p))) && NoInserts(Fill(Nat, SshcTcpOutput, NatTcpOutput(p)))
  {
    TcpChainsDoNotJump(p);
    FillIsPart(Nat, SshcTcp, NatTcp(p));
    FillIsPart(Nat, SshcTcpOutput, NatTcpOutput(p));
  }

  lemma NoneThenTwo(x: seq<Cmd>, i: Cmd, j: Cmd, t: Tbl, b: Chain, r: Rule)
    requires NoInserts(x)
    ensures Ins(x + [i, j], t, b, r) == One(i, t, b, r) + One(j, t, b, r)
  {
    NoneInserted(x, t, b, r);
    assert multiset(x + [i, j]) == multiset(x) + multiset{i, j};
  }

  lemma RedirectSum(t: Tbl, b: Chain, r: Rule)
    requires BuiltIn(b)
    ensures One(Insert(Nat, Output, TcpHook(SshcTcpOutput)), t, b, r)
            + One(Insert(Nat, Prerouting, TcpHook(SshcTcp)), t, b, r)
            <= if RedirectHook(t, b, r) then 1 else 0
  {
  }

  lemma RedirectInserts(p: Params, t: Tbl, b: Chain, r: Rule)
    requires BuiltIn(b)
    ensures Ins(EnableTcpRedirect(p), t, b, r) <= if RedirectHook(t, b, r) then 1 else 0
  {
    RedirectFills(p);
    var x, y := Fill(Nat, SshcTcp, NatTcp(p)), Fill(Nat, SshcTcpOutput, NatTcpOutput(p));
    NoneJoin(x, y);
    NoneThenTwo(x + y, Insert(Nat, Output, TcpHook(SshcTcpOutput)), Insert(Nat, Prerouting, TcpHook(SshcTcp)), t, b, r);
    RedirectSum(t, b, r);
  }

  lemma NoneThenOne(x: seq<Cmd>, i: Cmd, t: Tbl, b: Chain, r: Rule)
    requires NoInserts(x)
    ensures Ins(x + [i], t, b, r) == One(i, t, b, r)
  {
    NoneInserted(x, t, b, r);
    assert multiset(x + [i]) == multiset(x) + multiset{i};
  }

  lemma UdpFillInserts(p: Params, t: Tbl, b: Chain, r: Rule)
    ensures Ins(UdpFill(p), t, b, r) == One(Insert(Mangle, Prerouting, PlainHook(SshcUdp)), t, b, r)
    ensures Ins(GoInsert(p), t, b, r) == One(Insert(Mangle, Prerouting, PlainHook(SshcUdp)), t, b, r)
  {
    AppendsCreateNothing(Mangle, SshcUdp, UdpRules(p));
    var hook := Insert(Mangle, Prerouting, PlainHook(SshcUdp));
    NoneThenOne([Flush(Mangle, SshcUdp)] + Appends(Mangle, SshcUdp, UdpRules(p)), hook, t, b, r);
    NoneThenOne(Fill(Mangle, SshcUdp, UdpRules(p)), hook, t, b, r);
  }

  lemma ProbeOrFill(probe: seq<Cmd>, fill: seq<Cmd>, drop: seq<Cmd>, chosen: bool, bound: nat,
                    t: Tbl, b: Chain, r: Rule)
    requires NoInserts(probe) && NoInserts(drop) && Ins(fill, t, b, r) == bound
    ensures Ins(probe + if chosen then fill else drop, t, b, r) <= bound
  {
    NoneInserted(probe, t, b, r);
    NoneInserted(drop, t, b, r);
    InsJoin(probe, if chosen then fill else drop, t, b, r);
  }

  lemma UdpInserts(k: Kernel, p: Params, t: Tbl, b: Chain, r: Rule)
    ensures Ins(UdpCmds(k, p), t, b, r) <= One(Insert(Mangle, Prerouting, PlainHook(SshcUdp)), t, b, r)
    ensures Ins(GoInsert(p), t, b, r) == One(Insert(Mangle, Prerouting, PlainHook(SshcUdp)), t, b, r)
  {
    UdpFillInserts(p, t, b, r);
    var probed := RunAll(k, UdpProbe(p));
    var chosen := SshcUdp in probed.mangle && BareTproxy(p.udp) in probed.mangle[SshcUdp];
    ProbeOrFill(UdpProbe(p), UdpFill(p), DropChain(Mangle, SshcUdp), chosen,
                One(Insert(Mangle, Prerouting, PlainHook(SshcUdp)), t, b, r), t, b, r);
  }

  lemma DnsInserts(p: Params, t: Tbl, b: Chain, r: Rule)
    ensures Ins(EnableDns(p), t, b, r) == One(Insert(Nat, Output, DnsHook(SshcDns)), t, b, r)
  {
    AppendsCreateNothing(Nat, SshcDns, DnsRules(p));
    var fill := Fill(Nat, SshcDns, DnsRules(p));
    var del, ins := Remove(Nat, Output, DnsHook(SshcDns)), Insert(Nat, Output, DnsHook(SshcDns));
    NoneThenOne(fill + [del], ins, t, b, r);
    assert EnableDns(p) == (fill + [del]) + [ins];
  }

  lemma NoneJoin(x: seq<Cmd>, y: seq<Cmd>)
    requires NoInserts(x) && NoInserts(y)
    ensures NoInserts(x + y)
  {
  }

  lemma SweepInsertsNothing(cmds: seq<Cmd>)
    requires AllSweep(cmds)
    ensures NoInserts(cmds)
  {
  }

  lemma ProbeInsertsNothing()
    ensures NoInserts(ProbeAndDrop())
  {
  }

  lemma CleaningInserts(t: Tbl, b: Chain, r: Rule)
    ensures Ins(Cleanup(IFACES) + ProbeAndDrop(), t, b, r) == 0
  {
    CleanupSweeps(IFACES);
    SweepInsertsNothing(Cleanup(IFACES));
    ProbeInsertsNothing();
    NoneJoin(Cleanup(IFACES), ProbeAndDrop());
    NoneInserted(Cleanup(IFACES) + ProbeAndDrop(), t, b, r);
  }

  /** The sums stay within the limits. */
  lemma HooksWithinLimit(tcp: nat, t: Tbl, b: Chain, r: Rule)
    requires BuiltIn(b)
    requires (tcp <= if TproxyHook(t, b, r) then 1 else 0) || (tcp <= if RedirectHook(t, b, r) then 1 else 0)
    ensures tcp + 2 * One(Insert(Mangle, Prerouting, PlainHook(SshcUdp)), t, b, r)
            + One(Insert(Nat, Output, DnsHook(SshcDns)), t, b, r)
            <= Limit(t, b, r)
  {
    assert |PlainHook(SshcUdp).matches| == 0 && |TcpHook(SshcTcp).matches| == 1 && |DnsHook(SshcDns).matches| == 2;
    forall i: string
      ensures IfaceTcpHook(i, SshcTcp) != PlainHook(SshcUdp)
    {
      assert |IfaceTcpHook(i, SshcTcp).matches| == 2;
    }
    assert TcpHook(SshcTcpOutput).target != DnsHook(SshcDns).target;
  }

  lemma EnableInserts(k: Kernel, p: Params, t: Tbl, b: Chain, r: Rule) returns (tcp: nat)
    requires BuiltIn(b)
    ensures (tcp <= if TproxyHook(t, b, r) then 1 else 0) || (tcp <= if RedirectHook(t, b, r) then 1 else 0)
    ensures Ins(EnableCmds(k, p), t, b, r)
            <= tcp + One(Insert(Mangle, Prerouting, PlainHook(SshcUdp)), t, b, r)
                + One(Insert(Nat, Output, DnsHook(SshcDns)), t, b, r)
  {
    var k2 := Prepare(k);
    var k3 := EnableTcp(k2, p);
    var a, c, d, e := Cleanup(IFACES) + ProbeAndDrop(), TcpCmds(k2, p), UdpCmds(k3, p), EnableDns(p);
    tcp := Ins(c, t, b, r);
    TproxyInserts(p, t, b, r);
    RedirectInserts(p, t, b, r);
    CleaningInserts(t, b, r);
    UdpInserts(k3, p, t, b, r);
    DnsInserts(p, t, b, r);
    InsJoin(a + c + d, e, t, b, r);
    InsJoin(a + c, d, t, b, r);
    InsJoin(a, c, t, b, r);
  }

  lemma ConnectInserts(k: Kernel, p: Params, transparent: bool, t: Tbl, b: Chain, r: Rule)
    requires BuiltIn(b)
    ensures Ins(ConnectCmds(k, p, transparent), t, b, r) <= Limit(t, b, r)
  {
    UdpInserts(k, p, t, b, r);
    if transparent {
      var tcp := EnableInserts(k, p, t, b, r);
      HooksWithinLimit(tcp, t, b, r);
      InsJoin(EnableCmds(k, p), GoInsert(p), t, b, r);
    } else {
      HooksWithinLimit(0, t, b, r);
      InsJoin([], GoInsert(p), t, b, r);
    }
  }

  // ------------------------------------------------------------ and they are own commands

  lemma TcpCmdsArePart(k: Kernel, p: Params)
    ensures Part(TcpCmds(k, p))
  {
    EnableTcpOwn(p);
    TproxyFills(p);
    RedirectFills(p);
    HotspotCreatesNothing(IFACES);
  }

  lemma {:induction false} HotspotCreatesNothing(ifaces: seq<string>)
    ensures forall cmd | cmd in ForIfaces(ifaces, HotspotIface) :: cmd.Insert?
  {
    if ifaces != [] {
      HotspotCreatesNothing(ifaces[..|ifaces| - 1]);
    }
  }

  lemma OwnWithoutNew(cmds: seq<Cmd>)
    requires AllOwn(cmds) && forall cmd | cmd in cmds :: cmd.New? ==> MayExist(cmd.t, cmd.c)
    ensures Part(cmds)
  {
  }

  lemma UdpChoiceIsPart(k: Kernel, p: Params)
    ensures Part(UdpCmds(k, p))
  {
    UdpOwn(p);
    AppendsCreateNothing(Mangle, SshcUdp, UdpRules(p));
    OwnWithoutNew(UdpProbe(p));
    OwnWithoutNew(UdpFill(p));
    OwnWithoutNew(DropChain(Mangle, SshcUdp));
    PartsJoin(UdpProbe(p), UdpFill(p));
    PartsJoin(UdpProbe(p), DropChain(Mangle, SshcUdp));
  }

  lemma GoInsertIsPart(p: Params)
    ensures Part(GoInsert(p))
  {
    UdpOwn(p);
    AppendsCreateNothing(Mangle, SshcUdp, UdpRules(p));
    OwnWithoutNew(GoInsert(p));
  }

  lemma DnsIsPart(p: Params)
    ensures Part(EnableDns(p))
  {
    UdpOwn(p);
    AppendsCreateNothing(Nat, SshcDns, DnsRules(p));
    OwnWithoutNew(EnableDns(p));
  }

  lemma UdpCmdsArePart(k: Kernel, p: Params)
    ensures Part(UdpCmds(k, p)) && Part(GoInsert(p)) && Part(EnableDns(p)) && Part(ProbeAndDrop())
  {
    UdpChoiceIsPart(k, p);
    GoInsertIsPart(p);
    DnsIsPart(p);
    OwnWithoutNew(ProbeAndDrop());
  }

  lemma ConnectIsPart(k: Kernel, p: Params, transparent: bool)
    ensures Part(ConnectCmds(k, p, transparent))
  {
    var k2 := Prepare(k);
    var k3 := EnableTcp(k2, p);
    var a, b, c, d, e := Cleanup(IFACES), ProbeAndDrop(), TcpCmds(k2, p), UdpCmds(k3, p), EnableDns(p);
    CleanupSweeps(IFACES);
    SweepIsPart(a);
    TcpCmdsArePart(k2, p);
    UdpCmdsArePart(k3, p);
    PartsJoin(a, b);
    PartsJoin(a + b, c);
    PartsJoin(a + b + c, d);
    PartsJoin(a + b + c + d, e);
    PartsJoin(a + b + c + d + e, GoInsert(p));
    PartsJoin([], GoInsert(p));
  }
}
