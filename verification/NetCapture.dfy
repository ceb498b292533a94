/** Which locally generated packets the two rule sets take into the tunnel. */
module NetCapture {
  import opened Numbers
  import opened Netfilter
  import opened NetScripts
  import opened NetForeign
  import opened NetShape
  import opened NetHooks
  import opened NetRestart

  // ---------------------------------------------------------------------------
  // What the destination blocks mean, by the octets of an address.

  function Octet1(dst: nat): nat { dst / 0x100_0000 }
  function Octet2(dst: nat): nat { dst / 0x1_0000 % 256 }

  /** The private, loopback, multicast and reserved ranges that SSHC_TCP_OUTPUT skips. */
  predicate NarrowReserved(dst: nat)
  {
    || Octet1(dst) in {0, 10, 127}
    || (Octet1(dst) == 192 && Octet2(dst) == 168)
    || 224 <= Octet1(dst) < 240
  }

  /** The longer list of SSHC_TCP. */
  predicate Reserved(dst: nat)
  {
    || NarrowReserved(dst)
    || (Octet1(dst) == 100 && 64 <= Octet2(dst) < 128)
    || (Octet1(dst) == 169 && Octet2(dst) == 254)
    || (Octet1(dst) == 172 && 16 <= Octet2(dst) < 32)
    || 240 <= Octet1(dst)
  }

  lemma BlockSizes()
    ensures Pow2(32 - 4) == 0x1000_0000 && Pow2(32 - 8) == 0x100_0000 && Pow2(32 - 10) == 0x40_0000
    ensures Pow2(32 - 12) == 0x10_0000 && Pow2(32 - 16) == 0x1_0000
  {
    assert Pow2(8) == 0x100;
    assert Pow2(16) == 0x1_0000;
    assert Pow2(20) == 0x10_0000;
    assert Pow2(22) == 0x40_0000;
    assert Pow2(24) == 0x100_0000;
    assert Pow2(28) == 0x1000_0000;
  }

  predicate SomeHit(rules: seq<Rule>, p: Packet) { exists r | r in rules :: Hits(r, p) }

  lemma SomeHitConcat(a: seq<Rule>, b: seq<Rule>, p: Packet)
    ensures SomeHit(a + b, p) <==> SomeHit(a, p) || SomeHit(b, p)
  {
  }

  lemma ExitHit(m: Match, p: Packet)
    ensures Hits(Exit(m), p) <==> Satisfies(p, m)
  {
    assert m in Exit(m).matches;
  }

  lemma PortExitHit(port: nat, p: Packet)
    ensures Hits(TcpPortExit(port), p) <==> p.proto.Tcp? && p.dport == port
  {
    var ms := TcpPortExit(port).matches;
    assert ms[0] in ms && ms[1] in ms;
  }

  /** A list of block exits hits if the address is in one of the blocks. */
  lemma BlocksHit(blocks: seq<(nat, nat)>, p: Packet)
    ensures SomeHit(BlockExits(blocks), p) <==> exists b | b in blocks :: InBlock(p.dst, b.0, b.1)
  {
    var exits := BlockExits(blocks);
    forall i | 0 <= i < |blocks|
      ensures exits[i] in exits && (Hits(exits[i], p) <==> InBlock(p.dst, blocks[i].0, blocks[i].1))
    {
      ExitHit(DstBlock(blocks[i].0, blocks[i].1), p);
    }
  }

  lemma Block8(dst: nat, a: nat)
    requires dst < 0x1_0000_0000 && a < 256
    ensures InBlock(dst, Addr(a, 0, 0, 0), 8) <==> Octet1(dst) == a
  {
    BlockSizes();
  }

  lemma Octets(dst: nat)
    requires dst < 0x1_0000_0000
    ensures var w := dst / 0x1_0000;
      Octet1(dst) == w / 256 && Octet2(dst) == w % 256 && w * 0x1_0000 <= dst < (w + 1) * 0x1_0000
  {
  }

  lemma Block16(dst: nat, a: nat, b: nat)
    requires dst < 0x1_0000_0000 && a < 256 && b < 256
    ensures InBlock(dst, Addr(a, b, 0, 0), 16) <==> Octet1(dst) == a && Octet2(dst) == b
  {
    BlockSizes();
    Octets(dst);
    var w := dst / 0x1_0000;
    assert Addr(a, b, 0, 0) == (a * 256 + b) * 0x1_0000;
    assert InBlock(dst, Addr(a, b, 0, 0), 16) <==> w == a * 256 + b;
  }

  lemma OddBlocks(dst: nat)
    requires dst < 0x1_0000_0000
    ensures InBlock(dst, Addr(100, 64, 0, 0), 10) <==> Octet1(dst) == 100 && 64 <= Octet2(dst) < 128
    ensures InBlock(dst, Addr(172, 16, 0, 0), 12) <==> Octet1(dst) == 172 && 16 <= Octet2(dst) < 32
    ensures InBlock(dst, Addr(224, 0, 0, 0), 4) <==> 224 <= Octet1(dst) < 240
    ensures InBlock(dst, Addr(240, 0, 0, 0), 4) <==> 240 <= Octet1(dst)
  {
    BlockSizes();
  }

  lemma NarrowBlocksHit(p: Packet)
    requires p.dst < 0x1_0000_0000
    ensures SomeHit(NarrowBlocks(), p) <==> NarrowReserved(p.dst)
  {
    Block8(p.dst, 0); Block8(p.dst, 10); Block8(p.dst, 127);
    Block16(p.dst, 192, 168);
    OddBlocks(p.dst);
    BlocksHit(NARROW_BLOCKS, p);
  }

  lemma WideBlocksHit(p: Packet)
    requires p.dst < 0x1_0000_0000
    ensures SomeHit(WideBlocks(), p) <==> Reserved(p.dst)
  {
    Block8(p.dst, 0); Block8(p.dst, 10); Block8(p.dst, 127);
    Block16(p.dst, 169, 254); Block16(p.dst, 192, 168);
    OddBlocks(p.dst);
    BlocksHit(WIDE_BLOCKS, p);
  }

  lemma BypassHit(p: Params, q: Packet)
    ensures SomeHit(BypassExit(p), q) <==> q.dst in p.bypass
  {
    if p.bypass != {} {
      ExitHit(DstIn(p.bypass), q);
      assert BypassExit(p)[0] in BypassExit(p);
    }
  }

  predicate OwnPort(p: Params, q: Packet, ports: set<nat>) { q.proto.Tcp? && q.dport in ports }

  lemma MangleTcpExitsHit(p: Params, q: Packet)
    requires q.dst < 0x1_0000_0000
    ensures SomeHit(MangleTcpExits(p), q) <==>
            Reserved(q.dst) || q.dst in p.bypass || OwnPort(p, q, {p.tcp, p.api, p.socks, p.dns})
  {
    var ports := [TcpPortExit(p.tcp), TcpPortExit(p.api), TcpPortExit(p.socks), TcpPortExit(p.dns)];
    SomeHitConcat(WideBlocks() + BypassExit(p), ports, q);
    SomeHitConcat(WideBlocks(), BypassExit(p), q);
    WideBlocksHit(q);
    BypassHit(p, q);
    PortExitHit(p.tcp, q); PortExitHit(p.api, q); PortExitHit(p.socks, q); PortExitHit(p.dns, q);
    assert ports[0] in ports && ports[1] in ports && ports[2] in ports && ports[3] in ports;
  }

  lemma RootExitHit(q: Packet)
    ensures SomeHit(RootExit(), q) <==> q.uid == 0
  {
    ExitHit(UidIs(0), q);
    assert RootExit()[0] in RootExit();
  }

  lemma OutputExitsHit(p: Params, q: Packet, ports: seq<Rule>)
    requires q.dst < 0x1_0000_0000
    ensures SomeHit(RootExit() + NarrowBlocks() + BypassExit(p) + ports, q) <==>
            q.uid == 0 || NarrowReserved(q.dst) || q.dst in p.bypass || SomeHit(ports, q)
  {
    SomeHitConcat(RootExit() + NarrowBlocks() + BypassExit(p), ports, q);
    SomeHitConcat(RootExit() + NarrowBlocks(), BypassExit(p), q);
    SomeHitConcat(RootExit(), NarrowBlocks(), q);
    RootExitHit(q);
    NarrowBlocksHit(q);
    BypassHit(p, q);
  }

  lemma MangleOutputExitsHit(p: Params, q: Packet)
    requires q.dst < 0x1_0000_0000
    ensures SomeHit(MangleTcpOutputExits(p), q) <==>
            q.uid == 0 || NarrowReserved(q.dst) || q.dst in p.bypass || OwnPort(p, q, {p.tcp, p.api})
  {
    var ports := [TcpPortExit(p.tcp), TcpPortExit(p.api)];
    OutputExitsHit(p, q, ports);
    PortExitHit(p.tcp, q); PortExitHit(p.api, q);
    assert ports[0] in ports && ports[1] in ports;
  }

  lemma NatOutputExitsHit(p: Params, q: Packet)
    requires q.dst < 0x1_0000_0000
    ensures SomeHit(NatTcpOutputExits(p), q) <==>
            q.uid == 0 || NarrowReserved(q.dst) || q.dst in p.bypass || OwnPort(p, q, {p.tcp})
  {
    var ports := [TcpPortExit(p.tcp)];
    OutputExitsHit(p, q, ports);
    PortExitHit(p.tcp, q);
    assert ports[0] in ports;
  }

  // ---------------------------------------------------------------------------
  // Traversal of the hooks.

  lemma ChainEnds(tb: Table, avail: set<Chain>, exits: seq<Rule>, last: Rule, q: Packet)
    requires AllExits(exits)
    ensures Traverse(tb, avail, exits + [last], q) ==
            if SomeHit(exits, q) then Through(q) else Traverse(tb, avail, [last], q)
  {
    ReturnsFirst(tb, avail, exits, [last], q);
  }

  lemma TcpHookHits(c: Chain, q: Packet)
    ensures Hits(TcpHook(c), q) <==> q.proto.Tcp?
  {
    assert ProtoIs(Tcp) in TcpHook(c).matches;
  }

  lemma JumpFirst(tb: Table, avail: set<Chain>, hook: Rule, rest: seq<Rule>, q: Packet)
    requires hook.target.Jump? && hook.target.chain in avail && hook.target.chain in tb && Hits(hook, q)
    ensures var sub := Traverse(tb, avail - {hook.target.chain}, tb[hook.target.chain], q);
            Traverse(tb, avail, [hook] + rest, q) == if sub.Through? then Traverse(tb, avail, rest, sub.p) else sub
  {
    assert ([hook] + rest)[1..] == rest;
  }

  lemma MissFirst(tb: Table, avail: set<Chain>, hook: Rule, rest: seq<Rule>, q: Packet)
    requires !Hits(hook, q)
    ensures Traverse(tb, avail, [hook] + rest, q) == Traverse(tb, avail, rest, q)
  {
    assert ([hook] + rest)[1..] == rest;
  }

  /** The tables of TPROXY mode as far as a packet needs them. */
  ghost predicate TproxyShape(tb: Table, p: Params, pre: seq<Rule>, out: seq<Rule>)
  {
    && SshcTcp in tb && SshcTcpOutput in tb && SshcUdp in tb && Prerouting in tb && Output in tb
    && tb[SshcTcp] == MangleTcp(p) && tb[SshcTcpOutput] == MangleTcpOutput(p) && tb[SshcUdp] == UdpRules(p)
    && tb[Output] == [TcpHook(SshcTcpOutput)] + out
    && tb[Prerouting] == [PlainHook(SshcUdp)] + ([PlainHook(SshcUdp)] + (HotspotHooks(p) + ([TcpHook(SshcTcp)] + pre)))
  }

  lemma MarkedOrNot(tb: Table, avail: set<Chain>, p: Params, q: Packet)
    requires q.dst < 0x1_0000_0000 && q.proto.Tcp?
    ensures Traverse(tb, avail, MangleTcpOutput(p), q) ==
            Through(if q.uid == 0 || NarrowReserved(q.dst) || q.dst in p.bypass || q.dport in {p.tcp, p.api} then q
                    else q.(mark := true))
  {
    var mark := Rule([ProtoIs(Tcp)], SetMark(true));
    AllAreExits(p);
    ChainEnds(tb, avail, MangleTcpOutputExits(p), mark, q);
    MangleOutputExitsHit(p, q);
    assert Hits(mark, q);
    assert [mark][1..] == [];
    assert Traverse(tb, avail, [mark], q) == Traverse(tb, avail, [], q.(mark := true));
  }

  predicate TakenBySshcTcp(p: Params, q: Packet)
  {
    q.proto.Tcp? && !Reserved(q.dst) && q.dst !in p.bypass && q.dport !in {p.tcp, p.api, p.socks, p.dns}
  }

  lemma TproxiedOrNot(tb: Table, avail: set<Chain>, p: Params, q: Packet)
    requires q.dst < 0x1_0000_0000 && q.proto.Tcp?
    ensures Traverse(tb, avail, MangleTcp(p), q) ==
            if TakenBySshcTcp(p, q) then Stopped(ToSocket(p.tcp), q.(mark := true)) else Through(q)
  {
    var catch := TproxyRule(Tcp, p.tcp);
    AllAreExits(p);
    ChainEnds(tb, avail, MangleTcpExits(p), catch, q);
    MangleTcpExitsHit(p, q);
    assert Hits(catch, q);
    assert [catch][1..] == [];
  }

  lemma UdpChainPassesTcp(tb: Table, avail: set<Chain>, p: Params, q: Packet)
    requires q.proto.Tcp?
    ensures Traverse(tb, avail, UdpRules(p), q) == Through(q)
  {
    forall r | r in UdpRules(p)
      ensures !Hits(r, q)
    {
      assert ProtoIs(Udp) in r.matches;
    }
    SkipMisses(tb, avail, UdpRules(p), [], q);
    assert UdpRules(p) + [] == UdpRules(p);
  }

  /** Jumps to SSHC_TCP that do not take the packet are as good as absent. */
  lemma {:induction false} HotspotHooksAgree(tb: Table, avail: set<Chain>, p: Params, ifaces: seq<string>,
                                             rest: seq<Rule>, q: Packet)
    requires SshcTcp in avail && SshcTcp in tb && tb[SshcTcp] == MangleTcp(p)
    requires q.dst < 0x1_0000_0000 && q.proto.Tcp? && !TakenBySshcTcp(p, q)
    ensures Traverse(tb, avail, IfaceHooks(ifaces) + rest, q) == Traverse(tb, avail, rest, q)
  {
    if ifaces == [] {
      assert IfaceHooks(ifaces) + rest == rest;
    } else {
      var hook := IfaceTcpHook(ifaces[|ifaces| - 1], SshcTcp);
      var others := IfaceHooks(ifaces[..|ifaces| - 1]) + rest;
      assert IfaceHooks(ifaces) + rest == [hook] + others;
      TproxiedOrNot(tb, avail - {SshcTcp}, p, q);
      if Hits(hook, q) {
        JumpFirst(tb, avail, hook, others, q);
      } else {
        MissFirst(tb, avail, hook, others, q);
      }
      HotspotHooksAgree(tb, avail, p, ifaces[..|ifaces| - 1], rest, q);
    }
  }

  lemma {:induction false} HotspotHooksTake(tb: Table, avail: set<Chain>, p: Params, ifaces: seq<string>,
                                             rest: seq<Rule>, q: Packet)
    requires SshcTcp in avail && SshcTcp in tb && tb[SshcTcp] == MangleTcp(p)
    requires q.dst < 0x1_0000_0000 && TakenBySshcTcp(p, q)
    requires Traverse(tb, avail, rest, q) == Stopped(ToSocket(p.tcp), q.(mark := true))
    ensures Traverse(tb, avail, IfaceHooks(ifaces) + rest, q) == Stopped(ToSocket(p.tcp), q.(mark := true))
  {
    if ifaces == [] {
      assert IfaceHooks(ifaces) + rest == rest;
    } else {
      var hook := IfaceTcpHook(ifaces[|ifaces| - 1], SshcTcp);
      var others := IfaceHooks(ifaces[..|ifaces| - 1]) + rest;
      assert IfaceHooks(ifaces) + rest == [hook] + others;
      TproxiedOrNot(tb, avail - {SshcTcp}, p, q);
      HotspotHooksTake(tb, avail, p, ifaces[..|ifaces| - 1], rest, q);
      if Hits(hook, q) {
        JumpFirst(tb, avail, hook, others, q);
      } else {
        MissFirst(tb, avail, hook, others, q);
      }
    }
  }

  /** PREROUTING on a TCP packet: our chain decides first, what it leaves goes to the foreign rules. */
  lemma PreroutingTcp(tb: Table, p: Params, pre: seq<Rule>, out: seq<Rule>, q: Packet)
    requires TproxyShape(tb, p, pre, out) && q.dst < 0x1_0000_0000 && q.proto.Tcp?
    ensures Hook(tb, Prerouting, q) ==
            if TakenBySshcTcp(p, q) then Stopped(ToSocket(p.tcp), q.(mark := true))
            else Traverse(tb, tb.Keys - {Prerouting}, pre, q)
  {
    var avail := tb.Keys - {Prerouting};
    var own := [TcpHook(SshcTcp)] + pre;
    TcpHookHits(SshcTcp, q);
    JumpFirst(tb, avail, TcpHook(SshcTcp), pre, q);
    TproxiedOrNot(tb, avail - {SshcTcp}, p, q);
    var hot := HotspotHooks(p) + own;
    if !p.hotspot {
      assert hot == own;
    } else if TakenBySshcTcp(p, q) {
      HotspotHooksTake(tb, avail, p, IFACES, own, q);
    } else {
      HotspotHooksAgree(tb, avail, p, IFACES, own, q);
    }
    UdpChainPassesTcp(tb, avail - {SshcUdp}, p, q);
    JumpFirst(tb, avail, PlainHook(SshcUdp), hot, q);
    JumpFirst(tb, avail, PlainHook(SshcUdp), [PlainHook(SshcUdp)] + hot, q);
  }

  lemma OutputTcp(tb: Table, p: Params, pre: seq<Rule>, out: seq<Rule>, q: Packet)
    requires TproxyShape(tb, p, pre, out) && q.dst < 0x1_0000_0000
    ensures var skipped := !q.proto.Tcp? || q.uid == 0 || NarrowReserved(q.dst) || q.dst in p.bypass
            || q.dport in {p.tcp, p.api};
            Hook(tb, Output, q) == Traverse(tb, tb.Keys - {Output}, out, if skipped then q else q.(mark := true))
  {
    var avail := tb.Keys - {Output};
    TcpHookHits(SshcTcpOutput, q);
    if q.proto.Tcp? {
      MarkedOrNot(tb, avail - {SshcTcpOutput}, p, q);
      JumpFirst(tb, avail, TcpHook(SshcTcpOutput), out, q);
    } else {
      MissFirst(tb, avail, TcpHook(SshcTcpOutput), out, q);
    }
  }

  // ---------------------------------------------------------------------------
  // The two modes.

  /** The kernel after `enable` and the insertions of the tunnel loop. */
  function Up(k: Kernel, p: Params): Kernel { RunAll(Enable(k, p), GoInsert(p)) }

  /** The foreign rules of a built-in chain let the packet pass unchanged. */
  ghost predicate Passes(tb: Table, base: Chain, foreign: seq<Rule>, q: Packet)
  {
    Traverse(tb, tb.Keys - {base}, foreign, q) == Through(q)
  }

  ghost predicate ForeignPasses(k: Kernel, up: Kernel, q: Packet)
    requires Cleaned(k)
  {
    && Passes(up.mangle, Output, k.mangle[Output], q)
    && Passes(up.mangle, Output, k.mangle[Output], q.(mark := true))
    && Passes(up.mangle, Prerouting, k.mangle[Prerouting], q.(mark := true, iface := "lo"))
  }

  /** A locally generated packet to a non-local destination: OUTPUT, then the mark route loops it
      back through PREROUTING on lo, where it may end in the TCP listener of the tunnel. The packet may
      have the mark from the start: an application can set it. */
  predicate CapturedByTproxy(k: Kernel, p: Params, q: Packet)
  {
    var out := Hook(k.mangle, Output, q);
    && q.proto.Tcp? && out.Through? && out.p.mark && k.route
    && var pre := Hook(k.mangle, Prerouting, out.p.(iface := "lo"));
       pre.Stopped? && pre.v == ToSocket(p.tcp)
  }

  /** What the SSHC_TCP_OUTPUT chain marks. */
  predicate MarkedBySshcTcpOutput(p: Params, q: Packet)
  {
    q.proto.Tcp? && q.uid != 0 && !NarrowReserved(q.dst) && q.dst !in p.bypass && q.dport !in {p.tcp, p.api}
  }

  predicate CapturedByRedirect(k: Kernel, p: Params, q: Packet)
  {
    var out := Hook(k.natTable, Output, q);
    out.Stopped? && out.v == Redirected(p.tcp)
  }

  lemma UpOnClean(k: Kernel, p: Params)
    requires Clean(k) && Probed(k)
    ensures Up(k, p).route && TproxyShape(Up(k, p).mangle, p, k.mangle[Prerouting], k.mangle[Output])
  {
    EnableOnClean(k, p);
    GoInsertRun(TproxyTables(k, p), p);
  }

  lemma UpOnCleaned(k: Kernel, p: Params)
    requires Cleaned(k)
    ensures Clean(WithoutProbe(k)) && Up(k, p) == Up(WithoutProbe(k), p)
  {
    EnableOnCleaned(k, p);
  }

  lemma UpHasTproxyShape(k: Kernel, p: Params)
    requires Cleaned(k) && Probed(k)
    ensures Up(k, p).route && TproxyShape(Up(k, p).mangle, p, k.mangle[Prerouting], k.mangle[Output])
  {
    UpOnCleaned(k, p);
    UpOnClean(WithoutProbe(k), p);
  }

  /** Exact capture in TPROXY mode, for every packet, marked from the start or not. */
  lemma ExactCapture(k: Kernel, p: Params, q: Packet)
    requires Cleaned(k) && Probed(k) && ForeignPasses(k, Up(k, p), q) && q.dst < 0x1_0000_0000
    ensures CapturedByTproxy(Up(k, p), p, q) <==>
            && q.proto.Tcp?
            && (q.uid != 0 || q.mark)
            && q.dst !in p.bypass
            && !Reserved(q.dst)
            && q.dport !in {p.tcp, p.api, p.socks, p.dns}
  {
    UpHasTproxyShape(k, p);
    CaptureOfShape(Up(k, p), p, k.mangle[Prerouting], k.mangle[Output], q);
  }

  lemma CaptureOfShape(up: Kernel, p: Params, pre: seq<Rule>, out: seq<Rule>, q: Packet)
    requires up.route && TproxyShape(up.mangle, p, pre, out)
    requires Passes(up.mangle, Output, out, q) && Passes(up.mangle, Output, out, q.(mark := true))
    requires Passes(up.mangle, Prerouting, pre, q.(mark := true, iface := "lo"))
    requires q.dst < 0x1_0000_0000
    ensures CapturedByTproxy(up, p, q) <==> TakenBySshcTcp(p, q) && (q.mark || MarkedBySshcTcpOutput(p, q))
    ensures CapturedByTproxy(up, p, q) <==> TakenBySshcTcp(p, q) && (q.mark || q.uid != 0)
  {
    OutputTcp(up.mangle, p, pre, out, q);
    if q.proto.Tcp? {
      PreroutingTcp(up.mangle, p, pre, out, q.(mark := true, iface := "lo"));
      assert q.mark ==> q.(mark := true) == q;
    }
  }

  /** No packet of root is marked: mangle OUTPUT lets it through as it is. */
  lemma RootIsNeverMarked(k: Kernel, p: Params, q: Packet)
    requires Cleaned(k) && Probed(k) && ForeignPasses(k, Up(k, p), q) && q.dst < 0x1_0000_0000 && q.uid == 0
    ensures Hook(Up(k, p).mangle, Output, q) == Through(q)
  {
    UpHasTproxyShape(k, p);
    OutputTcp(Up(k, p).mangle, p, k.mangle[Prerouting], k.mangle[Output], q);
  }

  lemma NatOutputOnClean(k: Kernel, p: Params)
    requires Clean(k) && !Probed(k)
    ensures var n := Up(k, p).natTable;
      && SshcTcpOutput in n && SshcDns in n && Output in n && n[SshcTcpOutput] == NatTcpOutput(p)
      && n[Output] == [DnsHook(SshcDns)] + ([TcpHook(SshcTcpOutput)] + k.natTable[Output])
  {
    EnableOnClean(k, p);
    GoInsertRun(RedirectTables(k, p), p);
  }

  lemma UpNatOutput(k: Kernel, p: Params)
    requires Cleaned(k) && !Probed(k)
    ensures var n := Up(k, p).natTable;
      && SshcTcpOutput in n && SshcDns in n && Output in n && n[SshcTcpOutput] == NatTcpOutput(p)
      && n[Output] == [DnsHook(SshcDns)] + ([TcpHook(SshcTcpOutput)] + k.natTable[Output])
  {
    UpOnCleaned(k, p);
    NatOutputOnClean(WithoutProbe(k), p);
  }

  lemma RedirectedOrNot(tb: Table, avail: set<Chain>, p: Params, q: Packet)
    requires q.dst < 0x1_0000_0000 && q.proto.Tcp?
    ensures Traverse(tb, avail, NatTcpOutput(p), q) ==
            if q.uid == 0 || NarrowReserved(q.dst) || q.dst in p.bypass || q.dport == p.tcp then Through(q)
            else Stopped(Redirected(p.tcp), q)
  {
    var catch := Rule([ProtoIs(Tcp)], Redirect(p.tcp));
    AllAreExits(p);
    ChainEnds(tb, avail, NatTcpOutputExits(p), catch, q);
    NatOutputExitsHit(p, q);
    assert Hits(catch, q);
    assert [catch][1..] == [];
  }

  /** Exact capture in the REDIRECT fallback, for TCP. */
  lemma ExactRedirect(k: Kernel, p: Params, q: Packet)
    requires Cleaned(k) && !Probed(k) && q.dst < 0x1_0000_0000 && q.proto.Tcp?
    requires Passes(Up(k, p).natTable, Output, k.natTable[Output], q)
    ensures CapturedByRedirect(Up(k, p), p, q) <==>
            q.uid != 0 && q.dst !in p.bypass && !NarrowReserved(q.dst) && q.dport != p.tcp
  {
    UpNatOutput(k, p);
    var tb := Up(k, p).natTable;
    var avail := tb.Keys - {Output};
    assert !Hits(DnsHook(SshcDns), q) by { assert ProtoIs(Udp) in DnsHook(SshcDns).matches; }
    MissFirst(tb, avail, DnsHook(SshcDns), [TcpHook(SshcTcpOutput)] + k.natTable[Output], q);
    TcpHookHits(SshcTcpOutput, q);
    RedirectedOrNot(tb, avail - {SshcTcpOutput}, p, q);
    JumpFirst(tb, avail, TcpHook(SshcTcpOutput), k.natTable[Output], q);
  }

  /** Mode refinement: with the same parameters, whatever TPROXY mode captures the fallback captures
      too, except the packets of root that carry the mark already; and the fallback takes exactly the
      rest of the ranges and ports named here. */
  lemma RedirectCoversTproxy(k1: Kernel, k2: Kernel, p: Params, q: Packet)
    requires Cleaned(k1) && Probed(k1) && Cleaned(k2) && !Probed(k2)
    requires ForeignPasses(k1, Up(k1, p), q) && Passes(Up(k2, p).natTable, Output, k2.natTable[Output], q)
    requires q.dst < 0x1_0000_0000 && q.proto.Tcp?
    ensures CapturedByTproxy(Up(k1, p), p, q) && !CapturedByRedirect(Up(k2, p), p, q) <==>
            TakenBySshcTcp(p, q) && q.mark && q.uid == 0
    ensures CapturedByRedirect(Up(k2, p), p, q) && !CapturedByTproxy(Up(k1, p), p, q) <==>
            && q.uid != 0 && q.dst !in p.bypass && !NarrowReserved(q.dst) && q.dport != p.tcp
            && (Reserved(q.dst) || q.dport in {p.api, p.socks, p.dns})
  {
    ExactCapture(k1, p, q);
    ExactRedirect(k2, p, q);
  }
}
