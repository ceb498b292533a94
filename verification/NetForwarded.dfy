/** What PREROUTING does to forwarded packets in both modes, and OUTPUT to DNS queries. */
module NetForwarded {
  import opened Netfilter
  import opened NetScripts
  import opened NetForeign
  import opened NetShape
  import opened NetHooks
  import opened NetRestart
  import opened NetCapture

  // ------------------------------------------------------------ the chains

  lemma NatTcpExitsHit(p: Params, q: Packet)
    requires q.dst < 0x1_0000_0000
    ensures SomeHit(NatTcpExits(p), q) <==>
            Reserved(q.dst) || q.dst in p.bypass || OwnPort(p, q, {p.tcp, p.api, p.socks})
  {
    var ports := [TcpPortExit(p.tcp), TcpPortExit(p.api), TcpPortExit(p.socks)];
    SomeHitConcat(WideBlocks() + BypassExit(p), ports, q);
    SomeHitConcat(WideBlocks(), BypassExit(p), q);
    WideBlocksHit(q);
    BypassHit(p, q);
    PortExitHit(p.tcp, q); PortExitHit(p.api, q); PortExitHit(p.socks, q);
    assert ports[0] in ports && ports[1] in ports && ports[2] in ports;
  }

  lemma NatTcpChain(tb: Table, avail: set<Chain>, p: Params, q: Packet)
    requires q.dst < 0x1_0000_0000 && q.proto.Tcp?
    ensures Traverse(tb, avail, NatTcp(p), q) ==
            if Reserved(q.dst) || q.dst in p.bypass || q.dport in {p.tcp, p.api, p.socks} then Through(q)
            else Stopped(Redirected(p.tcp), q)
  {
    var catch := Rule([ProtoIs(Tcp)], Redirect(p.tcp));
    AllAreExits(p);
    ChainEnds(tb, avail, NatTcpExits(p), catch, q);
    NatTcpExitsHit(p, q);
    assert Hits(catch, q);
    assert [catch][1..] == [];
  }

  lemma HookHits(proto: Proto, q: Packet)
    ensures forall port, t :: Hits(Rule([ProtoIs(proto), DportIs(port)], t), q) <==> q.proto == proto && q.dport == port
    ensures forall t :: Hits(Rule([ProtoIs(proto)], t), q) <==> q.proto == proto
    ensures forall t :: Hits(Rule([], t), q)
  {
    forall port, t
      ensures Hits(Rule([ProtoIs(proto), DportIs(port)], t), q) <==> q.proto == proto && q.dport == port
    {
      var ms := [ProtoIs(proto), DportIs(port)];
      assert ms[0] in ms && ms[1] in ms;
      assert Rule(ms, t).matches == ms;
    }
    forall t
      ensures Hits(Rule([ProtoIs(proto)], t), q) <==> q.proto == proto
    {
      assert ProtoIs(proto) in Rule([ProtoIs(proto)], t).matches;
    }
  }

  /** The UDP chain: DNS and the tunnel's own port pass, and the rest goes to the listener if the kernel took
      the last rule. */
  lemma UdpChain(tb: Table, avail: set<Chain>, p: Params, full: bool, q: Packet)
    ensures Traverse(tb, avail, if full then UdpRules(p) else UdpRules(p)[..2], q) ==
            if full && q.proto.Udp? && q.dport != 53 && q.dport != p.udp then Stopped(ToSocket(p.udp), q.(mark := true))
            else Through(q)
  {
    var exits, catch := UdpRules(p)[..2], TproxyRule(Udp, p.udp);
    HookHits(Udp, q);
    assert UdpRules(p) == exits + [catch] && exits + [] == exits;
    assert exits[0] in exits && exits[1] in exits;
    ReturnsFirst(tb, avail, exits, if full then [catch] else [], q);
    assert [catch][1..] == [];
    assert Traverse(tb, avail, [], q) == Through(q);
  }

  lemma DnsChain(tb: Table, avail: set<Chain>, p: Params, q: Packet)
    requires q.proto.Udp? && q.dport == 53
    ensures Traverse(tb, avail, DnsRules(p), q) == if q.uid == 0 then Through(q) else Stopped(Rewritten(p.dns), q)
  {
    var catch := Rule([ProtoIs(Udp), DportIs(53)], Dnat(p.dns));
    HookHits(Udp, q);
    ExitHit(UidIs(0), q);
    assert DnsRules(p) == [Exit(UidIs(0))] + [catch];
    assert Exit(UidIs(0)) in [Exit(UidIs(0))];
    ReturnsFirst(tb, avail, [Exit(UidIs(0))], [catch], q);
  }

  // ------------------------------------------------------------ the tables

  ghost predicate TproxyNatShape(n: Table, p: Params, pre: seq<Rule>, out: seq<Rule>)
  {
    && Prerouting in n && Output in n && SshcDns in n && n[SshcDns] == DnsRules(p)
    && n[Prerouting] == pre && n[Output] == [DnsHook(SshcDns)] + out
  }

  ghost predicate RedirectShape(n: Table, p: Params, pre: seq<Rule>, out: seq<Rule>)
  {
    && Prerouting in n && Output in n && SshcDns in n && n[SshcDns] == DnsRules(p)
    && SshcTcp in n && n[SshcTcp] == NatTcp(p) && n[Prerouting] == [TcpHook(SshcTcp)] + pre
    && n[Output] == [DnsHook(SshcDns)] + ([TcpHook(SshcTcpOutput)] + out)
  }

  /** mangle in the fallback: only what the tunnel loop inserts. */
  ghost predicate FallbackMangleShape(m: Table, p: Params, full: bool, pre: seq<Rule>)
  {
    && Prerouting in m && SshcUdp in m && m[Prerouting] == [PlainHook(SshcUdp)] + pre
    && m[SshcUdp] == if full then UdpRules(p) else UdpRules(p)[..2]
  }

  lemma TproxyNatOnClean(k: Kernel, p: Params)
    requires Clean(k) && Probed(k)
    ensures TproxyNatShape(Up(k, p).natTable, p, k.natTable[Prerouting], k.natTable[Output])
  {
    EnableOnClean(k, p);
    GoInsertRun(TproxyTables(k, p), p);
  }

  lemma RedirectTablesShape(k: Kernel, p: Params)
    requires Clean(k)
    ensures RedirectShape(RedirectTables(k, p).natTable, p, k.natTable[Prerouting], k.natTable[Output])
  {
  }

  lemma FallbackNatIs(k: Kernel, p: Params)
    requires Clean(k) && !Probed(k)
    ensures Up(k, p).natTable == RedirectTables(k, p).natTable
  {
    EnableOnClean(k, p);
    GoInsertRun(RedirectTables(k, p), p);
  }

  lemma FallbackNatOnClean(k: Kernel, p: Params)
    requires Clean(k) && !Probed(k)
    ensures RedirectShape(Up(k, p).natTable, p, k.natTable[Prerouting], k.natTable[Output])
  {
    RedirectTablesShape(k, p);
    FallbackNatIs(k, p);
  }

  lemma FallbackMangleOnClean(k: Kernel, p: Params)
    requires Clean(k) && !Probed(k)
    ensures FallbackMangleShape(Up(k, p).mangle, p, k.tproxy, k.mangle[Prerouting])
  {
    EnableOnClean(k, p);
    GoInsertRun(RedirectTables(k, p), p);
  }

  lemma FallbackOnClean(k: Kernel, p: Params)
    requires Clean(k) && !Probed(k)
    ensures RedirectShape(Up(k, p).natTable, p, k.natTable[Prerouting], k.natTable[Output])
    ensures FallbackMangleShape(Up(k, p).mangle, p, k.tproxy, k.mangle[Prerouting])
  {
    FallbackNatOnClean(k, p);
    FallbackMangleOnClean(k, p);
  }

  lemma UpShapes(k: Kernel, p: Params)
    requires Cleaned(k)
    ensures Probed(k) ==> TproxyNatShape(Up(k, p).natTable, p, k.natTable[Prerouting], k.natTable[Output])
    ensures !Probed(k) ==> RedirectShape(Up(k, p).natTable, p, k.natTable[Prerouting], k.natTable[Output])
    ensures !Probed(k) ==> FallbackMangleShape(Up(k, p).mangle, p, k.tproxy, k.mangle[Prerouting])
  {
    UpOnCleaned(k, p);
    if Probed(k) {
      TproxyNatOnClean(WithoutProbe(k), p);
    } else {
      FallbackOnClean(WithoutProbe(k), p);
    }
  }

  // ------------------------------------------------------------ forwarded packets

  /** In the fallback a forwarded TCP packet is redirected to the tunnel's TCP port if and only if it is not for a
      reserved range, a bypass address or one of these ports of the daemon; everything else passes. */
  lemma ForwardedRedirect(k: Kernel, p: Params, q: Packet)
    requires Cleaned(k) && !Probed(k) && q.dst < 0x1_0000_0000
    requires Passes(Up(k, p).natTable, Prerouting, k.natTable[Prerouting], q)
    ensures Hook(Up(k, p).natTable, Prerouting, q) ==
            if q.proto.Tcp? && !Reserved(q.dst) && q.dst !in p.bypass && q.dport !in {p.tcp, p.api, p.socks} then
              Stopped(Redirected(p.tcp), q)
            else Through(q)
  {
    UpShapes(k, p);
    var n := Up(k, p).natTable;
    var avail := n.Keys - {Prerouting};
    TcpHookHits(SshcTcp, q);
    if q.proto.Tcp? {
      NatTcpChain(n, avail - {SshcTcp}, p, q);
      JumpFirst(n, avail, TcpHook(SshcTcp), k.natTable[Prerouting], q);
    } else {
      MissFirst(n, avail, TcpHook(SshcTcp), k.natTable[Prerouting], q);
    }
  }

  lemma {:induction false} HotspotHooksMiss(tb: Table, avail: set<Chain>, ifaces: seq<string>, rest: seq<Rule>,
                                            q: Packet)
    requires !q.proto.Tcp?
    ensures Traverse(tb, avail, IfaceHooks(ifaces) + rest, q) == Traverse(tb, avail, rest, q)
  {
    forall r | r in IfaceHooks(ifaces)
      ensures !Hits(r, q)
    {
      IfaceHooksNameTcp(ifaces, r);
    }
    SkipMisses(tb, avail, IfaceHooks(ifaces), rest, q);
  }

  lemma {:induction false} IfaceHooksNameTcp(ifaces: seq<string>, r: Rule)
    requires r in IfaceHooks(ifaces)
    ensures ProtoIs(Tcp) in r.matches
  {
    var last := IfaceTcpHook(ifaces[|ifaces| - 1], SshcTcp);
    if r == last {
      assert last.matches[1] == ProtoIs(Tcp);
    } else {
      IfaceHooksNameTcp(ifaces[..|ifaces| - 1], r);
    }
  }

  /** PREROUTING of mangle in TPROXY mode on a packet that is not TCP. */
  lemma PreroutingOther(tb: Table, p: Params, pre: seq<Rule>, out: seq<Rule>, q: Packet)
    requires TproxyShape(tb, p, pre, out) && !q.proto.Tcp?
    ensures Hook(tb, Prerouting, q) ==
            if q.proto.Udp? && q.dport != 53 && q.dport != p.udp then Stopped(ToSocket(p.udp), q.(mark := true))
            else Traverse(tb, tb.Keys - {Prerouting}, pre, q)
  {
    var avail := tb.Keys - {Prerouting};
    var own := [TcpHook(SshcTcp)] + pre;
    var hot := HotspotHooks(p) + own;
    TcpHookHits(SshcTcp, q);
    MissFirst(tb, avail, TcpHook(SshcTcp), pre, q);
    if p.hotspot {
      HotspotHooksMiss(tb, avail, IFACES, own, q);
    } else {
      assert hot == own;
    }
    UdpChain(tb, avail - {SshcUdp}, p, true, q);
    HookHits(Udp, q);
    JumpFirst(tb, avail, PlainHook(SshcUdp), hot, q);
    JumpFirst(tb, avail, PlainHook(SshcUdp), [PlainHook(SshcUdp)] + hot, q);
  }

  /** In TPROXY mode a forwarded TCP packet goes to the tunnel's TCP socket if and only if it is not for a reserved
      range, a bypass address or one of these ports; a UDP packet goes to its UDP socket if and only if it is
      neither DNS nor for that port; everything else passes. */
  lemma ForwardedTproxy(k: Kernel, p: Params, q: Packet)
    requires Cleaned(k) && Probed(k) && q.dst < 0x1_0000_0000
    requires Passes(Up(k, p).mangle, Prerouting, k.mangle[Prerouting], q)
    ensures Hook(Up(k, p).mangle, Prerouting, q) ==
            if q.proto.Tcp? && !Reserved(q.dst) && q.dst !in p.bypass && q.dport !in {p.tcp, p.api, p.socks, p.dns} then
              Stopped(ToSocket(p.tcp), q.(mark := true))
            else if q.proto.Udp? && q.dport !in {53, p.udp} then Stopped(ToSocket(p.udp), q.(mark := true))
            else Through(q)
  {
    UpHasTproxyShape(k, p);
    if q.proto.Tcp? {
      PreroutingTcp(Up(k, p).mangle, p, k.mangle[Prerouting], k.mangle[Output], q);
    } else {
      PreroutingOther(Up(k, p).mangle, p, k.mangle[Prerouting], k.mangle[Output], q);
    }
  }

  /** Forwarded UDP in the fallback: the tunnel's socket takes it if and only if the kernel takes TPROXY rules with a
      protocol at all, and it is neither DNS nor for that port. */
  lemma ForwardedUdpInFallback(k: Kernel, p: Params, q: Packet)
    requires Cleaned(k) && !Probed(k)
    requires Passes(Up(k, p).mangle, Prerouting, k.mangle[Prerouting], q)
    ensures Hook(Up(k, p).mangle, Prerouting, q) ==
            if k.tproxy && q.proto.Udp? && q.dport !in {53, p.udp} then Stopped(ToSocket(p.udp), q.(mark := true))
            else Through(q)
  {
    UpShapes(k, p);
    var m := Up(k, p).mangle;
    var avail := m.Keys - {Prerouting};
    UdpChain(m, avail - {SshcUdp}, p, k.tproxy, q);
    HookHits(Udp, q);
    JumpFirst(m, avail, PlainHook(SshcUdp), k.mangle[Prerouting], q);
  }

  /** Both modes take the same forwarded TCP packets, but for those to the DNS port of the daemon, which only the
      fallback takes. */
  lemma ForwardedAlike(k1: Kernel, k2: Kernel, p: Params, q: Packet)
    requires Cleaned(k1) && Probed(k1) && Cleaned(k2) && !Probed(k2) && q.proto.Tcp? && q.dst < 0x1_0000_0000
    requires Passes(Up(k1, p).mangle, Prerouting, k1.mangle[Prerouting], q)
    requires Passes(Up(k2, p).natTable, Prerouting, k2.natTable[Prerouting], q)
    ensures var a, b := Hook(Up(k1, p).mangle, Prerouting, q), Hook(Up(k2, p).natTable, Prerouting, q);
      && (a.Stopped? ==> a.v == ToSocket(p.tcp) && b.Stopped? && b.v == Redirected(p.tcp))
      && (b.Stopped? && !a.Stopped? <==>
            q.dport == p.dns && !Reserved(q.dst) && q.dst !in p.bypass && p.dns !in {p.tcp, p.api, p.socks})
  {
    ForwardedTproxy(k1, p, q);
    ForwardedRedirect(k2, p, q);
  }

  // ------------------------------------------------------------ DNS queries

  /** In both modes a locally generated UDP packet is sent to the daemon's DNS port if and only if it goes to port 53
      and is not root's. */
  lemma ExactDns(k: Kernel, p: Params, q: Packet)
    requires Cleaned(k) && q.proto.Udp?
    requires Passes(Up(k, p).natTable, Output, k.natTable[Output], q)
    ensures Hook(Up(k, p).natTable, Output, q) ==
            if q.dport == 53 && q.uid != 0 then Stopped(Rewritten(p.dns), q) else Through(q)
  {
    UpShapes(k, p);
    var n := Up(k, p).natTable;
    var out := if Probed(k) then k.natTable[Output] else [TcpHook(SshcTcpOutput)] + k.natTable[Output];
    var avail := n.Keys - {Output};
    TcpHookHits(SshcTcpOutput, q);
    MissFirst(n, avail, TcpHook(SshcTcpOutput), k.natTable[Output], q);
    HookHits(Udp, q);
    if q.dport == 53 {
      DnsChain(n, avail - {SshcDns}, p, q);
      JumpFirst(n, avail, DnsHook(SshcDns), out, q);
    } else {
      MissFirst(n, avail, DnsHook(SshcDns), out, q);
    }
  }
}
