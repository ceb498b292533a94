/** The commands of ssh.iptables, of net_clean.sh and of the tunnel loop itself on the mangle
    and nat tables, as lists and as the imperative scripts that issue them. */
module NetScripts {
  import opened Netfilter

  datatype Params = Params(tcp: nat, udp: nat, dns: nat, api: nat, socks: nat, bypass: set<nat>, hotspot: bool)

  const IFACES: seq<string> := ["wlan+", "swlan+", "ap+", "rndis+", "ncm+", "bt-pan+"]
  const CLEANUP_HOOKS: seq<Chain> := [SshcTcp, SshcTcpOutput, SshcUdp, SshcDns, SshcDrop6]
  const CLEANUP_CHAINS: seq<Chain> := [SshcTcp, SshcTcpOutput, SshcUdp, SshcDns]
  const CLEAN_V4_CHAINS: seq<Chain> := [SshcOutput, SshcPrerouting, SshcProxy, SshcDns, SshcHotspot, SshcHotspotDns]

  function PlainHook(c: Chain): Rule { Rule([], Jump(c)) }
  function TcpHook(c: Chain): Rule { Rule([ProtoIs(Tcp)], Jump(c)) }
  function DnsHook(c: Chain): Rule { Rule([ProtoIs(Udp), DportIs(53)], Jump(c)) }
  function IfaceHook(i: string, c: Chain): Rule { Rule([InIface(i)], Jump(c)) }
  function IfaceTcpHook(i: string, c: Chain): Rule { Rule([InIface(i), ProtoIs(Tcp)], Jump(c)) }

  // --- cleanup() of ssh.iptables ---

  function CleanupHooksOf(c: Chain): seq<Cmd>
  {
    [ Remove(Mangle, Prerouting, TcpHook(c)), Remove(Mangle, Prerouting, PlainHook(c)),
      Remove(Mangle, Output, TcpHook(c)), Remove(Mangle, Output, PlainHook(c)),
      Remove(Nat, Output, TcpHook(c)), Remove(Nat, Prerouting, TcpHook(c)),
      Remove(Nat, Output, DnsHook(c)) ]
  }

  function CleanupIface(i: string, c: Chain): seq<Cmd>
  {
    [Remove(Mangle, Prerouting, IfaceTcpHook(i, c)), Remove(Nat, Prerouting, IfaceTcpHook(i, c))]
  }

  function ForIfaces(ifaces: seq<string>, f: string -> seq<Cmd>): seq<Cmd>
  {
    if ifaces == [] then [] else ForIfaces(ifaces[..|ifaces| - 1], f) + f(ifaces[|ifaces| - 1])
  }

  function ForChains(chains: seq<Chain>, f: Chain -> seq<Cmd>): seq<Cmd>
  {
    if chains == [] then [] else ForChains(chains[..|chains| - 1], f) + f(chains[|chains| - 1])
  }

  function CleanupChain(c: Chain, ifaces: seq<string>): seq<Cmd>
  {
    CleanupHooksOf(c) + ForIfaces(ifaces, i => CleanupIface(i, c))
  }

  function DropChain(t: Tbl, c: Chain): seq<Cmd> { [Flush(t, c), Delete(t, c)] }

  function DropBoth(c: Chain): seq<Cmd> { DropChain(Mangle, c) + DropChain(Nat, c) }

  function Cleanup(ifaces: seq<string>): seq<Cmd>
  {
    ForChains(CLEANUP_HOOKS, c => CleanupChain(c, ifaces)) + ForChains(CLEANUP_CHAINS, DropBoth) + [RouteDel]
  }

  // --- net_clean.sh, which runs `ssh.iptables disable` first ---

  function CleanV4HooksOf(c: Chain): seq<Cmd>
  {
    [ Remove(Nat, Output, TcpHook(c)), Remove(Nat, Output, PlainHook(c)), Remove(Nat, Output, DnsHook(c)),
      Remove(Nat, Prerouting, TcpHook(c)), Remove(Nat, Prerouting, PlainHook(c)) ]
  }

  function CleanV4Iface(i: string, c: Chain): seq<Cmd>
  {
    [Remove(Nat, Prerouting, IfaceTcpHook(i, c)), Remove(Nat, Prerouting, IfaceHook(i, c))]
  }

  function CleanV4Chain(c: Chain): seq<Cmd>
  {
    CleanV4HooksOf(c) + ForIfaces(IFACES, i => CleanV4Iface(i, c))
  }

  function CleanV4(): seq<Cmd>
  {
    ForChains(CLEAN_V4_CHAINS, CleanV4Chain) + ForChains(CLEAN_V4_CHAINS, c => DropChain(Nat, c))
  }

  function CleanUdpTproxy(): seq<Cmd>
  {
    [Remove(Mangle, Prerouting, PlainHook(SshcUdp))] + DropChain(Mangle, SshcUdp)
  }

  function CleanTcpIface(i: string): seq<Cmd> { [Remove(Mangle, Prerouting, IfaceTcpHook(i, SshcTcp))] }

  function CleanTcpHooks(): seq<Cmd>
  {
    [Remove(Mangle, Prerouting, TcpHook(SshcTcp))] + ForIfaces(IFACES, CleanTcpIface)
    + [Remove(Mangle, Output, TcpHook(SshcTcpOutput))]
  }

  function CleanTcpTproxy(): seq<Cmd>
  {
    CleanTcpHooks() + DropChain(Mangle, SshcTcp) + DropChain(Mangle, SshcTcpOutput)
  }

  /** The second pass, after `ssh.iptables disable`, which runs with no interface list. */
  function SecondPass(): seq<Cmd>
  {
    CleanV4() + CleanUdpTproxy() + CleanTcpTproxy() + [RouteDel]
  }

  function NetClean(): seq<Cmd> { Cleanup([]) + SecondPass() }

  // --- enable ---

  function Addr(a: nat, b: nat, c: nat, d: nat): nat { ((a * 256 + b) * 256 + c) * 256 + d }

  function Exit(m: Match): Rule { Rule([m], Return) }

  function TcpPortExit(port: nat): Rule { Rule([ProtoIs(Tcp), DportIs(port)], Return) }

  /** The destinations that the SSHC_TCP chain leaves alone. */
  const WIDE_BLOCKS: seq<(nat, nat)> :=
    [ (Addr(0, 0, 0, 0), 8), (Addr(10, 0, 0, 0), 8), (Addr(100, 64, 0, 0), 10), (Addr(127, 0, 0, 0), 8),
      (Addr(169, 254, 0, 0), 16), (Addr(172, 16, 0, 0), 12), (Addr(192, 168, 0, 0), 16),
      (Addr(224, 0, 0, 0), 4), (Addr(240, 0, 0, 0), 4) ]

  /** The shorter list of the SSHC_TCP_OUTPUT chain. */
  const NARROW_BLOCKS: seq<(nat, nat)> :=
    [ (Addr(0, 0, 0, 0), 8), (Addr(10, 0, 0, 0), 8), (Addr(127, 0, 0, 0), 8), (Addr(192, 168, 0, 0), 16),
      (Addr(224, 0, 0, 0), 4) ]

  function BlockExits(blocks: seq<(nat, nat)>): seq<Rule>
  {
    seq(|blocks|, i requires 0 <= i < |blocks| => Exit(DstBlock(blocks[i].0, blocks[i].1)))
  }

  function WideBlocks(): seq<Rule> { BlockExits(WIDE_BLOCKS) }

  function NarrowBlocks(): seq<Rule> { BlockExits(NARROW_BLOCKS) }

  function BypassExit(p: Params): seq<Rule> { if p.bypass == {} then [] else [Exit(DstIn(p.bypass))] }

  function RootExit(): seq<Rule> { [Exit(UidIs(0))] }

  function TproxyRule(proto: Proto, port: nat): Rule { Rule([ProtoIs(proto)], Tproxy(port)) }

  /** Each TCP chain is a list of exits in front of one catching rule. */
  function MangleTcpExits(p: Params): seq<Rule>
  {
    WideBlocks() + BypassExit(p)
    + [TcpPortExit(p.tcp), TcpPortExit(p.api), TcpPortExit(p.socks), TcpPortExit(p.dns)]
  }

  function MangleTcp(p: Params): seq<Rule> { MangleTcpExits(p) + [TproxyRule(Tcp, p.tcp)] }

  function MangleTcpOutputExits(p: Params): seq<Rule>
  {
    RootExit() + NarrowBlocks() + BypassExit(p) + [TcpPortExit(p.tcp), TcpPortExit(p.api)]
  }

  function MangleTcpOutput(p: Params): seq<Rule> { MangleTcpOutputExits(p) + [Rule([ProtoIs(Tcp)], SetMark(true))] }

  function NatTcpExits(p: Params): seq<Rule>
  {
    WideBlocks() + BypassExit(p) + [TcpPortExit(p.tcp), TcpPortExit(p.api), TcpPortExit(p.socks)]
  }

  function NatTcp(p: Params): seq<Rule> { NatTcpExits(p) + [Rule([ProtoIs(Tcp)], Redirect(p.tcp))] }

  function NatTcpOutputExits(p: Params): seq<Rule>
  {
    RootExit() + NarrowBlocks() + BypassExit(p) + [TcpPortExit(p.tcp)]
  }

  function NatTcpOutput(p: Params): seq<Rule> { NatTcpOutputExits(p) + [Rule([ProtoIs(Tcp)], Redirect(p.tcp))] }

  function UdpRules(p: Params): seq<Rule>
  {
    [ Rule([ProtoIs(Udp), DportIs(53)], Return), Rule([ProtoIs(Udp), DportIs(p.udp)], Return), TproxyRule(Udp, p.udp) ]
  }

  function DnsRules(p: Params): seq<Rule>
  {
    [Exit(UidIs(0)), Rule([ProtoIs(Udp), DportIs(53)], Dnat(p.dns))]
  }

  predicate AllExits(rules: seq<Rule>) { forall r | r in rules :: r.target.Return? }

  lemma AllAreExits(p: Params)
    ensures AllExits(MangleTcpExits(p)) && AllExits(MangleTcpOutputExits(p))
    ensures AllExits(NatTcpExits(p)) && AllExits(NatTcpOutputExits(p))
  {
    var wide, narrow, bypass := WideBlocks(), NarrowBlocks(), BypassExit(p);
    assert AllExits(wide) && AllExits(narrow) && AllExits(bypass) && AllExits(RootExit());
  }

  function BareTproxy(port: nat): Rule { Rule([], Tproxy(port)) }

  function Appends(t: Tbl, c: Chain, rules: seq<Rule>): seq<Cmd>
  {
    if rules == [] then [] else Appends(t, c, rules[..|rules| - 1]) + [Append(t, c, rules[|rules| - 1])]
  }

  /** Create if missing, empty, fill. */
  function Fill(t: Tbl, c: Chain, rules: seq<Rule>): seq<Cmd>
  {
    [New(t, c), Flush(t, c)] + Appends(t, c, rules)
  }

  function EnableTcpRedirect(p: Params): seq<Cmd>
  {
    Fill(Nat, SshcTcp, NatTcp(p)) + Fill(Nat, SshcTcpOutput, NatTcpOutput(p))
    + [Insert(Nat, Output, TcpHook(SshcTcpOutput)), Insert(Nat, Prerouting, TcpHook(SshcTcp))]
  }

  function HotspotIface(i: string): seq<Cmd> { [Insert(Mangle, Prerouting, IfaceTcpHook(i, SshcTcp))] }

  function Hotspot(p: Params): seq<Cmd> { if p.hotspot then ForIfaces(IFACES, HotspotIface) else [] }

  function TproxySetup(p: Params): seq<Cmd>
  {
    [RouteAdd] + Fill(Mangle, SshcTcp, MangleTcp(p)) + [Insert(Mangle, Prerouting, TcpHook(SshcTcp))]
    + Fill(Mangle, SshcTcpOutput, MangleTcpOutput(p)) + [Insert(Mangle, Output, TcpHook(SshcTcpOutput))]
  }

  function EnableTcpTproxy(p: Params): seq<Cmd> { TproxySetup(p) + Hotspot(p) }

  function UdpProbe(p: Params): seq<Cmd> { [New(Mangle, SshcUdp), Append(Mangle, SshcUdp, BareTproxy(p.udp))] }

  function UdpFill(p: Params): seq<Cmd>
  {
    [Flush(Mangle, SshcUdp)] + Appends(Mangle, SshcUdp, UdpRules(p)) + [Insert(Mangle, Prerouting, PlainHook(SshcUdp))]
  }

  /** enable_udp_tproxy decides by checking that the probe rule is in the chain. */
  function UdpCmds(k: Kernel, p: Params): seq<Cmd>
  {
    var probed := RunAll(k, UdpProbe(p));
    UdpProbe(p)
    + if SshcUdp in probed.mangle && BareTproxy(p.udp) in probed.mangle[SshcUdp] then UdpFill(p)
      else DropChain(Mangle, SshcUdp)
  }

  function EnableUdp(k: Kernel, p: Params): Kernel
  {
    var probed := RunAll(k, UdpProbe(p));
    if SshcUdp in probed.mangle && BareTproxy(p.udp) in probed.mangle[SshcUdp] then RunAll(probed, UdpFill(p))
    else RunAll(probed, DropChain(Mangle, SshcUdp))
  }

  function Probe(): seq<Cmd> { [New(Mangle, SshcProbe), Append(Mangle, SshcProbe, BareTproxy(65535))] }

  function EnableDns(p: Params): seq<Cmd>
  {
    Fill(Nat, SshcDns, DnsRules(p))
    + [Remove(Nat, Output, DnsHook(SshcDns)), Insert(Nat, Output, DnsHook(SshcDns))]
  }

  /** Whether the probe rule goes in. */
  predicate Probed(k: Kernel) { k.tproxy && k.bareTproxy }

  function TcpCmds(k: Kernel, p: Params): seq<Cmd>
  {
    if Probed(k) then EnableTcpTproxy(p) else EnableTcpRedirect(p)
  }

  function EnableTcp(k: Kernel, p: Params): Kernel { RunAll(k, TcpCmds(k, p)) }

  function ProbeAndDrop(): seq<Cmd> { Probe() + DropChain(Mangle, SshcProbe) }

  /** Cleaned and probed. */
  function Prepare(k: Kernel): Kernel { RunAll(RunAll(k, Cleanup(IFACES)), ProbeAndDrop()) }

  /** `ssh.iptables enable`. */
  function Enable(k: Kernel, p: Params): Kernel
  {
    RunAll(EnableUdp(EnableTcp(Prepare(k), p), p), EnableDns(p))
  }

  /** The commands that this run of `ssh.iptables enable` issues, one after the other. */
  function EnableCmds(k: Kernel, p: Params): seq<Cmd>
  {
    var k2 := Prepare(k);
    var k3 := EnableTcp(k2, p);
    Cleanup(IFACES) + ProbeAndDrop() + TcpCmds(k2, p) + UdpCmds(k3, p) + EnableDns(p)
  }

  lemma UdpCmdsRun(k: Kernel, p: Params)
    ensures RunAll(k, UdpCmds(k, p)) == EnableUdp(k, p)
  {
    var probed := RunAll(k, UdpProbe(p));
    RunConcat(k, UdpProbe(p), UdpFill(p));
    RunConcat(k, UdpProbe(p), DropChain(Mangle, SshcUdp));
  }

  lemma FiveParts(k: Kernel, a: seq<Cmd>, b: seq<Cmd>, c: seq<Cmd>, d: seq<Cmd>, e: seq<Cmd>)
    ensures RunAll(k, a + b + c + d + e) == RunAll(RunAll(RunAll(RunAll(RunAll(k, a), b), c), d), e)
  {
    RunConcat(k, a + b + c + d, e);
    RunConcat(k, a + b + c, d);
    RunConcat(k, a + b, c);
    RunConcat(k, a, b);
  }

  lemma EnableIsItsCommands(k: Kernel, p: Params)
    ensures RunAll(k, EnableCmds(k, p)) == Enable(k, p)
  {
    var k2 := Prepare(k);
    var k3 := EnableTcp(k2, p);
    FiveParts(k, Cleanup(IFACES), ProbeAndDrop(), TcpCmds(k2, p), UdpCmds(k3, p), EnableDns(p));
    UdpCmdsRun(k3, p);
  }

  /** What the tunnel loop itself inserts after the script. */
  function GoInsert(p: Params): seq<Cmd>
  {
    Fill(Mangle, SshcUdp, UdpRules(p)) + [Insert(Mangle, Prerouting, PlainHook(SshcUdp))]
  }

  lemma {:induction false} ExecKeepsSupport(k: Kernel, cmds: seq<Cmd>)
    ensures RunAll(k, cmds).tproxy == k.tproxy && RunAll(k, cmds).bareTproxy == k.bareTproxy
    decreases |cmds|
  {
    if cmds != [] {
      ExecKeepsSupport(Exec(k, cmds[0]), cmds[1..]);
    }
  }

  lemma RunTwoCmds(k: Kernel, a: Cmd, b: Cmd)
    ensures RunAll(k, [a, b]) == Exec(Exec(k, a), b)
  {
    RunOne(Exec(k, a), b);
    assert [a, b][1..] == [b];
  }

  lemma RunFirst(k: Kernel, cmds: seq<Cmd>)
    requires cmds != []
    ensures RunAll(k, cmds) == RunAll(Exec(k, cmds[0]), cmds[1..])
  {
  }

  lemma RunFive(k: Kernel, cmds: seq<Cmd>)
    requires |cmds| == 5
    ensures RunAll(k, cmds) == Exec(Exec(Exec(Exec(Exec(k, cmds[0]), cmds[1]), cmds[2]), cmds[3]), cmds[4])
  {
    var rest := cmds[2..];
    RunConcat(k, cmds[..2], rest);
    assert cmds == cmds[..2] + rest;
    RunTwoCmds(k, cmds[0], cmds[1]);
    assert cmds[..2] == [cmds[0], cmds[1]];
    RunThree(RunAll(k, cmds[..2]), rest);
  }

  lemma RunThree(k: Kernel, cmds: seq<Cmd>)
    requires |cmds| == 3
    ensures RunAll(k, cmds) == Exec(Exec(Exec(k, cmds[0]), cmds[1]), cmds[2])
  {
    RunFirst(k, cmds);
    RunTwoCmds(Exec(k, cmds[0]), cmds[1], cmds[2]);
    assert cmds[1..] == [cmds[1], cmds[2]];
  }

  lemma RunSeven(k: Kernel, cmds: seq<Cmd>)
    requires |cmds| == 7
    ensures RunAll(k, cmds)
            == Exec(Exec(Exec(Exec(Exec(Exec(Exec(k, cmds[0]), cmds[1]), cmds[2]), cmds[3]), cmds[4]),
                         cmds[5]), cmds[6])
  {
    RunConcat(k, cmds[..2], cmds[2..]);
    assert cmds == cmds[..2] + cmds[2..];
    RunTwoCmds(k, cmds[0], cmds[1]);
    assert cmds[..2] == [cmds[0], cmds[1]];
    RunFive(RunAll(k, cmds[..2]), cmds[2..]);
  }

  lemma UdpFillWritten(p: Params)
    ensures UdpFill(p) == [Flush(Mangle, SshcUdp), Append(Mangle, SshcUdp, UdpRules(p)[0]),
            Append(Mangle, SshcUdp, UdpRules(p)[1]),
                           Append(Mangle, SshcUdp, UdpRules(p)[2]), Insert(Mangle, Prerouting, PlainHook(SshcUdp))]
  {
    ThreeAppends(Mangle, SshcUdp, UdpRules(p));
  }

  lemma ThreeAppends(t: Tbl, c: Chain, rules: seq<Rule>)
    requires |rules| == 3
    ensures Appends(t, c, rules) == [Append(t, c, rules[0]), Append(t, c, rules[1]), Append(t, c, rules[2])]
  {
    assert rules[..2][..1] == rules[..1] && rules[..1][..0] == [];
    assert Appends(t, c, rules[..1]) == [Append(t, c, rules[0])];
    assert Appends(t, c, rules[..2]) == [Append(t, c, rules[0]), Append(t, c, rules[1])];
  }

  // ------------------------------------------------------------ lists of -A commands, written out

  lemma {:induction false} AppendsAt(t: Tbl, c: Chain, rules: seq<Rule>)
    ensures |Appends(t, c, rules)| == |rules|
    ensures forall i | 0 <= i < |rules| :: Appends(t, c, rules)[i] == Append(t, c, rules[i])
  {
    if rules != [] {
      AppendsAt(t, c, rules[..|rules| - 1]);
    }
  }

  lemma AppendsJoin(t: Tbl, c: Chain, a: seq<Rule>, b: seq<Rule>)
    ensures Appends(t, c, a + b) == Appends(t, c, a) + Appends(t, c, b)
  {
    AppendsAt(t, c, a);
    AppendsAt(t, c, b);
    AppendsAt(t, c, a + b);
  }

  function BlockExit(t: Tbl, c: Chain, base: nat, bits: nat): Cmd { Append(t, c, Rule([DstBlock(base, bits)], Return)) }

  lemma WideAppends(t: Tbl, c: Chain)
    ensures Appends(t, c, WideBlocks()) ==
            [ BlockExit(t, c, Addr(0, 0, 0, 0), 8), BlockExit(t, c, Addr(10, 0, 0, 0), 8),
              BlockExit(t, c, Addr(100, 64, 0, 0), 10), BlockExit(t, c, Addr(127, 0, 0, 0), 8),
              BlockExit(t, c, Addr(169, 254, 0, 0), 16), BlockExit(t, c, Addr(172, 16, 0, 0), 12),
              BlockExit(t, c, Addr(192, 168, 0, 0), 16), BlockExit(t, c, Addr(224, 0, 0, 0), 4),
              BlockExit(t, c, Addr(240, 0, 0, 0), 4) ]
  {
    AppendsAt(t, c, WideBlocks());
  }

  lemma NarrowAppends(t: Tbl, c: Chain)
    ensures Appends(t, c, NarrowBlocks()) ==
            [ BlockExit(t, c, Addr(0, 0, 0, 0), 8), BlockExit(t, c, Addr(10, 0, 0, 0), 8),
              BlockExit(t, c, Addr(127, 0, 0, 0), 8), BlockExit(t, c, Addr(192, 168, 0, 0), 16),
              BlockExit(t, c, Addr(224, 0, 0, 0), 4) ]
  {
    AppendsAt(t, c, NarrowBlocks());
  }

  lemma FewAppends(t: Tbl, c: Chain, rules: seq<Rule>, cmds: seq<Cmd>)
    requires |cmds| == |rules| && forall i | 0 <= i < |rules| :: cmds[i] == Append(t, c, rules[i])
    ensures Appends(t, c, rules) == cmds
  {
    AppendsAt(t, c, rules);
  }

  /** A chain filled in four stretches: create and empty it, two lists of exits, the rest. */
  lemma FilledInParts(k: Kernel, t: Tbl, c: Chain, a: seq<Rule>, b: seq<Rule>, rest: seq<Rule>)
    ensures RunAll(k, Fill(t, c, a + b + rest))
            == RunAll(RunAll(RunAll(RunAll(k, [New(t, c), Flush(t, c)]), Appends(t, c, a)), Appends(t, c, b)),
                Appends(t, c, rest))
  {
    AppendsJoin(t, c, a + b, rest);
    AppendsJoin(t, c, a, b);
    var k1 := RunAll(k, [New(t, c), Flush(t, c)]);
    RunConcat(k, [New(t, c), Flush(t, c)], Appends(t, c, a + b + rest));
    RunConcat(k1, Appends(t, c, a) + Appends(t, c, b), Appends(t, c, rest));
    RunConcat(k1, Appends(t, c, a), Appends(t, c, b));
  }

  lemma GoInsertWritten(p: Params)
    ensures GoInsert(p) ==
            [ New(Mangle, SshcUdp), Flush(Mangle, SshcUdp),
              Append(Mangle, SshcUdp, Rule([ProtoIs(Udp), DportIs(53)], Return)),
              Append(Mangle, SshcUdp, Rule([ProtoIs(Udp), DportIs(p.udp)], Return)),
              Append(Mangle, SshcUdp, Rule([ProtoIs(Udp)], Tproxy(p.udp))),
              Insert(Mangle, Prerouting, Rule([], Jump(SshcUdp))) ]
  {
    AppendsAt(Mangle, SshcUdp, UdpRules(p));
  }

  lemma DnsWritten(p: Params)
    ensures EnableDns(p) ==
            [ New(Nat, SshcDns), Flush(Nat, SshcDns), Append(Nat, SshcDns, Rule([UidIs(0)], Return)),
              Append(Nat, SshcDns, Rule([ProtoIs(Udp), DportIs(53)], Dnat(p.dns))),
              Remove(Nat, Output, Rule([ProtoIs(Udp), DportIs(53)], Jump(SshcDns))),
              Insert(Nat, Output, Rule([ProtoIs(Udp), DportIs(53)], Jump(SshcDns))) ]
  {
    AppendsAt(Nat, SshcDns, DnsRules(p));
  }

  // ---------------------------------------------------------------------------
  // The scripts as they run, one command after the other.

  class Shell {
    var mangle: Table
    var natTable: Table
    var route: bool
    const tproxy: bool
    const bareTproxy: bool

    constructor (k: Kernel)
      ensures View() == k
    {
      mangle, natTable, route, tproxy, bareTproxy := k.mangle, k.natTable, k.route, k.tproxy, k.bareTproxy;
    }

    function View(): Kernel
      reads this
    {
      Kernel(mangle, natTable, route, tproxy, bareTproxy)
    }

    /** One command; `ok` is its exit status. */
    method Run(cmd: Cmd) returns (ok: bool)
      modifies this
      ensures ok == Succeeds(old(View()), cmd) && View() == Exec(old(View()), cmd)
    {
      ok := Succeeds(View(), cmd);
      var k := Exec(View(), cmd);
      mangle, natTable, route := k.mangle, k.natTable, k.route;
    }

    /** A straight-line stretch of a script. */
    method Sh(cmds: seq<Cmd>)
      modifies this
      ensures View() == RunAll(old(View()), cmds)
    {
      var i := 0;
      while i < |cmds|
        invariant 0 <= i <= |cmds|
        invariant View() == RunAll(old(View()), cmds[..i])
      {
        var _ := Run(cmds[i]);
        assert cmds[..i + 1] == cmds[..i] + [cmds[i]];
        RunConcat(old(View()), cmds[..i], [cmds[i]]);
        RunOne(RunAll(old(View()), cmds[..i]), cmds[i]);
        i := i + 1;
      }
      assert cmds[..i] == cmds;
    }

    /** The -D commands of cleanup() for one chain and each interface. */
    method UnhookIfaces(ifaces: seq<string>, c: Chain)
      modifies this
      ensures View() == RunAll(old(View()), ForIfaces(ifaces, x => CleanupIface(x, c)))
    {
      ghost var k0 := View();
      ghost var f := (x: string) => CleanupIface(x, c);
      var i := 0;
      while i < |ifaces|
        invariant 0 <= i <= |ifaces|
        invariant View() == RunAll(k0, ForIfaces(ifaces[..i], f))
      {
        ghost var k1 := View();
        var _ := Run(Remove(Mangle, Prerouting, Rule([InIface(ifaces[i]), ProtoIs(Tcp)], Jump(c))));
        var _ := Run(Remove(Nat, Prerouting, Rule([InIface(ifaces[i]), ProtoIs(Tcp)], Jump(c))));
        RunTwoCmds(k1, CleanupIface(ifaces[i], c)[0], CleanupIface(ifaces[i], c)[1]);
        RunConcat(k0, ForIfaces(ifaces[..i], f), CleanupIface(ifaces[i], c));
        assert ifaces[..i + 1][..i] == ifaces[..i];
        i := i + 1;
      }
      assert ifaces[..i] == ifaces;
    }

    /** The -D commands of clean_v4() for one chain and each interface. */
    method UnhookV4Ifaces(ifaces: seq<string>, c: Chain)
      modifies this
      ensures View() == RunAll(old(View()), ForIfaces(ifaces, x => CleanV4Iface(x, c)))
    {
      ghost var k0 := View();
      ghost var f := (x: string) => CleanV4Iface(x, c);
      var i := 0;
      while i < |ifaces|
        invariant 0 <= i <= |ifaces|
        invariant View() == RunAll(k0, ForIfaces(ifaces[..i], f))
      {
        ghost var k1 := View();
        var _ := Run(Remove(Nat, Prerouting, Rule([InIface(ifaces[i]), ProtoIs(Tcp)], Jump(c))));
        var _ := Run(Remove(Nat, Prerouting, Rule([InIface(ifaces[i])], Jump(c))));
        RunTwoCmds(k1, CleanV4Iface(ifaces[i], c)[0], CleanV4Iface(ifaces[i], c)[1]);
        RunConcat(k0, ForIfaces(ifaces[..i], f), CleanV4Iface(ifaces[i], c));
        assert ifaces[..i + 1][..i] == ifaces[..i];
        i := i + 1;
      }
      assert ifaces[..i] == ifaces;
    }

    /** The loop of clean_tcp_tproxy() */
    method UnhookTcpIfaces(ifaces: seq<string>)
      modifies this
      ensures View() == RunAll(old(View()), ForIfaces(ifaces, CleanTcpIface))
    {
      ghost var k0 := View();
      var i := 0;
      while i < |ifaces|
        invariant 0 <= i <= |ifaces|
        invariant View() == RunAll(k0, ForIfaces(ifaces[..i], CleanTcpIface))
      {
        ghost var k1 := View();
        var _ := Run(Remove(Mangle, Prerouting, Rule([InIface(ifaces[i]), ProtoIs(Tcp)], Jump(SshcTcp))));
        RunOne(k1, CleanTcpIface(ifaces[i])[0]);
        RunConcat(k0, ForIfaces(ifaces[..i], CleanTcpIface), CleanTcpIface(ifaces[i]));
        assert ifaces[..i + 1][..i] == ifaces[..i];
        i := i + 1;
      }
      assert ifaces[..i] == ifaces;
    }

    /** The hotspot loop of enable_tcp_tproxy() */
    method HookIfaces(ifaces: seq<string>)
      modifies this
      ensures View() == RunAll(old(View()), ForIfaces(ifaces, HotspotIface))
    {
      ghost var k0 := View();
      var i := 0;
      while i < |ifaces|
        invariant 0 <= i <= |ifaces|
        invariant View() == RunAll(k0, ForIfaces(ifaces[..i], HotspotIface))
      {
        ghost var k1 := View();
        var _ := Run(Insert(Mangle, Prerouting, Rule([InIface(ifaces[i]), ProtoIs(Tcp)], Jump(SshcTcp))));
        RunOne(k1, HotspotIface(ifaces[i])[0]);
        RunConcat(k0, ForIfaces(ifaces[..i], HotspotIface), HotspotIface(ifaces[i]));
        assert ifaces[..i + 1][..i] == ifaces[..i];
        i := i + 1;
      }
      assert ifaces[..i] == ifaces;
    }

    /** The -D commands of cleanup() for one chain. */
    method UnhookChain(c: Chain)
      modifies this
      ensures View() == RunAll(old(View()), CleanupHooksOf(c))
    {
      ghost var k0 := View();
      var _ := Run(Remove(Mangle, Prerouting, Rule([ProtoIs(Tcp)], Jump(c))));
      var _ := Run(Remove(Mangle, Prerouting, Rule([], Jump(c))));
      var _ := Run(Remove(Mangle, Output, Rule([ProtoIs(Tcp)], Jump(c))));
      var _ := Run(Remove(Mangle, Output, Rule([], Jump(c))));
      var _ := Run(Remove(Nat, Output, Rule([ProtoIs(Tcp)], Jump(c))));
      var _ := Run(Remove(Nat, Prerouting, Rule([ProtoIs(Tcp)], Jump(c))));
      var _ := Run(Remove(Nat, Output, Rule([ProtoIs(Udp), DportIs(53)], Jump(c))));
      RunSeven(k0, CleanupHooksOf(c));
    }

    /** The first loop of cleanup(): the hooks of each chain. */
    method UnhookChains(chains: seq<Chain>, ifaces: seq<string>)
      modifies this
      ensures View() == RunAll(old(View()), ForChains(chains, c => CleanupChain(c, ifaces)))
    {
      ghost var k0 := View();
      ghost var hooks := (c: Chain) => CleanupChain(c, ifaces);
      var i := 0;
      while i < |chains|
        invariant 0 <= i <= |chains|
        invariant View() == RunAll(k0, ForChains(chains[..i], hooks))
      {
        var c := chains[i];
        ghost var k1 := View();
        UnhookChain(c);
        UnhookIfaces(ifaces, c);
        RunConcat(k1, CleanupHooksOf(c), ForIfaces(ifaces, x => CleanupIface(x, c)));
        RunConcat(k0, ForChains(chains[..i], hooks), CleanupChain(c, ifaces));
        assert chains[..i + 1][..i] == chains[..i];
        i := i + 1;
      }
      assert chains[..i] == chains;
    }

    method FlushAndDelete(t: Tbl, c: Chain)
      modifies this
      ensures View() == RunAll(old(View()), DropChain(t, c))
    {
      ghost var k0 := View();
      var _ := Run(Flush(t, c));
      var _ := Run(Delete(t, c));
      RunTwoCmds(k0, Flush(t, c), Delete(t, c));
    }

    /** The second loop of cleanup(): the chains themselves, in both tables. */
    method DropChains(chains: seq<Chain>)
      modifies this
      ensures View() == RunAll(old(View()), ForChains(chains, DropBoth))
    {
      ghost var k0 := View();
      var i := 0;
      while i < |chains|
        invariant 0 <= i <= |chains|
        invariant View() == RunAll(k0, ForChains(chains[..i], DropBoth))
      {
        ghost var k1 := View();
        FlushAndDelete(Mangle, chains[i]);
        FlushAndDelete(Nat, chains[i]);
        RunConcat(k1, DropChain(Mangle, chains[i]), DropChain(Nat, chains[i]));
        RunConcat(k0, ForChains(chains[..i], DropBoth), DropBoth(chains[i]));
        assert chains[..i + 1][..i] == chains[..i];
        i := i + 1;
      }
      assert chains[..i] == chains;
    }

    /** cleanup() */
    method CleanUp(ifaces: seq<string>)
      modifies this
      ensures View() == RunAll(old(View()), Cleanup(ifaces))
    {
      ghost var k0 := View();
      ghost var hooks := ForChains(CLEANUP_HOOKS, c => CleanupChain(c, ifaces));
      ghost var drops := ForChains(CLEANUP_CHAINS, DropBoth);
      UnhookChains(CLEANUP_HOOKS, ifaces);
      DropChains(CLEANUP_CHAINS);
      RunConcat(k0, hooks, drops);
      Sh([RouteDel]);
      RunConcat(k0, hooks + drops, [RouteDel]);
    }

    /** The -D commands of clean_v4() for one chain, those with an interface left aside. */
    method UnhookV4Chain(c: Chain)
      modifies this
      ensures View() == RunAll(old(View()), CleanV4HooksOf(c))
    {
      ghost var k0 := View();
      var _ := Run(Remove(Nat, Output, Rule([ProtoIs(Tcp)], Jump(c))));
      var _ := Run(Remove(Nat, Output, Rule([], Jump(c))));
      var _ := Run(Remove(Nat, Output, Rule([ProtoIs(Udp), DportIs(53)], Jump(c))));
      var _ := Run(Remove(Nat, Prerouting, Rule([ProtoIs(Tcp)], Jump(c))));
      var _ := Run(Remove(Nat, Prerouting, Rule([], Jump(c))));
      RunFive(k0, CleanV4HooksOf(c));
    }

    /** The first loop of clean_v4() */
    method UnhookV4Chains(chains: seq<Chain>)
      modifies this
      ensures View() == RunAll(old(View()), ForChains(chains, CleanV4Chain))
    {
      ghost var k0 := View();
      var i := 0;
      while i < |chains|
        invariant 0 <= i <= |chains|
        invariant View() == RunAll(k0, ForChains(chains[..i], CleanV4Chain))
      {
        var c := chains[i];
        ghost var k1 := View();
        UnhookV4Chain(c);
        UnhookV4Ifaces(IFACES, c);
        RunConcat(k1, CleanV4HooksOf(c), ForIfaces(IFACES, x => CleanV4Iface(x, c)));
        RunConcat(k0, ForChains(chains[..i], CleanV4Chain), CleanV4Chain(c));
        assert chains[..i + 1][..i] == chains[..i];
        i := i + 1;
      }
      assert chains[..i] == chains;
    }

    /** The second loop of clean_v4() */
    method DropNatChains(chains: seq<Chain>)
      modifies this
      ensures View() == RunAll(old(View()), ForChains(chains, c => DropChain(Nat, c)))
    {
      ghost var k0 := View();
      ghost var drops := (c: Chain) => DropChain(Nat, c);
      var i := 0;
      while i < |chains|
        invariant 0 <= i <= |chains|
        invariant View() == RunAll(k0, ForChains(chains[..i], drops))
      {
        FlushAndDelete(Nat, chains[i]);
        RunConcat(k0, ForChains(chains[..i], drops), DropChain(Nat, chains[i]));
        assert chains[..i + 1][..i] == chains[..i];
        i := i + 1;
      }
      assert chains[..i] == chains;
    }

    /** clean_v4() */
    method CleanUpV4()
      modifies this
      ensures View() == RunAll(old(View()), CleanV4())
    {
      ghost var k0 := View();
      UnhookV4Chains(CLEAN_V4_CHAINS);
      DropNatChains(CLEAN_V4_CHAINS);
      RunConcat(k0, ForChains(CLEAN_V4_CHAINS, CleanV4Chain), ForChains(CLEAN_V4_CHAINS, c => DropChain(Nat, c)));
    }

    /** clean_udp_tproxy() */
    method CleanUpUdpTproxy()
      modifies this
      ensures View() == RunAll(old(View()), CleanUdpTproxy())
    {
      ghost var k0 := View();
      var _ := Run(Remove(Mangle, Prerouting, Rule([], Jump(SshcUdp))));
      RunOne(k0, Remove(Mangle, Prerouting, PlainHook(SshcUdp)));
      FlushAndDelete(Mangle, SshcUdp);
      RunConcat(k0, [Remove(Mangle, Prerouting, PlainHook(SshcUdp))], DropChain(Mangle, SshcUdp));
    }

    /** clean_tcp_tproxy() */
    method CleanUpTcpTproxy()
      modifies this
      ensures View() == RunAll(old(View()), CleanTcpTproxy())
    {
      ghost var k0 := View();
      var _ := Run(Remove(Mangle, Prerouting, Rule([ProtoIs(Tcp)], Jump(SshcTcp))));
      RunOne(k0, Remove(Mangle, Prerouting, TcpHook(SshcTcp)));
      UnhookTcpIfaces(IFACES);
      ghost var a := [Remove(Mangle, Prerouting, TcpHook(SshcTcp))];
      ghost var b := ForIfaces(IFACES, CleanTcpIface);
      RunConcat(k0, a, b);
      ghost var k1 := View();
      var _ := Run(Remove(Mangle, Output, Rule([ProtoIs(Tcp)], Jump(SshcTcpOutput))));
      RunOne(k1, Remove(Mangle, Output, TcpHook(SshcTcpOutput)));
      RunConcat(k0, a + b, [Remove(Mangle, Output, TcpHook(SshcTcpOutput))]);
      FlushAndDelete(Mangle, SshcTcp);
      RunConcat(k0, CleanTcpHooks(), DropChain(Mangle, SshcTcp));
      FlushAndDelete(Mangle, SshcTcpOutput);
      RunConcat(k0, CleanTcpHooks() + DropChain(Mangle, SshcTcp), DropChain(Mangle, SshcTcpOutput));
    }

    /** net_clean.sh */
    method CleanNet()
      modifies this
      ensures View() == RunAll(old(View()), NetClean())
    {
      ghost var k0 := View();
      CleanUp([]);
      ghost var k1 := View();
      CleanUpV4();
      CleanUpUdpTproxy();
      RunConcat(k1, CleanV4(), CleanUdpTproxy());
      CleanUpTcpTproxy();
      RunConcat(k1, CleanV4() + CleanUdpTproxy(), CleanTcpTproxy());
      Sh([RouteDel]);
      RunConcat(k1, CleanV4() + CleanUdpTproxy() + CleanTcpTproxy(), [RouteDel]);
      RunConcat(k0, Cleanup([]), SecondPass());
    }

    /** The rules of enable_udp_tproxy() once its probe has gone in. */
    method FillUdp(p: Params)
      modifies this
      ensures View() == RunAll(old(View()), UdpFill(p))
    {
      ghost var k0 := View();
      var _ := Run(Flush(Mangle, SshcUdp));
      var _ := Run(Append(Mangle, SshcUdp, Rule([ProtoIs(Udp), DportIs(53)], Return)));
      var _ := Run(Append(Mangle, SshcUdp, Rule([ProtoIs(Udp), DportIs(p.udp)], Return)));
      var _ := Run(Append(Mangle, SshcUdp, Rule([ProtoIs(Udp)], Tproxy(p.udp))));
      var _ := Run(Insert(Mangle, Prerouting, Rule([], Jump(SshcUdp))));
      UdpFillWritten(p);
      RunFive(k0, UdpFill(p));
    }

    /** enable_udp_tproxy(): create, probe with a bare TPROXY rule, check, fill or drop. */
    method EnableUdpTproxy(p: Params)
      modifies this
      ensures View() == EnableUdp(old(View()), p)
    {
      ghost var k0 := View();
      var _ := Run(New(Mangle, SshcUdp));
      var _ := Run(Append(Mangle, SshcUdp, Rule([], Tproxy(p.udp))));
      RunTwoCmds(k0, New(Mangle, SshcUdp), Append(Mangle, SshcUdp, BareTproxy(p.udp)));
      if SshcUdp in mangle && Rule([], Tproxy(p.udp)) in mangle[SshcUdp] {
        FillUdp(p);
      } else {
        FlushAndDelete(Mangle, SshcUdp);
      }
    }

    /** The nine blocks that both TCP chains of PREROUTING leave alone. */
    method ExitWideBlocks(t: Tbl, c: Chain)
      modifies this
      ensures View() == RunAll(old(View()), Appends(t, c, WideBlocks()))
    {
      WideAppends(t, c);
      Sh([ Append(t, c, Rule([DstBlock(Addr(0, 0, 0, 0), 8)], Return)),
           Append(t, c, Rule([DstBlock(Addr(10, 0, 0, 0), 8)], Return)),
           Append(t, c, Rule([DstBlock(Addr(100, 64, 0, 0), 10)], Return)),
           Append(t, c, Rule([DstBlock(Addr(127, 0, 0, 0), 8)], Return)),
           Append(t, c, Rule([DstBlock(Addr(169, 254, 0, 0), 16)], Return)),
           Append(t, c, Rule([DstBlock(Addr(172, 16, 0, 0), 12)], Return)),
           Append(t, c, Rule([DstBlock(Addr(192, 168, 0, 0), 16)], Return)),
           Append(t, c, Rule([DstBlock(Addr(224, 0, 0, 0), 4)], Return)),
           Append(t, c, Rule([DstBlock(Addr(240, 0, 0, 0), 4)], Return)) ]);
    }

    /** Root, then the five blocks of the OUTPUT chains. */
    method ExitRootAndNarrowBlocks(t: Tbl, c: Chain)
      modifies this
      ensures View() == RunAll(old(View()), Appends(t, c, RootExit() + NarrowBlocks()))
    {
      NarrowAppends(t, c);
      AppendsJoin(t, c, RootExit(), NarrowBlocks());
      FewAppends(t, c, RootExit(), [Append(t, c, Rule([UidIs(0)], Return))]);
      ghost var k0 := View();
      Sh([Append(t, c, Rule([UidIs(0)], Return))]);
      Sh([ Append(t, c, Rule([DstBlock(Addr(0, 0, 0, 0), 8)], Return)),
           Append(t, c, Rule([DstBlock(Addr(10, 0, 0, 0), 8)], Return)),
           Append(t, c, Rule([DstBlock(Addr(127, 0, 0, 0), 8)], Return)),
           Append(t, c, Rule([DstBlock(Addr(192, 168, 0, 0), 16)], Return)),
           Append(t, c, Rule([DstBlock(Addr(224, 0, 0, 0), 4)], Return)) ]);
      RunConcat(k0, Appends(t, c, RootExit()), Appends(t, c, NarrowBlocks()));
    }

    /** [ -n "$BYPASS_IP" ] && ... */
    method ExitBypass(p: Params, t: Tbl, c: Chain)
      modifies this
      ensures View() == RunAll(old(View()), Appends(t, c, BypassExit(p)))
    {
      if p.bypass != {} {
        FewAppends(t, c, BypassExit(p), [Append(t, c, Rule([DstIn(p.bypass)], Return))]);
        Sh([Append(t, c, Rule([DstIn(p.bypass)], Return))]);
      }
    }

    /** A -N that may fail and a -F. */
    method CreateEmpty(t: Tbl, c: Chain)
      modifies this
      ensures View() == RunAll(old(View()), [New(t, c), Flush(t, c)])
    {
      ghost var k0 := View();
      var _ := Run(New(t, c));
      var _ := Run(Flush(t, c));
      RunTwoCmds(k0, New(t, c), Flush(t, c));
    }

    method FillMangleTcp(p: Params)
      modifies this
      ensures View() == RunAll(old(View()), Fill(Mangle, SshcTcp, MangleTcp(p)))
    {
      ghost var k0 := View();
      ghost var rest := [TcpPortExit(p.tcp), TcpPortExit(p.api), TcpPortExit(p.socks), TcpPortExit(p.dns),
          TproxyRule(Tcp, p.tcp)];
      CreateEmpty(Mangle, SshcTcp);
      ExitWideBlocks(Mangle, SshcTcp);
      ExitBypass(p, Mangle, SshcTcp);
      var cmds := [ Append(Mangle, SshcTcp, Rule([ProtoIs(Tcp), DportIs(p.tcp)], Return)),
                    Append(Mangle, SshcTcp, Rule([ProtoIs(Tcp), DportIs(p.api)], Return)),
                    Append(Mangle, SshcTcp, Rule([ProtoIs(Tcp), DportIs(p.socks)], Return)),
                    Append(Mangle, SshcTcp, Rule([ProtoIs(Tcp), DportIs(p.dns)], Return)),
                    Append(Mangle, SshcTcp, Rule([ProtoIs(Tcp)], Tproxy(p.tcp))) ];
      FewAppends(Mangle, SshcTcp, rest, cmds);
      Sh(cmds);
      assert MangleTcp(p) == WideBlocks() + BypassExit(p) + rest;
      FilledInParts(k0, Mangle, SshcTcp, WideBlocks(), BypassExit(p), rest);
    }

    method FillMangleTcpOutput(p: Params)
      modifies this
      ensures View() == RunAll(old(View()), Fill(Mangle, SshcTcpOutput, MangleTcpOutput(p)))
    {
      ghost var k0 := View();
      ghost var rest := [TcpPortExit(p.tcp), TcpPortExit(p.api), Rule([ProtoIs(Tcp)], SetMark(true))];
      CreateEmpty(Mangle, SshcTcpOutput);
      ExitRootAndNarrowBlocks(Mangle, SshcTcpOutput);
      ExitBypass(p, Mangle, SshcTcpOutput);
      var cmds := [ Append(Mangle, SshcTcpOutput, Rule([ProtoIs(Tcp), DportIs(p.tcp)], Return)),
                    Append(Mangle, SshcTcpOutput, Rule([ProtoIs(Tcp), DportIs(p.api)], Return)),
                    Append(Mangle, SshcTcpOutput, Rule([ProtoIs(Tcp)], SetMark(true))) ];
      FewAppends(Mangle, SshcTcpOutput, rest, cmds);
      Sh(cmds);
      assert MangleTcpOutput(p) == (RootExit() + NarrowBlocks()) + BypassExit(p) + rest;
      FilledInParts(k0, Mangle, SshcTcpOutput, RootExit() + NarrowBlocks(), BypassExit(p), rest);
    }

    method FillNatTcp(p: Params)
      modifies this
      ensures View() == RunAll(old(View()), Fill(Nat, SshcTcp, NatTcp(p)))
    {
      ghost var k0 := View();
      ghost var rest := [TcpPortExit(p.tcp), TcpPortExit(p.api), TcpPortExit(p.socks),
          Rule([ProtoIs(Tcp)], Redirect(p.tcp))];
      CreateEmpty(Nat, SshcTcp);
      ExitWideBlocks(Nat, SshcTcp);
      ExitBypass(p, Nat, SshcTcp);
      var cmds := [ Append(Nat, SshcTcp, Rule([ProtoIs(Tcp), DportIs(p.tcp)], Return)),
                    Append(Nat, SshcTcp, Rule([ProtoIs(Tcp), DportIs(p.api)], Return)),
                    Append(Nat, SshcTcp, Rule([ProtoIs(Tcp), DportIs(p.socks)], Return)),
                    Append(Nat, SshcTcp, Rule([ProtoIs(Tcp)], Redirect(p.tcp))) ];
      FewAppends(Nat, SshcTcp, rest, cmds);
      Sh(cmds);
      assert NatTcp(p) == WideBlocks() + BypassExit(p) + rest;
      FilledInParts(k0, Nat, SshcTcp, WideBlocks(), BypassExit(p), rest);
    }

    method FillNatTcpOutput(p: Params)
      modifies this
      ensures View() == RunAll(old(View()), Fill(Nat, SshcTcpOutput, NatTcpOutput(p)))
    {
      ghost var k0 := View();
      ghost var rest := [TcpPortExit(p.tcp), Rule([ProtoIs(Tcp)], Redirect(p.tcp))];
      CreateEmpty(Nat, SshcTcpOutput);
      ExitRootAndNarrowBlocks(Nat, SshcTcpOutput);
      ExitBypass(p, Nat, SshcTcpOutput);
      var cmds := [ Append(Nat, SshcTcpOutput, Rule([ProtoIs(Tcp), DportIs(p.tcp)], Return)),
                    Append(Nat, SshcTcpOutput, Rule([ProtoIs(Tcp)], Redirect(p.tcp))) ];
      FewAppends(Nat, SshcTcpOutput, rest, cmds);
      Sh(cmds);
      assert NatTcpOutput(p) == (RootExit() + NarrowBlocks()) + BypassExit(p) + rest;
      FilledInParts(k0, Nat, SshcTcpOutput, RootExit() + NarrowBlocks(), BypassExit(p), rest);
    }

    /** enable_tcp_redirect() */
    method EnableTcpRedirectMode(p: Params)
      modifies this
      ensures View() == RunAll(old(View()), EnableTcpRedirect(p))
    {
      ghost var k0 := View();
      FillNatTcp(p);
      FillNatTcpOutput(p);
      Sh([ Insert(Nat, Output, Rule([ProtoIs(Tcp)], Jump(SshcTcpOutput))),
           Insert(Nat, Prerouting, Rule([ProtoIs(Tcp)], Jump(SshcTcp))) ]);
      ghost var a, b := Fill(Nat, SshcTcp, NatTcp(p)), Fill(Nat, SshcTcpOutput, NatTcpOutput(p));
      RunConcat(k0, a, b);
      RunConcat(k0, a + b, [Insert(Nat, Output, TcpHook(SshcTcpOutput)), Insert(Nat, Prerouting, TcpHook(SshcTcp))]);
    }

    /** enable_tcp_tproxy() */
    method EnableTcpTproxyMode(p: Params)
      modifies this
      ensures View() == RunAll(old(View()), EnableTcpTproxy(p))
    {
      ghost var k0 := View();
      Sh([RouteAdd]);
      FillMangleTcp(p);
      Sh([Insert(Mangle, Prerouting, Rule([ProtoIs(Tcp)], Jump(SshcTcp)))]);
      FillMangleTcpOutput(p);
      Sh([Insert(Mangle, Output, Rule([ProtoIs(Tcp)], Jump(SshcTcpOutput)))]);
      FiveParts(k0, [RouteAdd], Fill(Mangle, SshcTcp, MangleTcp(p)), [Insert(Mangle, Prerouting, TcpHook(SshcTcp))],
                Fill(Mangle, SshcTcpOutput, MangleTcpOutput(p)), [Insert(Mangle, Output, TcpHook(SshcTcpOutput))]);
      if p.hotspot {
        HookIfaces(IFACES);
      }
      RunConcat(k0, TproxySetup(p), Hotspot(p));
    }

    /** The DNS rules of enable_conf() */
    method EnableDnsMode(p: Params)
      modifies this
      ensures View() == RunAll(old(View()), EnableDns(p))
    {
      DnsWritten(p);
      Sh([ New(Nat, SshcDns), Flush(Nat, SshcDns), Append(Nat, SshcDns, Rule([UidIs(0)], Return)),
           Append(Nat, SshcDns, Rule([ProtoIs(Udp), DportIs(53)], Dnat(p.dns))),
           Remove(Nat, Output, Rule([ProtoIs(Udp), DportIs(53)], Jump(SshcDns))),
           Insert(Nat, Output, Rule([ProtoIs(Udp), DportIs(53)], Jump(SshcDns))) ]);
    }

    /** The probe of enable_conf(): does the kernel take a TPROXY rule? */
    method ProbeTproxy() returns (supported: bool)
      modifies this
      ensures View() == RunAll(old(View()), ProbeAndDrop())
      ensures supported == Probed(old(View()))
    {
      ghost var k1 := View();
      var _ := Run(New(Mangle, SshcProbe));
      supported := Run(Append(Mangle, SshcProbe, Rule([], Tproxy(65535))));
      RunConcat(k1, [New(Mangle, SshcProbe)], [Append(Mangle, SshcProbe, BareTproxy(65535))]);
      RunOne(k1, New(Mangle, SshcProbe));
      RunOne(Exec(k1, New(Mangle, SshcProbe)), Append(Mangle, SshcProbe, BareTproxy(65535)));
      assert Probe() == [New(Mangle, SshcProbe)] + [Append(Mangle, SshcProbe, BareTproxy(65535))];
      FlushAndDelete(Mangle, SshcProbe);
      RunConcat(k1, Probe(), DropChain(Mangle, SshcProbe));
    }

    /** enable_conf() */
    method EnableConf(p: Params)
      modifies this
      ensures View() == Enable(old(View()), p)
    {
      CleanUp(IFACES);
      ghost var k1 := View();
      var supported := ProbeTproxy();
      ExecKeepsSupport(k1, ProbeAndDrop());
      if supported {
        EnableTcpTproxyMode(p);
      } else {
        EnableTcpRedirectMode(p);
      }
      EnableUdpTproxy(p);
      EnableDnsMode(p);
    }

    /** What the tunnel loop itself runs after the script. */
    method InsertUdp(p: Params)
      modifies this
      ensures View() == RunAll(old(View()), GoInsert(p))
    {
      GoInsertWritten(p);
      Sh([ New(Mangle, SshcUdp), Flush(Mangle, SshcUdp),
           Append(Mangle, SshcUdp, Rule([ProtoIs(Udp), DportIs(53)], Return)),
           Append(Mangle, SshcUdp, Rule([ProtoIs(Udp), DportIs(p.udp)], Return)),
           Append(Mangle, SshcUdp, Rule([ProtoIs(Udp)], Tproxy(p.udp))),
           Insert(Mangle, Prerouting, Rule([], Jump(SshcUdp))) ]);
    }
  }
}
