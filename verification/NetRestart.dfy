/** Enabling on what a completed net_clean leaves: a clean kernel but for the chain of an earlier probe. */
module NetRestart {
  import opened Netfilter
  import opened NetScripts
  import opened NetForeign
  import opened NetShape
  import opened NetHooks

  ghost predicate Cleaned(k: Kernel)
  {
    NearlyClean(k.mangle) && CleanTable(k.natTable)
  }

  function WithoutProbe(k: Kernel): Kernel { k.(mangle := k.mangle - {SshcProbe}) }

  lemma WithoutProbeIsClean(k: Kernel)
    requires Cleaned(k)
    ensures Clean(WithoutProbe(k))
  {
    assert WithoutProbe(k).mangle.Keys == k.mangle.Keys - {SshcProbe};
  }

  /** Cleaning such a kernel touches no table either. */
  lemma {:induction false} SweepOfCleaned(k: Kernel, cmds: seq<Cmd>)
    requires Cleaned(k) && AllSweep(cmds) && SparesProbe(cmds)
    ensures RunAll(k, cmds) == k.(route := RunAll(k, cmds).route)
    ensures RouteDel in cmds || !k.route ==> !RunAll(k, cmds).route
    decreases |cmds|
  {
    if cmds != [] {
      assert cmds == [cmds[0]] + cmds[1..];
      assert cmds[0] in cmds && forall cmd | cmd in cmds[1..] :: cmd in cmds;
      OneOfCleaned(k, cmds[0]);
      SweepOfCleaned(Exec(k, cmds[0]), cmds[1..]);
    }
  }

  lemma OneOfCleaned(k: Kernel, cmd: Cmd)
    requires Cleaned(k) && Sweep(cmd) && cmd != Delete(Mangle, SshcProbe) && cmd != Flush(Mangle, SshcProbe)
    ensures Exec(k, cmd) == if cmd.RouteDel? then k.(route := false) else k
  {
  }

  /** The probe finds the chain of an earlier one, tries its rule there and drops it. */
  lemma ProbingDropsOldChain(k: Kernel)
    requires Cleaned(k) && SshcProbe in k.mangle
    ensures RunAll(k, ProbeAndDrop()) == WithoutProbe(k)
  {
    var rule := BareTproxy(65535);
    var rules := if Probed(k) then k.mangle[SshcProbe] + [rule] else k.mangle[SshcProbe];
    var k1 := k.(mangle := k.mangle[SshcProbe := rules]);
    RunTwoCmds(k, New(Mangle, SshcProbe), Append(Mangle, SshcProbe, rule));
    assert k.mangle[SshcProbe := k.mangle[SshcProbe]] == k.mangle;
    assert RunAll(k, Probe()) == k1;
    var bare := WithoutProbe(k);
    assert bare.mangle[SshcProbe := rules] == k1.mangle;
    WithoutProbeIsClean(k);
    CleanIsUnreferenced(bare.mangle, SshcProbe);
    DropRun(bare, SshcProbe, rules);
    RunThen(k, Probe(), DropChain(Mangle, SshcProbe), k1, bare);
  }

  lemma PrepareCleaned(k: Kernel)
    requires Cleaned(k)
    ensures Prepare(k) == WithoutProbe(k).(route := false)
  {
    CleanupSweeps(IFACES);
    CleanupSparesProbe(IFACES);
    SweepOfCleaned(k, Cleanup(IFACES));
    assert RouteDel in Cleanup(IFACES);
    var k1 := k.(route := false);
    if SshcProbe in k.mangle {
      ProbingDropsOldChain(k1);
    } else {
      NearlyCleanIsClean(k.mangle);
      ProbingChangesNothing(k1);
      assert k.mangle - {SshcProbe} == k.mangle;
    }
  }

  /** Enabling takes an old probe chain away and otherwise does what it does on a clean kernel. */
  lemma EnableOnCleaned(k: Kernel, p: Params)
    requires Cleaned(k)
    ensures Clean(WithoutProbe(k)) && Enable(k, p) == Enable(WithoutProbe(k), p)
  {
    WithoutProbeIsClean(k);
    PrepareCleaned(k);
    PrepareClean(WithoutProbe(k));
  }
}
