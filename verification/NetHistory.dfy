/** Whole histories of the daemon: the calls of startTunnel and stopTunnel, one after the other, beside the
    tunnel loop with its first connect, command by command and in every interleaving. */
module NetHistory {
  import opened Seqs
  import opened Netfilter
  import opened NetScripts
  import opened NetForeign
  import opened NetShape
  import opened NetHooks
  import opened NetRestart
  import opened NetInserts
  import opened NetRuns

  /** Where a first connect goes on when its commands are done: the four commands of the TPROXY probe, the
      second of which decides on the mode; the check of the UDP probe; the end of the script; past the
      loop's own insertions. */
  datatype Point =
    | Creating
    | Trying
    | Emptying(supported: bool)
    | Dropping(supported: bool)
    | Checking
    | Exiting
    | Inserting

  /** The goroutine of the tunnel loop, as far as the rules are concerned. */
  datatype Loop =
    | Gone                                              // a start goes ahead
    | Idle                                              // nothing brought up yet
    | Connecting(p: Params, at: Point, todo: seq<Cmd>)
    | Up
    | Disabling(todo: seq<Cmd>)                         // the teardown of a panic
    | Panicked                                          // ended, and still counted as running

  /** The call in progress. A stop cancels, waits for the loop or for five seconds, then cleans. */
  datatype Call = Free | Waiting | Cleaning(start: bool, todo: seq<Cmd>)

  datatype Daemon = Daemon(k: Kernel, loop: Loop, call: Call, cancelled: bool)

  datatype Event =
    | StartCalled
    | StopCalled
    | StopCleans                                        // the loop has ended, or the wait is over
    | CallStep                                          // the next command of net_clean.sh
    | CallReturns(launch: bool)                         // launch: a start that finds a profile
    | FirstConnect(p: Params, transparent: bool)
    | LoopStep                                          // the next command or decision of the loop
    | LoopExits
    | Panic(up: bool)                                   // up: the script had succeeded
    | Kill                                              // the daemon and the script it runs

  function TcpMode(supported: bool, p: Params): seq<Cmd>
  {
    if supported then EnableTcpTproxy(p) else EnableTcpRedirect(p)
  }

  const PROBE_NEW := New(Mangle, SshcProbe)
  const PROBE_RULE := Append(Mangle, SshcProbe, BareTproxy(65535))
  const PROBE_FLUSH := Flush(Mangle, SshcProbe)
  const PROBE_DELETE := Delete(Mangle, SshcProbe)

  /** The command at a point, if any. */
  function PointCmd(at: Point): Option<Cmd>
  {
    match at
    case Creating => Some(PROBE_NEW)
    case Trying => Some(PROBE_RULE)
    case Emptying(_) => Some(PROBE_FLUSH)
    case Dropping(_) => Some(PROBE_DELETE)
    case _ => None
  }

  /** -C of the UDP probe. */
  predicate UdpProbed(k: Kernel, p: Params) { SshcUdp in k.mangle && BareTproxy(p.udp) in k.mangle[SshcUdp] }

  /** The commands of a connect up to its first point. */
  function Opening(p: Params, transparent: bool): Loop
  {
    if transparent then Connecting(p, Creating, Cleanup(IFACES)) else Connecting(p, Inserting, GoInsert(p))
  }

  function AfterProbe(supported: bool, p: Params): seq<Cmd> { TcpMode(supported, p) + UdpProbe(p) }

  function AfterCheck(fill: bool, p: Params): seq<Cmd>
  {
    (if fill then UdpFill(p) else DropChain(Mangle, SshcUdp)) + EnableDns(p)
  }

  /** What follows a point, by what the kernel says at that moment. */
  function Next(k: Kernel, p: Params, at: Point): Loop
  {
    match at
    case Creating => Connecting(p, Trying, [])
    case Trying => Connecting(p, Emptying(Succeeds(k, PROBE_RULE)), [])
    case Emptying(supported) => Connecting(p, Dropping(supported), [])
    case Dropping(supported) => Connecting(p, Checking, AfterProbe(supported, p))
    case Checking => Connecting(p, Exiting, AfterCheck(UdpProbed(k, p), p))
    case Exiting => Connecting(p, Inserting, GoInsert(p))
    case Inserting => Up
  }

  function Advance(d: Daemon): Daemon
  {
    match d.loop
    case Connecting(p, at, todo) =>
      if todo == [] then
        d.(k := if PointCmd(at).Some? then Exec(d.k, PointCmd(at).value) else d.k, loop := Next(d.k, p, at))
      else d.(k := Exec(d.k, todo[0]), loop := Connecting(p, at, todo[1..]))
    case Disabling(todo) =>
      if todo == [] then d.(loop := Panicked) else d.(k := Exec(d.k, todo[0]), loop := Disabling(todo[1..]))
    case _ => d
  }

  /** Where a panic can come: not while the loop waits for the script. */
  predicate CanPanic(l: Loop) { l.Idle? || l.Up? || (l.Connecting? && l.at.Inserting?) }

  /** An event that does not apply changes nothing. */
  function Step(d: Daemon, e: Event): Daemon
  {
    match e
    case StartCalled => if d.call.Free? && d.loop.Gone? then d.(call := Cleaning(true, NetClean())) else d
    case StopCalled => if d.call.Free? && !d.loop.Gone? then d.(call := Waiting, cancelled := true) else d
    case StopCleans => if d.call.Waiting? then d.(call := Cleaning(false, NetClean())) else d
    case CallStep =>
      if d.call.Cleaning? && d.call.todo != [] then
        d.(k := Exec(d.k, d.call.todo[0]), call := d.call.(todo := d.call.todo[1..]))
      else d
    case CallReturns(launch) =>
      if !d.call.Cleaning? || d.call.todo != [] then d
      else if d.call.start && launch then d.(call := Free, loop := Idle, cancelled := false)
      else d.(call := Free)
    case FirstConnect(p, transparent) => if d.loop.Idle? then d.(loop := Opening(p, transparent)) else d
    case LoopStep => Advance(d)
    case LoopExits => if d.cancelled && (d.loop.Idle? || d.loop.Up?) then d.(loop := Gone) else d
    case Panic(up) =>
      if !CanPanic(d.loop) then d
      else if up && !d.cancelled && !d.loop.Idle? then d.(loop := Disabling(Cleanup([])))
      else d.(loop := Panicked)
    case Kill => d.(loop := Gone, call := Free)
  }

  function Begin(k: Kernel): Daemon { Daemon(k, Gone, Free, false) }

  function After(k: Kernel, events: seq<Event>): Daemon
  {
    if events == [] then Begin(k) else Step(After(k, events[..|events| - 1]), events[|events| - 1])
  }

  // ---------------------------------------------------------------------------
  // What the programs consist of, whatever the kernel.

  ghost predicate Programs(d: Daemon)
  {
    && (d.loop.Connecting? ==> Part(d.loop.todo))
    && (d.loop.Connecting? && d.loop.at.Inserting? ==> IsEnd(d.loop.todo, GoInsert(d.loop.p)))
    && (d.loop.Disabling? ==> AllSweep(d.loop.todo))
    && (d.call.Cleaning? ==> AllSweep(d.call.todo) && SparesProbe(d.call.todo))
  }

  predicate IsEnd(a: seq<Cmd>, b: seq<Cmd>) { |a| <= |b| && a == b[|b| - |a|..] }

  lemma EndOfEnd(a: seq<Cmd>, b: seq<Cmd>)
    requires IsEnd(a, b) && a != []
    ensures IsEnd(a[1..], b)
  {
  }

  lemma PartTail(cmds: seq<Cmd>)
    requires cmds != []
    ensures Part(cmds) ==> Part(cmds[1..]) && Own(cmds[0])
    ensures AllSweep(cmds) ==> AllSweep(cmds[1..]) && Sweep(cmds[0])
    ensures SparesProbe(cmds) ==> SparesProbe(cmds[1..]) && SparesProbe([cmds[0]])
  {
    assert cmds[0] in cmds && forall cmd | cmd in cmds[1..] :: cmd in cmds;
  }

  lemma UdpListsAreParts(p: Params)
    ensures Part(UdpProbe(p)) && Part(UdpFill(p)) && Part(DropChain(Mangle, SshcUdp))
  {
    UdpOwn(p);
    AppendsCreateNothing(Mangle, SshcUdp, UdpRules(p));
    OwnWithoutNew(UdpProbe(p));
    OwnWithoutNew(UdpFill(p));
    OwnWithoutNew(DropChain(Mangle, SshcUdp));
  }

  lemma OpeningIsPart(p: Params, transparent: bool)
    ensures Part(Opening(p, transparent).todo)
  {
    if transparent {
      CleanupSweeps(IFACES);
      SweepIsPart(Cleanup(IFACES));
    } else {
      GoInsertIsPart(p);
    }
  }

  lemma TcpModeIsPart(supported: bool, p: Params)
    ensures Part(TcpMode(supported, p))
  {
    TcpCmdsArePart(Kernel(map[], map[], false, supported, supported), p);
  }

  lemma AfterProbeIsPart(supported: bool, p: Params)
    ensures Part(AfterProbe(supported, p))
  {
    UdpListsAreParts(p);
    TcpModeIsPart(supported, p);
    PartsJoin(TcpMode(supported, p), UdpProbe(p));
  }

  lemma AfterCheckIsPart(fill: bool, p: Params)
    ensures Part(AfterCheck(fill, p))
  {
    UdpListsAreParts(p);
    DnsIsPart(p);
    PartsJoin(if fill then UdpFill(p) else DropChain(Mangle, SshcUdp), EnableDns(p));
  }

  lemma NextIsPart(k: Kernel, p: Params, at: Point)
    ensures var l := Next(k, p, at); l.Connecting? ==> Part(l.todo) && (l.at.Inserting? ==> l.todo == GoInsert(p))
  {
    match at
    case Dropping(supported) => AfterProbeIsPart(supported, p);
    case Checking => AfterCheckIsPart(UdpProbed(k, p), p);
    case Exiting => GoInsertIsPart(p);
    case _ =>
  }

  lemma AdvanceKeepsPrograms(d: Daemon)
    requires Programs(d)
    ensures Programs(Advance(d))
  {
    if d.loop.Connecting? && d.loop.todo == [] {
      NextIsPart(d.k, d.loop.p, d.loop.at);
    } else if d.loop.Connecting? {
      PartTail(d.loop.todo);
      if d.loop.at.Inserting? {
        EndOfEnd(d.loop.todo, GoInsert(d.loop.p));
      }
    } else if d.loop.Disabling? && d.loop.todo != [] {
      PartTail(d.loop.todo);
    }
  }

  lemma NetCleanIsProgram()
    ensures AllSweep(NetClean()) && SparesProbe(NetClean())
  {
    NetCleanSweeps();
    NetCleanSparesProbe();
  }

  lemma StepKeepsPrograms(d: Daemon, e: Event)
    requires Programs(d)
    ensures Programs(Step(d, e))
  {
    match e
    case FirstConnect(p, transparent) => OpeningIsPart(p, transparent);
    case LoopStep => AdvanceKeepsPrograms(d);
    case CallStep => if d.call.Cleaning? && d.call.todo != [] { PartTail(d.call.todo); }
    case StartCalled => NetCleanIsProgram();
    case StopCleans => NetCleanIsProgram();
    case Panic(_) => CleanupSweeps([]);
    case _ =>
  }

  lemma {:induction false} AlwaysPrograms(k: Kernel, events: seq<Event>)
    ensures Programs(After(k, events))
  {
    if events != [] {
      AlwaysPrograms(k, events[..|events| - 1]);
      StepKeepsPrograms(After(k, events[..|events| - 1]), events[|events| - 1]);
    }
  }

  /** The command that an event runs on the kernel, if any. */
  function Ran(d: Daemon, e: Event): Option<Cmd>
  {
    if e.CallStep? && d.call.Cleaning? && d.call.todo != [] then Some(d.call.todo[0])
    else if e.LoopStep? && (d.loop.Connecting? || d.loop.Disabling?) && d.loop.todo != [] then Some(d.loop.todo[0])
    else if e.LoopStep? && d.loop.Connecting? then PointCmd(d.loop.at)
    else None
  }

  lemma StepRuns(d: Daemon, e: Event)
    ensures Step(d, e).k == if Ran(d, e).Some? then Exec(d.k, Ran(d, e).value) else d.k
  {
  }

  lemma RanIsOwn(d: Daemon, e: Event)
    requires Programs(d) && Ran(d, e).Some?
    ensures Own(Ran(d, e).value)
    ensures forall t, c :: Ran(d, e).value == New(t, c) ==> MayExist(t, c)
  {
    if e.CallStep? {
      PartTail(d.call.todo);
    } else if d.loop.todo != [] {
      PartTail(d.loop.todo);
      assert d.loop.todo[0] in d.loop.todo;
    }
  }

  // ---------------------------------------------------------------------------
  // The foreign rules.

  lemma StepKeepsForeign(d: Daemon, e: Event)
    requires Programs(d)
    ensures ForeignKept(d.k, Step(d, e).k)
  {
    StepRuns(d, e);
    if Ran(d, e).Some? {
      RanIsOwn(d, e);
      ExecKeepsForeign(d.k, Ran(d, e).value);
    } else {
      RunKeepsForeign(d.k, []);
    }
  }

  /** The foreign rules of both tables, in their order, are those of the beginning: over every history, from
      any kernel, whatever overlaps and wherever the daemon is killed. */
  lemma {:induction false} ForeignRulesSurvive(k: Kernel, events: seq<Event>)
    ensures ForeignKept(k, After(k, events).k)
  {
    if events == [] {
      RunKeepsForeign(k, []);
    } else {
      var d := After(k, events[..|events| - 1]);
      ForeignRulesSurvive(k, events[..|events| - 1]);
      AlwaysPrograms(k, events[..|events| - 1]);
      StepKeepsForeign(d, events[|events| - 1]);
      KeptTrans(k, d.k, After(k, events).k);
    }
  }

  // ---------------------------------------------------------------------------
  // The hooks: what stands and what may still come stay within the limits together.

  ghost predicate TableOk(k: Kernel, t: Tbl)
  {
    Tidy(TableOf(k, t)) && forall c | c in TableOf(k, t) && IsSshc(c) :: MayExist(t, c)
  }

  function UdpHook(t: Tbl, b: Chain, r: Rule): nat { One(Insert(Mangle, Prerouting, PlainHook(SshcUdp)), t, b, r) }

  function DnsHookOf(t: Tbl, b: Chain, r: Rule): nat { One(Insert(Nat, Output, DnsHook(SshcDns)), t, b, r) }

  function TcpHooks(t: Tbl, b: Chain, r: Rule): nat { if TproxyHook(t, b, r) || RedirectHook(t, b, r) then 1 else 0 }

  /** The -I commands for a hook that may come behind a decision, at most. */
  function Behind(at: Point, t: Tbl, b: Chain, r: Rule): nat
  {
    match at
    case Checking => 2 * UdpHook(t, b, r) + DnsHookOf(t, b, r)
    case Exiting => UdpHook(t, b, r)
    case Inserting => 0
    case _ => TcpHooks(t, b, r) + 2 * UdpHook(t, b, r) + DnsHookOf(t, b, r)
  }

  function Ahead(l: Loop, t: Tbl, b: Chain, r: Rule): nat
  {
    match l
    case Idle => Limit(t, b, r)
    case Connecting(_, at, todo) => Ins(todo, t, b, r) + Behind(at, t, b, r)
    case _ => 0
  }

  ghost predicate Within(d: Daemon, t: Tbl)
  {
    forall b, r | BuiltIn(b) && SshcJump(r) :: Count(TableOf(d.k, t), b, r) + Ahead(d.loop, t, b, r) <= Limit(t, b, r)
  }

  lemma CleaningOpens(t: Tbl, b: Chain, r: Rule)
    ensures Ins(Cleanup(IFACES), t, b, r) == 0
  {
    CleanupSweeps(IFACES);
    SweepInsertsNothing(Cleanup(IFACES));
    NoneInserted(Cleanup(IFACES), t, b, r);
  }

  lemma ProbingWithin(t: Tbl, b: Chain, r: Rule)
    requires BuiltIn(b)
    ensures Behind(Creating, t, b, r) <= Limit(t, b, r)
  {
    HooksWithinLimit(TcpHooks(t, b, r), t, b, r);
  }

  lemma AheadAt(p: Params, at: Point, todo: seq<Cmd>, n: nat, t: Tbl, b: Chain, r: Rule)
    requires Ins(todo, t, b, r) <= n
    ensures Ahead(Connecting(p, at, todo), t, b, r) <= n + Behind(at, t, b, r)
  {
  }

  lemma UdpHookWithin(t: Tbl, b: Chain, r: Rule)
    requires BuiltIn(b)
    ensures UdpHook(t, b, r) <= Limit(t, b, r)
  {
    ProbingWithin(t, b, r);
  }

  lemma PlainOpening(p: Params, t: Tbl, b: Chain, r: Rule)
    requires BuiltIn(b)
    ensures Ahead(Connecting(p, Inserting, GoInsert(p)), t, b, r) <= Limit(t, b, r)
  {
    UdpHookWithin(t, b, r);
    UdpFillInserts(p, t, b, r);
    AheadAt(p, Inserting, GoInsert(p), UdpHook(t, b, r), t, b, r);
  }

  lemma ScriptOpening(p: Params, t: Tbl, b: Chain, r: Rule)
    requires BuiltIn(b)
    ensures Ahead(Connecting(p, Creating, Cleanup(IFACES)), t, b, r) <= Limit(t, b, r)
  {
    ProbingWithin(t, b, r);
    CleaningOpens(t, b, r);
    AheadAt(p, Creating, Cleanup(IFACES), 0, t, b, r);
  }

  lemma OpeningWithin(p: Params, transparent: bool, t: Tbl, b: Chain, r: Rule)
    requires BuiltIn(b)
    ensures Ahead(Opening(p, transparent), t, b, r) <= Limit(t, b, r)
  {
    if transparent {
      ScriptOpening(p, t, b, r);
    } else {
      PlainOpening(p, t, b, r);
    }
  }

  lemma TcpModeInserts(supported: bool, p: Params, t: Tbl, b: Chain, r: Rule)
    requires BuiltIn(b)
    ensures Ins(TcpMode(supported, p), t, b, r) <= TcpHooks(t, b, r)
  {
    if supported {
      TproxyInserts(p, t, b, r);
    } else {
      RedirectInserts(p, t, b, r);
    }
  }

  lemma ThenDns(x: seq<Cmd>, n: nat, p: Params, t: Tbl, b: Chain, r: Rule)
    requires Ins(x, t, b, r) <= n
    ensures Ins(x + EnableDns(p), t, b, r) <= n + DnsHookOf(t, b, r)
  {
    DnsInserts(p, t, b, r);
    InsJoin(x, EnableDns(p), t, b, r);
  }

  lemma UdpModeInserts(fill: bool, p: Params, t: Tbl, b: Chain, r: Rule)
    ensures Ins(AfterCheck(fill, p), t, b, r) <= UdpHook(t, b, r) + DnsHookOf(t, b, r)
  {
    if fill {
      UdpFillInserts(p, t, b, r);
      ThenDns(UdpFill(p), UdpHook(t, b, r), p, t, b, r);
    } else {
      NoneInserted(DropChain(Mangle, SshcUdp), t, b, r);
      ThenDns(DropChain(Mangle, SshcUdp), 0, p, t, b, r);
    }
  }

  lemma ThenNone(x: seq<Cmd>, y: seq<Cmd>, t: Tbl, b: Chain, r: Rule)
    requires NoInserts(y)
    ensures Ins(x + y, t, b, r) == Ins(x, t, b, r)
  {
    NoneInserted(y, t, b, r);
    InsJoin(x, y, t, b, r);
  }

  lemma UdpProbeInsertsNothing(p: Params)
    ensures NoInserts(UdpProbe(p))
  {
  }

  lemma AfterProbeInserts(supported: bool, p: Params, t: Tbl, b: Chain, r: Rule)
    requires BuiltIn(b)
    ensures Ins(AfterProbe(supported, p), t, b, r) <= TcpHooks(t, b, r)
  {
    TcpModeInserts(supported, p, t, b, r);
    UdpProbeInsertsNothing(p);
    ThenNone(TcpMode(supported, p), UdpProbe(p), t, b, r);
  }

  lemma AfterProbeAhead(supported: bool, p: Params, t: Tbl, b: Chain, r: Rule)
    requires BuiltIn(b)
    ensures Ahead(Connecting(p, Checking, AfterProbe(supported, p)), t, b, r) <= Behind(Creating, t, b, r)
  {
    AfterProbeInserts(supported, p, t, b, r);
    AheadAt(p, Checking, AfterProbe(supported, p), TcpHooks(t, b, r), t, b, r);
  }

  lemma AfterCheckAhead(fill: bool, p: Params, t: Tbl, b: Chain, r: Rule)
    ensures Ahead(Connecting(p, Exiting, AfterCheck(fill, p)), t, b, r) <= Behind(Checking, t, b, r)
  {
    UdpModeInserts(fill, p, t, b, r);
    AheadAt(p, Exiting, AfterCheck(fill, p), UdpHook(t, b, r) + DnsHookOf(t, b, r), t, b, r);
  }

  lemma AfterExitAhead(p: Params, t: Tbl, b: Chain, r: Rule)
    ensures Ahead(Connecting(p, Inserting, GoInsert(p)), t, b, r) <= Behind(Exiting, t, b, r)
  {
    UdpFillInserts(p, t, b, r);
    AheadAt(p, Inserting, GoInsert(p), UdpHook(t, b, r), t, b, r);
  }

  lemma ProbePointAhead(k: Kernel, p: Params, at: Point, t: Tbl, b: Chain, r: Rule)
    requires at.Creating? || at.Trying? || at.Emptying?
    ensures Ahead(Next(k, p, at), t, b, r) <= Behind(at, t, b, r)
  {
    assert Ins([], t, b, r) == 0;
  }

  lemma NextWithin(k: Kernel, p: Params, at: Point, t: Tbl, b: Chain, r: Rule)
    requires BuiltIn(b)
    ensures Ahead(Next(k, p, at), t, b, r) <= Behind(at, t, b, r)
  {
    match at
    case Dropping(supported) => AfterProbeAhead(supported, p, t, b, r);
    case Checking => AfterCheckAhead(UdpProbed(k, p), p, t, b, r);
    case Exiting => AfterExitAhead(p, t, b, r);
    case Inserting =>
    case _ => ProbePointAhead(k, p, at, t, b, r);
  }

  /** A step of the loop that runs a command leaves less ahead by that command, any other not more. */
  lemma AdvanceWithin(d: Daemon, t: Tbl, b: Chain, r: Rule)
    requires BuiltIn(b)
    ensures Ahead(Advance(d).loop, t, b, r)
            + (if Ran(d, LoopStep) == Some(Insert(t, b, r)) && d.loop.Connecting? then 1 else 0)
            <= Ahead(d.loop, t, b, r)
  {
    if d.loop.Connecting? {
      if d.loop.todo == [] {
        NextWithin(d.k, d.loop.p, d.loop.at, t, b, r);
        assert Ins([], t, b, r) == 0;
      } else {
        assert d.loop.todo == [d.loop.todo[0]] + d.loop.todo[1..];
        InsJoin([d.loop.todo[0]], d.loop.todo[1..], t, b, r);
      }
    }
  }

  /** The start in progress will have cleaned; nothing else runs beside it. */
  ghost predicate StartOk(d: Daemon)
  {
    d.call.Cleaning? && d.call.start ==> d.loop.Gone? && Cleaned(RunAll(d.k, d.call.todo))
  }

  ghost predicate Inv(d: Daemon)
  {
    && Programs(d) && StartOk(d)
    && TableOk(d.k, Mangle) && Within(d, Mangle)
    && TableOk(d.k, Nat) && Within(d, Nat)
  }

  lemma InvIsHooked(d: Daemon)
    requires Inv(d)
    ensures HookedKernel(d.k)
  {
  }

  lemma RanKeepsTable(d: Daemon, e: Event, t: Tbl)
    requires Programs(d) && TableOk(d.k, t)
    ensures TableOk(Step(d, e).k, t)
    ensures forall b, r | BuiltIn(b) ::
              Count(TableOf(Step(d, e).k, t), b, r)
              <= Count(TableOf(d.k, t), b, r) + if Ran(d, e) == Some(Insert(t, b, r)) then 1 else 0
  {
    StepRuns(d, e);
    if Ran(d, e).Some? {
      var cmd := Ran(d, e).value;
      RanIsOwn(d, e);
      OwnStep(d.k, cmd, t);
      forall c | c in TableOf(Exec(d.k, cmd), t) && IsSshc(c)
        ensures MayExist(t, c)
      {
        OwnCreates(d.k, cmd, t, c);
      }
    }
  }

  lemma SweepIsNoInsert(d: Daemon, e: Event, t: Tbl, b: Chain, r: Rule)
    requires Programs(d) && Ran(d, e) == Some(Insert(t, b, r))
    ensures e.LoopStep? && d.loop.Connecting?
  {
    if e.CallStep? {
      PartTail(d.call.todo);
    } else if d.loop.Disabling? {
      PartTail(d.loop.todo);
    }
  }

  lemma OtherEventAhead(d: Daemon, e: Event, t: Tbl, b: Chain, r: Rule)
    requires !e.LoopStep? && !e.FirstConnect? && !(e.CallReturns? && Step(d, e).loop.Idle? && !d.loop.Idle?)
    ensures Ahead(Step(d, e).loop, t, b, r) <= Ahead(d.loop, t, b, r)
  {
  }

  lemma FirstConnectAhead(d: Daemon, e: Event, t: Tbl, b: Chain, r: Rule)
    requires e.FirstConnect? && BuiltIn(b)
    ensures Ahead(Step(d, e).loop, t, b, r) <= Ahead(d.loop, t, b, r)
  {
    OpeningWithin(e.p, e.transparent, t, b, r);
    assert Step(d, e).loop == if d.loop.Idle? then Opening(e.p, e.transparent) else d.loop;
  }

  lemma AheadFalls(d: Daemon, e: Event, t: Tbl, b: Chain, r: Rule)
    requires Programs(d) && BuiltIn(b) && !(e.CallReturns? && Step(d, e).loop.Idle? && !d.loop.Idle?)
    ensures Ahead(Step(d, e).loop, t, b, r) + (if Ran(d, e) == Some(Insert(t, b, r)) then 1 else 0)
            <= Ahead(d.loop, t, b, r)
  {
    if Ran(d, e) == Some(Insert(t, b, r)) {
      SweepIsNoInsert(d, e, t, b, r);
    }
    if e.LoopStep? {
      AdvanceWithin(d, t, b, r);
    } else if e.FirstConnect? {
      FirstConnectAhead(d, e, t, b, r);
    } else {
      OtherEventAhead(d, e, t, b, r);
    }
  }

  lemma StepKeepsWithin(d: Daemon, e: Event, t: Tbl)
    requires Inv(d)
    ensures TableOk(Step(d, e).k, t) && Within(Step(d, e), t)
  {
    RanKeepsTable(d, e, t);
    var d' := Step(d, e);
    if e.CallReturns? && d'.loop.Idle? && !d.loop.Idle? {
      LaunchWithin(d, e, t);
    } else {
      forall b, r | BuiltIn(b) && SshcJump(r)
        ensures Count(TableOf(d'.k, t), b, r) + Ahead(d'.loop, t, b, r) <= Limit(t, b, r)
      {
        AheadFalls(d, e, t, b, r);
        assert Count(TableOf(d.k, t), b, r) + Ahead(d.loop, t, b, r) <= Limit(t, b, r);
      }
    }
  }

  /** A start that returns has cleaned: no hook stands. */
  lemma LaunchWithin(d: Daemon, e: Event, t: Tbl)
    requires Inv(d) && e.CallReturns? && Step(d, e).loop.Idle? && !d.loop.Idle?
    ensures Within(Step(d, e), t)
  {
    assert RunAll(d.k, []) == d.k;
    NearlyCleanIsClean(d.k.natTable);
    NearlyCleanHasNoHooks(TableOf(d.k, t));
  }

  lemma StepKeepsStart(d: Daemon, e: Event)
    requires Inv(d)
    ensures StartOk(Step(d, e))
  {
    if e.StartCalled? {
      InvIsHooked(d);
      NetCleanCleans(d.k);
    }
  }

  lemma StepKeepsInv(d: Daemon, e: Event)
    requires Inv(d)
    ensures Inv(Step(d, e))
  {
    var d' := Step(d, e);
    StepKeepsPrograms(d, e);
    StepKeepsStart(d, e);
    StepKeepsWithin(d, e, Mangle);
    StepKeepsWithin(d, e, Nat);
    assert Programs(d') && StartOk(d') && TableOk(d'.k, Mangle) && TableOk(d'.k, Nat);
  }

  lemma BeginsWithin(k: Kernel)
    requires Clean(k)
    ensures Inv(Begin(k))
  {
    CleanIsHooked(k);
    assert HookedTable(k.mangle, Mangle) && HookedTable(k.natTable, Nat);
  }

  lemma {:induction false} AlwaysInv(k: Kernel, events: seq<Event>)
    requires Clean(k)
    ensures Inv(After(k, events))
  {
    if events == [] {
      BeginsWithin(k);
    } else {
      AlwaysInv(k, events[..|events| - 1]);
      StepKeepsInv(After(k, events[..|events| - 1]), events[|events| - 1]);
    }
  }

  /** Hooks never pile up, whatever overlaps and wherever the daemon is killed: at most two jumps to
      SSHC_UDP, at most one copy of every other hook. */
  lemma HooksNeverPileUp(k: Kernel, events: seq<Event>, t: Tbl, b: Chain, r: Rule)
    requires Clean(k) && BuiltIn(b) && SshcJump(r)
    ensures Count(TableOf(After(k, events).k, t), b, r) <= Limit(t, b, r)
    ensures Count(After(k, events).k.mangle, Prerouting, PlainHook(SshcUdp)) <= 2
  {
    AlwaysInv(k, events);
  }

  // ---------------------------------------------------------------------------
  // The chain of the TPROXY probe.

  /** Between the probe's -N and its -X. */
  predicate InProbe(l: Loop) { l.Connecting? && (l.at.Trying? || l.at.Emptying? || l.at.Dropping?) }

  function LeftStep(d: Daemon, e: Event, left: bool): bool
  {
    if e.Kill? then left || InProbe(d.loop)
    else if Ran(d, e) == Some(PROBE_DELETE) then false
    else left
  }

  /** The daemon was killed within its probe, and no connect has reached the -X of its own since. */
  function LeftBehind(k: Kernel, events: seq<Event>): bool
  {
    if events == [] then false
    else LeftStep(After(k, events[..|events| - 1]), events[|events| - 1], LeftBehind(k, events[..|events| - 1]))
  }

  ghost predicate ProbeInv(d: Daemon, left: bool)
  {
    && (d.loop.Connecting? || d.loop.Disabling? ==> SparesProbe(d.loop.todo))
    && (InProbe(d.loop) ==> d.loop.todo == [])
    && (d.loop.Connecting? && d.loop.at.Dropping? && SshcProbe in d.k.mangle ==> d.k.mangle[SshcProbe] == [])
    && (SshcProbe in d.k.mangle <==> InProbe(d.loop) || left)
  }

  lemma UdpSpares(p: Params)
    ensures SparesProbe(UdpProbe(p)) && SparesProbe(UdpFill(p)) && SparesProbe(DropChain(Mangle, SshcUdp))
    ensures SparesProbe(EnableDns(p)) && SparesProbe(GoInsert(p))
  {
    RestSparesProbe(Kernel(map[], map[], false, false, false), p);
    AppendsCreateNothing(Mangle, SshcUdp, UdpRules(p));
  }

  lemma AfterProbeSpares(supported: bool, p: Params)
    ensures SparesProbe(AfterProbe(supported, p))
  {
    TcpCmdsSpareProbe(Kernel(map[], map[], false, supported, supported), p);
    UdpSpares(p);
    SparesJoin(TcpMode(supported, p), UdpProbe(p));
  }

  lemma NextSpares(k: Kernel, p: Params, at: Point)
    ensures Next(k, p, at).Connecting? ==> SparesProbe(Next(k, p, at).todo)
  {
    match at
    case Dropping(supported) => AfterProbeSpares(supported, p);
    case Checking =>
      UdpSpares(p);
      SparesJoin(if UdpProbed(k, p) then UdpFill(p) else DropChain(Mangle, SshcUdp), EnableDns(p));
    case Exiting => UdpSpares(p);
    case _ =>
  }

  lemma OpeningSpares(p: Params, transparent: bool)
    ensures SparesProbe(Opening(p, transparent).todo)
  {
    CleanupSparesProbe(IFACES);
    UdpSpares(p);
  }

  lemma NoProbeHook(b: Chain, r: Rule)
    requires JumpsTo(r, SshcProbe)
    ensures Limit(Mangle, b, r) == 0
  {
    forall i: string
      ensures r != IfaceTcpHook(i, SshcTcp)
    {
      assert IfaceTcpHook(i, SshcTcp).target == Jump(SshcTcp);
    }
  }

  lemma JumpCounts(tb: Table, c: Chain, r: Rule)
    requires Tidy(tb) && c in tb && r in tb[c] && SshcJump(r)
    ensures BuiltIn(c) && Count(tb, c, r) >= 1
  {
  }

  lemma ProbeUnreferenced(d: Daemon)
    requires TableOk(d.k, Mangle) && Within(d, Mangle)
    ensures !Referenced(d.k.mangle, SshcProbe)
  {
    forall c | c in d.k.mangle
      ensures !SomeJump(d.k.mangle[c], SshcProbe)
    {
      forall r | r in d.k.mangle[c]
        ensures !JumpsTo(r, SshcProbe)
      {
        if JumpsTo(r, SshcProbe) {
          JumpCounts(d.k.mangle, c, r);
          NoProbeHook(c, r);
          assert false;
        }
      }
    }
  }

  /** The four commands of the probe on its chain. */
  lemma ProbeCommands(k: Kernel)
    ensures SshcProbe in Exec(k, PROBE_NEW).mangle
    ensures SshcProbe in k.mangle ==> SshcProbe in Exec(k, PROBE_RULE).mangle
    ensures SshcProbe in k.mangle ==>
              SshcProbe in Exec(k, PROBE_FLUSH).mangle && Exec(k, PROBE_FLUSH).mangle[SshcProbe] == []
    ensures SshcProbe in k.mangle && k.mangle[SshcProbe] == [] && !Referenced(k.mangle, SshcProbe) ==>
              SshcProbe !in Exec(k, PROBE_DELETE).mangle
  {
  }

  lemma InProbePoint(d: Daemon, left: bool)
    requires Inv(d) && ProbeInv(d, left) && d.loop.Connecting? && d.loop.todo == [] && PointCmd(d.loop.at).Some?
    ensures var d' := Advance(d); var left' := LeftStep(d, LoopStep, left);
      && (SshcProbe in d'.k.mangle <==> InProbe(d'.loop) || left')
      && (d'.loop.at.Dropping? ==> d'.k.mangle[SshcProbe] == [])
  {
    ProbeUnreferenced(d);
    ProbeCommands(d.k);
  }

  /** The loop at a point. */
  lemma PointKeepsProbe(d: Daemon, left: bool)
    requires Inv(d) && ProbeInv(d, left) && d.loop.Connecting? && d.loop.todo == []
    ensures ProbeInv(Advance(d), LeftStep(d, LoopStep, left))
  {
    NextSpares(d.k, d.loop.p, d.loop.at);
    if PointCmd(d.loop.at).Some? {
      InProbePoint(d, left);
    }
  }

  lemma SparedStays(k: Kernel, cmd: Cmd)
    requires SparesProbe([cmd])
    ensures SshcProbe in Exec(k, cmd).mangle <==> SshcProbe in k.mangle
  {
    assert cmd in [cmd];
    OneKeepsChain(k, cmd, Mangle, SshcProbe);
  }

  lemma SparedStaysEmpty(k: Kernel, cmd: Cmd)
    requires SparesProbe([cmd]) && Sweep(cmd) && SshcProbe in k.mangle && k.mangle[SshcProbe] == []
    ensures SshcProbe in Exec(k, cmd).mangle && Exec(k, cmd).mangle[SshcProbe] == []
  {
    SparedStays(k, cmd);
  }

  lemma CallKeepsProbe(d: Daemon, left: bool)
    requires Programs(d) && ProbeInv(d, left) && d.call.Cleaning? && d.call.todo != []
    ensures ProbeInv(Step(d, CallStep), left) && LeftStep(d, CallStep, left) == left
  {
    var cmd := d.call.todo[0];
    PartTail(d.call.todo);
    assert cmd in [cmd];
    SparedStays(d.k, cmd);
    if SshcProbe in d.k.mangle && d.k.mangle[SshcProbe] == [] {
      SparedStaysEmpty(d.k, cmd);
    }
  }

  lemma LoopKeepsProbe(d: Daemon, left: bool)
    requires ProbeInv(d, left) && (d.loop.Connecting? || d.loop.Disabling?) && d.loop.todo != []
    ensures ProbeInv(Advance(d), left) && LeftStep(d, LoopStep, left) == left
  {
    var cmd := d.loop.todo[0];
    PartTail(d.loop.todo);
    assert cmd in [cmd];
    SparedStays(d.k, cmd);
  }

  lemma OtherEventKeepsProbe(d: Daemon, e: Event, left: bool)
    requires ProbeInv(d, left) && StartOk(d) && !e.CallStep? && !e.LoopStep? && !e.FirstConnect?
    ensures ProbeInv(Step(d, e), LeftStep(d, e, left))
  {
    if e.Panic? {
      CleanupSparesProbe([]);
    }
  }

  lemma FirstConnectKeepsProbe(d: Daemon, e: Event, left: bool)
    requires ProbeInv(d, left) && e.FirstConnect?
    ensures ProbeInv(Step(d, e), LeftStep(d, e, left))
  {
    OpeningSpares(e.p, e.transparent);
  }

  lemma StepKeepsProbe(d: Daemon, e: Event, left: bool)
    requires Inv(d) && ProbeInv(d, left)
    ensures ProbeInv(Step(d, e), LeftStep(d, e, left))
  {
    if e.CallStep? {
      if d.call.Cleaning? && d.call.todo != [] {
        CallKeepsProbe(d, left);
      }
    } else if e.LoopStep? {
      if (d.loop.Connecting? || d.loop.Disabling?) && d.loop.todo != [] {
        LoopKeepsProbe(d, left);
      } else if d.loop.Connecting? {
        PointKeepsProbe(d, left);
      }
    } else if e.FirstConnect? {
      FirstConnectKeepsProbe(d, e, left);
    } else {
      OtherEventKeepsProbe(d, e, left);
    }
  }

  lemma {:induction false} AlwaysProbeInv(k: Kernel, events: seq<Event>)
    requires Clean(k)
    ensures ProbeInv(After(k, events), LeftBehind(k, events))
  {
    if events != [] {
      var front := events[..|events| - 1];
      AlwaysInv(k, front);
      AlwaysProbeInv(k, front);
      StepKeepsProbe(After(k, front), events[|events| - 1], LeftBehind(k, front));
    }
  }

  /** When the probe's chain is there, exactly: within a probe, and after a kill within one until a connect
      drops it. */
  lemma ProbeChainIff(k: Kernel, events: seq<Event>)
    requires Clean(k)
    ensures SshcProbe in After(k, events).k.mangle <==> InProbe(After(k, events).loop) || LeftBehind(k, events)
  {
    AlwaysProbeInv(k, events);
  }

  // ---------------------------------------------------------------------------
  // A start or a stop beside which the loop runs no command.

  ghost predicate Pending(d: Daemon)
  {
    d.call.Cleaning? ==> Cleaned(RunAll(d.k, d.call.todo))
  }

  lemma QuietCallStep(d: Daemon)
    requires Programs(d) && Pending(d) && d.call.Cleaning? && d.call.todo != []
    ensures Pending(Step(d, CallStep))
    ensures SshcProbe in Step(d, CallStep).k.mangle <==> SshcProbe in d.k.mangle
  {
    PartTail(d.call.todo);
    SparedStays(d.k, d.call.todo[0]);
  }

  lemma CleaningBegins(d: Daemon, e: Event)
    requires Inv(d) && Pending(d) && (e.StartCalled? || e.StopCleans?)
    ensures Pending(Step(d, e)) && Step(d, e).k == d.k
  {
    WillBeCleaned(d);
  }

  lemma WillBeCleaned(d: Daemon)
    requires Inv(d)
    ensures Cleaned(RunAll(d.k, NetClean()))
  {
    InvIsHooked(d);
    NetCleanCleans(d.k);
  }

  lemma QuietStep(d: Daemon, e: Event)
    requires Inv(d) && Pending(d) && !e.LoopStep?
    ensures Pending(Step(d, e))
    ensures SshcProbe in Step(d, e).k.mangle <==> SshcProbe in d.k.mangle
  {
    if e.StartCalled? || e.StopCleans? {
      CleaningBegins(d, e);
    } else if e.CallStep? && d.call.Cleaning? && d.call.todo != [] {
      QuietCallStep(d);
    }
  }

  lemma AfterMore(k: Kernel, before: seq<Event>, more: seq<Event>, e: Event)
    ensures After(k, before + (more + [e])) == Step(After(k, before + more), e)
  {
    assert before + (more + [e]) == (before + more) + [e];
    assert (before + (more + [e]))[..|before + more|] == before + more;
  }

  lemma {:induction false} QuietRun(k: Kernel, before: seq<Event>, during: seq<Event>)
    requires Clean(k) && Pending(After(k, before)) && LoopStep !in during
    ensures Pending(After(k, before + during))
    ensures SshcProbe in After(k, before + during).k.mangle <==> SshcProbe in After(k, before).k.mangle
  {
    if during == [] {
      assert before + during == before;
    } else {
      var front, e := during[..|during| - 1], during[|during| - 1];
      assert during == front + [e];
      QuietRun(k, before, front);
      AlwaysInv(k, before + front);
      AfterMore(k, before, front, e);
      QuietStep(After(k, before + front), e);
    }
  }

  predicate Begins(d: Daemon, e: Event)
  {
    (e.StartCalled? && d.call.Free? && d.loop.Gone?) || (e.StopCleans? && d.call.Waiting?)
  }

  /** After any history: a start, or the cleaning of a stop, that completes without a command of the loop in
      between leaves no jump to an SSHC chain and no such chain but the probe's; so it leaves the kernel clean
      exactly when that one was not left behind and the loop was not within its probe. */
  lemma UndisturbedCallCleans(k: Kernel, before: seq<Event>, e: Event, during: seq<Event>)
    requires Clean(k) && Begins(After(k, before), e) && LoopStep !in during
    requires var c := After(k, before + [e] + during).call; c.Cleaning? && c.todo == []
    ensures var d, r := After(k, before), After(k, before + [e] + during);
      Cleaned(r.k) && (Clean(r.k) <==> !InProbe(d.loop) && !LeftBehind(k, before))
  {
    var d := After(k, before);
    AlwaysInv(k, before);
    InvIsHooked(d);
    NetCleanCleans(d.k);
    AfterMore(k, before, [], e);
    assert before + ([] + [e]) == before + [e] && before + [] == before;
    QuietRun(k, before + [e], during);
    ProbeChainIff(k, before);
    NearlyCleanIsClean(After(k, before + [e] + during).k.mangle);
  }

  // ---------------------------------------------------------------------------
  // A stop that did not wait for the loop's connect.

  /** The connect has run its last -N. */
  predicate LastNewDone(l: Loop)
  {
    l.Connecting? && l.at.Inserting? && |l.todo| < |GoInsert(l.p)|
  }

  predicate Running(l: Loop) { l.Connecting? || l.Up? || l.Gone? }

  /** The kernel is clean and will be. */
  ghost predicate CleanForGood(d: Daemon)
  {
    Clean(d.k) && (LastNewDone(d.loop) || d.loop.Up? || d.loop.Gone?)
  }

  /** The commands of the loop behind its last -N. */
  predicate AfterNew(cmd: Cmd)
  {
    || cmd == Flush(Mangle, SshcUdp)
    || (cmd.Append? && cmd.t.Mangle? && cmd.c.SshcUdp?)
    || cmd == Insert(Mangle, Prerouting, PlainHook(SshcUdp))
  }

  lemma GoInsertAfterNew(p: Params)
    ensures GoInsert(p)[0] == New(Mangle, SshcUdp)
    ensures forall i | 1 <= i < |GoInsert(p)| :: AfterNew(GoInsert(p)[i])
  {
    GoInsertWritten(p);
  }

  /** Without the chain they all fail; and none of them takes anything away. */
  lemma AfterNewChangesNothing(k: Kernel, cmd: Cmd)
    requires Clean(k) && AfterNew(cmd)
    ensures Exec(k, cmd) == k
  {
  }

  lemma AfterNewTakesNothing(k: Kernel, cmd: Cmd)
    requires Tidy(k.mangle) && Tidy(k.natTable) && !Clean(k) && AfterNew(cmd)
    ensures !Clean(Exec(k, cmd))
  {
    var k' := Exec(k, cmd);
    assert k'.natTable == k.natTable && k.mangle.Keys <= k'.mangle.Keys;
    if !CleanTable(k.mangle) && (forall c | c in k.mangle :: !IsSshc(c)) {
      var c, r :| c in k.mangle && r in k.mangle[c] && SshcJump(r);
      assert BuiltIn(c);
      assert r in k'.mangle[c];
    }
  }

  lemma NewMakesUnclean(k: Kernel)
    ensures !Clean(Exec(k, New(Mangle, SshcUdp)))
  {
    assert SshcUdp in Exec(k, New(Mangle, SshcUdp)).mangle;
  }

  lemma AfterNewKeepsClean(k: Kernel, cmd: Cmd)
    requires Tidy(k.mangle) && Tidy(k.natTable) && AfterNew(cmd)
    ensures Clean(Exec(k, cmd)) <==> Clean(k)
  {
    if Clean(k) {
      AfterNewChangesNothing(k, cmd);
    } else {
      AfterNewTakesNothing(k, cmd);
    }
  }

  lemma HeadOfEnd(todo: seq<Cmd>, all: seq<Cmd>)
    requires IsEnd(todo, all) && todo != [] && forall i | 1 <= i < |all| :: AfterNew(all[i])
    ensures |todo| < |all| ==> AfterNew(todo[0])
    ensures |todo| == |all| ==> todo[0] == all[0]
  {
    assert todo[0] == all[|all| - |todo|];
  }

  lemma InsertingStep(d: Daemon)
    requires Programs(d) && Tidy(d.k.mangle) && Tidy(d.k.natTable)
    requires d.loop.Connecting? && d.loop.at.Inserting? && d.loop.todo != []
    ensures CleanForGood(Advance(d)) <==> CleanForGood(d)
  {
    GoInsertAfterNew(d.loop.p);
    HeadOfEnd(d.loop.todo, GoInsert(d.loop.p));
    if LastNewDone(d.loop) {
      AfterNewKeepsClean(d.k, d.loop.todo[0]);
    } else {
      NewMakesUnclean(d.k);
    }
  }

  lemma EarlierStep(d: Daemon)
    requires d.loop.Connecting? && !(d.loop.at.Inserting? && d.loop.todo != [])
    ensures CleanForGood(Advance(d)) <==> CleanForGood(d)
  {
    if d.loop.at.Inserting? {
      GoInsertWritten(d.loop.p);
    }
  }

  predicate LoopOnly(events: seq<Event>) { forall e | e in events :: e.LoopStep? || e.LoopExits? }

  lemma LoopRunKeeps(d: Daemon, e: Event)
    requires Inv(d) && Running(d.loop) && (e.LoopStep? || e.LoopExits?)
    ensures Running(Step(d, e).loop) && (CleanForGood(Step(d, e)) <==> CleanForGood(d))
  {
    if e.LoopStep? && d.loop.Connecting? {
      if d.loop.at.Inserting? && d.loop.todo != [] {
        InsertingStep(d);
      } else {
        EarlierStep(d);
      }
    }
  }

  lemma {:induction false} LoopRunKeepsAll(k: Kernel, before: seq<Event>, later: seq<Event>)
    requires Clean(k) && Running(After(k, before).loop) && LoopOnly(later)
    ensures Running(After(k, before + later).loop)
    ensures CleanForGood(After(k, before + later)) <==> CleanForGood(After(k, before))
  {
    if later == [] {
      assert before + later == before;
    } else {
      var front, e := later[..|later| - 1], later[|later| - 1];
      assert later == front + [e];
      LoopRunKeepsAll(k, before, front);
      AlwaysInv(k, before + front);
      AfterMore(k, before, front, e);
      LoopRunKeeps(After(k, before + front), e);
    }
  }

  /** After any history, when no call is in progress any more and the loop is still connecting, as after a stop
      whose five seconds ran out: once the loop has gone on alone to its end the kernel is clean exactly if it
      is clean now and the connect has run its last -N already. */
  lemma CleanAfterTimedOutStop(k: Kernel, before: seq<Event>, later: seq<Event>)
    requires Clean(k) && After(k, before).call.Free? && After(k, before).loop.Connecting? && LoopOnly(later)
    requires !After(k, before + later).loop.Connecting?
    ensures Clean(After(k, before + later).k) <==> Clean(After(k, before).k) && LastNewDone(After(k, before).loop)
  {
    LoopRunKeepsAll(k, before, later);
  }

  // ---------------------------------------------------------------------------
  // Runs.

  function Times(e: Event, n: nat): seq<Event> { seq(n, _ => e) }

  function Repeat(d: Daemon, e: Event, n: nat): Daemon
    decreases n
  {
    if n == 0 then d else Repeat(Step(d, e), e, n - 1)
  }

  lemma {:induction false} RepeatAdds(d: Daemon, e: Event, m: nat, n: nat)
    ensures Repeat(d, e, m + n) == Repeat(Repeat(d, e, m), e, n)
    decreases m
  {
    if m > 0 {
      RepeatAdds(Step(d, e), e, m - 1, n);
    }
  }

  lemma AfterOne(k: Kernel, events: seq<Event>, e: Event)
    ensures After(k, events + [e]) == Step(After(k, events), e)
  {
    assert (events + [e])[..|events|] == events;
  }

  lemma RepeatNext(d: Daemon, e: Event, n: nat)
    ensures Repeat(d, e, n + 1) == Step(Repeat(d, e, n), e)
  {
    RepeatAdds(d, e, n, 1);
    RepeatOnce(Repeat(d, e, n), e);
  }

  lemma RepeatOnce(d: Daemon, e: Event)
    ensures Repeat(d, e, 1) == Step(d, e)
  {
    assert Repeat(Step(d, e), e, 0) == Step(d, e);
  }

  lemma TimesNext(events: seq<Event>, e: Event, n: nat)
    ensures events + Times(e, n + 1) == (events + Times(e, n)) + [e]
    ensures events + Times(e, 0) == events
  {
  }

  lemma {:induction false} AfterTimes(k: Kernel, events: seq<Event>, e: Event, n: nat)
    ensures After(k, events + Times(e, n)) == Repeat(After(k, events), e, n)
  {
    if n == 0 {
      TimesNext(events, e, 0);
    } else {
      AfterTimes(k, events, e, n - 1);
      TimesNext(events, e, n - 1);
      AfterOne(k, events + Times(e, n - 1), e);
      RepeatNext(After(k, events), e, n - 1);
    }
  }

  lemma {:induction false} CallRuns(d: Daemon)
    requires d.call.Cleaning?
    ensures Repeat(d, CallStep, |d.call.todo|) == d.(k := RunAll(d.k, d.call.todo), call := Cleaning(d.call.start, []))
    decreases |d.call.todo|
  {
    if d.call.todo != [] {
      CallRuns(Step(d, CallStep));
    }
  }

  lemma {:induction false} LoopRuns(d: Daemon)
    requires d.loop.Connecting?
    ensures Repeat(d, LoopStep, |d.loop.todo|)
            == d.(k := RunAll(d.k, d.loop.todo), loop := Connecting(d.loop.p, d.loop.at, []))
    decreases |d.loop.todo|
  {
    if d.loop.todo != [] {
      LoopRuns(Advance(d));
    }
  }

  /** The loop alone up to its point and through it. */
  function Through(d: Daemon): Daemon
    requires d.loop.Connecting?
  {
    var k := RunAll(d.k, d.loop.todo);
    d.(k := if PointCmd(d.loop.at).Some? then Exec(k, PointCmd(d.loop.at).value) else k,
       loop := Next(k, d.loop.p, d.loop.at))
  }

  lemma PointPassed(d: Daemon)
    requires d.loop.Connecting?
    ensures Repeat(d, LoopStep, |d.loop.todo| + 1) == Through(d)
  {
    LoopRuns(d);
    RepeatAdds(d, LoopStep, |d.loop.todo|, 1);
    var e := Repeat(d, LoopStep, |d.loop.todo|);
    assert Repeat(e, LoopStep, 1) == Repeat(Step(e, LoopStep), LoopStep, 0);
  }

  lemma Onward(d: Daemon, m: nat, mid: Daemon, n: nat, end: Daemon)
    requires Repeat(d, LoopStep, m) == mid && Repeat(mid, LoopStep, n) == end
    ensures Repeat(d, LoopStep, m + n) == end
  {
    RepeatAdds(d, LoopStep, m, n);
  }

  lemma ExecSupport(k: Kernel)
    ensures Succeeds(Exec(k, PROBE_NEW), PROBE_RULE) <==> Probed(k)
  {
    assert SshcProbe in Exec(k, PROBE_NEW).mangle;
  }

  lemma ProbeTried(d: Daemon)
    requires d.loop.Connecting? && d.loop.at.Creating?
    ensures var k := Exec(RunAll(d.k, d.loop.todo), PROBE_NEW);
      Repeat(d, LoopStep, |d.loop.todo| + 2)
      == d.(k := Exec(k, PROBE_RULE), loop := Connecting(d.loop.p, Emptying(Succeeds(k, PROBE_RULE)), []))
  {
    PointPassed(d);
    PointPassed(Through(d));
    Onward(d, |d.loop.todo| + 1, Through(d), 1, Through(Through(d)));
  }

  lemma ProbeDropped(d: Daemon, supported: bool)
    requires d.loop.Connecting? && d.loop.at == Emptying(supported) && d.loop.todo == []
    ensures Repeat(d, LoopStep, 2)
            == d.(k := Exec(Exec(d.k, PROBE_FLUSH), PROBE_DELETE),
                  loop := Connecting(d.loop.p, Checking, AfterProbe(supported, d.loop.p)))
  {
    PointPassed(d);
    PointPassed(Through(d));
    Onward(d, 1, Through(d), 1, Through(Through(d)));
  }

  lemma ProbeRuns(k: Kernel)
    ensures RunAll(k, ProbeAndDrop()) == Exec(Exec(Exec(Exec(k, PROBE_NEW), PROBE_RULE), PROBE_FLUSH), PROBE_DELETE)
  {
    FourRun(k, PROBE_NEW, PROBE_RULE, PROBE_FLUSH, PROBE_DELETE);
    assert ProbeAndDrop() == [PROBE_NEW, PROBE_RULE, PROBE_FLUSH, PROBE_DELETE];
  }

  lemma ProbeDecided(d: Daemon)
    requires d.loop.Connecting? && d.loop.at.Creating?
    ensures var k := RunAll(d.k, d.loop.todo);
      Repeat(d, LoopStep, |d.loop.todo| + 2)
      == d.(k := Exec(Exec(k, PROBE_NEW), PROBE_RULE), loop := Connecting(d.loop.p, Emptying(Probed(k)), []))
  {
    ProbeTried(d);
    ExecSupport(RunAll(d.k, d.loop.todo));
  }

  lemma ProbeTakenAway(d: Daemon, n: nat, b: Daemon, k: Kernel, supported: bool, end: Loop)
    requires Repeat(d, LoopStep, n) == b && b.loop.Connecting? && b.loop.at == Emptying(supported) && b.loop.todo == []
    requires b.k == Exec(Exec(k, PROBE_NEW), PROBE_RULE) && end == Next(k, b.loop.p, Dropping(supported))
    ensures Repeat(d, LoopStep, n + 2) == b.(k := RunAll(k, ProbeAndDrop()), loop := end)
  {
    TakenAwayNext(b, k, supported, end);
    Onward(d, n, b, 2, b.(k := RunAll(k, ProbeAndDrop()), loop := end));
  }

  lemma TakenAwayNext(b: Daemon, k: Kernel, supported: bool, end: Loop)
    requires b.loop.Connecting? && b.loop.at == Emptying(supported) && b.loop.todo == []
    requires b.k == Exec(Exec(k, PROBE_NEW), PROBE_RULE) && end == Next(k, b.loop.p, Dropping(supported))
    ensures Repeat(b, LoopStep, 2) == b.(k := RunAll(k, ProbeAndDrop()), loop := end)
  {
    ProbeDropped(b, supported);
    ProbeRuns(k);
  }

  /** The four points of the probe. */
  lemma ProbePassed(d: Daemon) returns (n: nat)
    requires d.loop.Connecting? && d.loop.at.Creating?
    ensures var k := RunAll(d.k, d.loop.todo);
      Repeat(d, LoopStep, n)
      == d.(k := RunAll(k, ProbeAndDrop()), loop := Connecting(d.loop.p, Checking, AfterProbe(Probed(k), d.loop.p)))
  {
    var k := RunAll(d.k, d.loop.todo);
    var b := d.(k := Exec(Exec(k, PROBE_NEW), PROBE_RULE), loop := Connecting(d.loop.p, Emptying(Probed(k)), []));
    n := |d.loop.todo| + 2;
    ProbeDecided(d);
    ProbeTakenAway(d, n, b, k, Probed(k), Connecting(d.loop.p, Checking, AfterProbe(Probed(k), d.loop.p)));
    n := n + 2;
  }

  lemma FourRun(k: Kernel, a: Cmd, b: Cmd, c: Cmd, e: Cmd)
    ensures RunAll(k, [a, b, c, e]) == Exec(Exec(Exec(Exec(k, a), b), c), e)
  {
    RunConcat(k, [a, b], [c, e]);
    RunTwoCmds(k, a, b);
    RunTwoCmds(Exec(Exec(k, a), b), c, e);
    assert [a, b, c, e] == [a, b] + [c, e];
  }

  lemma TcpThenProbe(k: Kernel, p: Params)
    ensures RunAll(k, AfterProbe(Probed(k), p)) == RunAll(EnableTcp(k, p), UdpProbe(p))
  {
    RunConcat(k, TcpMode(Probed(k), p), UdpProbe(p));
  }

  function CheckEnd(k: Kernel, p: Params): Kernel { RunAll(k, AfterCheck(UdpProbed(k, p), p)) }

  lemma UdpThenDns(k: Kernel, p: Params)
    ensures var probed := RunAll(k, UdpProbe(p));
      CheckEnd(probed, p) == RunAll(EnableUdp(k, p), EnableDns(p))
  {
    var probed := RunAll(k, UdpProbe(p));
    RunConcat(probed, if UdpProbed(probed, p) then UdpFill(p) else DropChain(Mangle, SshcUdp), EnableDns(p));
  }

  /** From the check of the UDP probe to the end of the script. */
  lemma CheckPassed(d: Daemon) returns (n: nat)
    requires d.loop.Connecting? && d.loop.at.Checking?
    ensures var p := d.loop.p; var k := RunAll(d.k, d.loop.todo);
      Repeat(d, LoopStep, n)
      == d.(k := CheckEnd(k, p), loop := Connecting(p, Inserting, GoInsert(p)))
  {
    var a := Through(d);
    PointPassed(d);
    PointPassed(a);
    Onward(d, |d.loop.todo| + 1, a, |a.loop.todo| + 1, Through(a));
    n := |d.loop.todo| + 1 + (|a.loop.todo| + 1);
  }

  /** The kernel at the end of the script, point by point. */
  function ScriptEnd(k: Kernel, p: Params): Kernel
  {
    CheckEnd(RunAll(RunAll(k, ProbeAndDrop()), AfterProbe(Probed(k), p)), p)
  }

  lemma ScriptPassed(d: Daemon) returns (n: nat)
    requires d.loop.Connecting? && d.loop.at.Creating?
    ensures var p := d.loop.p;
      Repeat(d, LoopStep, n)
      == d.(k := ScriptEnd(RunAll(d.k, d.loop.todo), p), loop := Connecting(p, Inserting, GoInsert(p)))
  {
    var m := ProbePassed(d);
    var k := RunAll(d.k, d.loop.todo);
    n := CheckPassedFrom(d, m, RunAll(k, ProbeAndDrop()), AfterProbe(Probed(k), d.loop.p));
  }

  lemma CheckPassedFrom(d: Daemon, m: nat, k: Kernel, todo: seq<Cmd>) returns (n: nat)
    requires d.loop.Connecting? && Repeat(d, LoopStep, m) == d.(k := k, loop := Connecting(d.loop.p, Checking, todo))
    ensures var p := d.loop.p;
      Repeat(d, LoopStep, n) == d.(k := CheckEnd(RunAll(k, todo), p), loop := Connecting(p, Inserting, GoInsert(p)))
  {
    n := CheckPassed(Repeat(d, LoopStep, m));
    RepeatAdds(d, LoopStep, m, n);
    n := m + n;
  }

  lemma ScriptEndIsEnable(k: Kernel, cleaned: Kernel, p: Params)
    requires cleaned == RunAll(k, Cleanup(IFACES))
    ensures ScriptEnd(cleaned, p) == Enable(k, p)
  {
    ExecKeepsSupport(cleaned, ProbeAndDrop());
    TcpThenProbe(RunAll(cleaned, ProbeAndDrop()), p);
    UdpThenDns(EnableTcp(RunAll(cleaned, ProbeAndDrop()), p), p);
  }

  lemma InsertionsAlone(d: Daemon)
    requires d.loop.Connecting? && d.loop.at.Inserting?
    ensures Repeat(d, LoopStep, |d.loop.todo| + 1) == d.(k := RunAll(d.k, d.loop.todo), loop := Up)
  {
    PointPassed(d);
  }

  /** Undisturbed, a first connect does exactly what Connect says. */
  lemma ConnectAlone(d: Daemon, p: Params, transparent: bool) returns (n: nat)
    ensures Repeat(d.(loop := Opening(p, transparent)), LoopStep, n)
            == d.(k := Connect(d.k, p, transparent), loop := Up)
  {
    if transparent {
      n := TransparentAlone(d, p);
    } else {
      n := PlainAlone(d, p);
    }
  }

  lemma PlainAlone(d: Daemon, p: Params) returns (n: nat)
    ensures Repeat(d.(loop := Connecting(p, Inserting, GoInsert(p))), LoopStep, n)
            == d.(k := RunAll(d.k, GoInsert(p)), loop := Up)
  {
    var a := d.(loop := Connecting(p, Inserting, GoInsert(p)));
    InsertionsAlone(a);
    n := |a.loop.todo| + 1;
  }

  lemma TransparentAlone(d: Daemon, p: Params) returns (n: nat)
    ensures Repeat(d.(loop := Connecting(p, Creating, Cleanup(IFACES))), LoopStep, n)
            == d.(k := Connect(d.k, p, true), loop := Up)
  {
    var a := d.(loop := Connecting(p, Creating, Cleanup(IFACES)));
    var m := ScriptPassed(a);
    var cleaned := RunAll(d.k, Cleanup(IFACES));
    ScriptEndIsEnable(d.k, cleaned, p);
    n := ThenInserts(a, m, d.(k := Enable(d.k, p), loop := Connecting(p, Inserting, GoInsert(p))));
  }

  lemma ThenInserts(a: Daemon, m: nat, c: Daemon) returns (n: nat)
    requires Repeat(a, LoopStep, m) == c && c.loop.Connecting? && c.loop.at.Inserting?
    ensures Repeat(a, LoopStep, n) == c.(k := RunAll(c.k, c.loop.todo), loop := Up)
  {
    InsertionsAlone(c);
    RepeatAdds(a, LoopStep, m, |c.loop.todo| + 1);
    n := m + (|c.loop.todo| + 1);
  }

  function Rank(at: Point): nat
  {
    match at
    case Creating => 6
    case Trying => 5
    case Emptying(_) => 4
    case Dropping(_) => 3
    case Checking => 2
    case Exiting => 1
    case Inserting => 0
  }

  lemma ThroughAdvances(d: Daemon)
    requires d.loop.Connecting?
    ensures var r := Through(d);
      && r.call == d.call && r.cancelled == d.cancelled
      && (if d.loop.at.Inserting? then r.loop.Up? else r.loop.Connecting? && Rank(r.loop.at) < Rank(d.loop.at))
  {
    NextAdvances(RunAll(d.k, d.loop.todo), d.loop.p, d.loop.at);
  }

  lemma NextAdvances(k: Kernel, p: Params, at: Point)
    ensures var l := Next(k, p, at); if at.Inserting? then l.Up? else l.Connecting? && Rank(l.at) < Rank(at)
  {
  }

  /** Left alone the loop comes to the end of its connect. */
  lemma {:induction false} Finishes(d: Daemon) returns (n: nat)
    requires d.loop.Connecting?
    ensures var r := Repeat(d, LoopStep, n); r.loop.Up? && r.call == d.call && r.cancelled == d.cancelled
    decreases Rank(d.loop.at)
  {
    PointPassed(d);
    ThroughAdvances(d);
    n := |d.loop.todo| + 1;
    if !d.loop.at.Inserting? {
      var m := Finishes(Through(d));
      RepeatAdds(d, LoopStep, n, m);
      n := n + m;
    }
  }

  /** Nobody is killed and nothing panics. */
  predicate Calm(events: seq<Event>) { forall e | e in events :: !e.Kill? && !e.Panic? }

  lemma {:induction false} CalmLeavesNothing(k: Kernel, events: seq<Event>)
    requires Calm(events)
    ensures !LeftBehind(k, events)
  {
    if events != [] {
      assert events[|events| - 1] in events && forall e | e in events[..|events| - 1] :: e in events;
      CalmLeavesNothing(k, events[..|events| - 1]);
    }
  }

  lemma CallCompletesIn(k: Kernel, events: seq<Event>) returns (more: seq<Event>, n: nat)
    requires After(k, events).call.Cleaning?
    ensures var d := After(k, events);
      After(k, more) == d.(k := RunAll(d.k, d.call.todo), call := Cleaning(d.call.start, []))
    ensures more == events + Times(CallStep, n)
  {
    var d := After(k, events);
    n := |d.call.todo|;
    more := events + Times(CallStep, n);
    AfterTimes(k, events, CallStep, n);
    CallRuns(d);
  }

  lemma CallCompletes(k: Kernel, events: seq<Event>) returns (more: seq<Event>)
    requires After(k, events).call.Cleaning?
    ensures var d := After(k, events);
      After(k, more) == d.(k := RunAll(d.k, d.call.todo), call := Cleaning(d.call.start, []))
    ensures Calm(events) ==> Calm(more)
  {
    var n;
    more, n := CallCompletesIn(k, events);
  }

  lemma CalmJoin(a: seq<Event>, b: seq<Event>)
    requires Calm(a) && Calm(b)
    ensures Calm(a + b)
  {
  }

  lemma StartBegins(k: Kernel, events: seq<Event>)
    requires After(k, events).loop.Gone? && After(k, events).call.Free?
    ensures After(k, events + [StartCalled]) == After(k, events).(call := Cleaning(true, NetClean()))
  {
    AfterOne(k, events, StartCalled);
  }

  lemma StopWaits(k: Kernel, events: seq<Event>)
    requires !After(k, events).loop.Gone? && After(k, events).call.Free?
    ensures After(k, events + [StopCalled]) == After(k, events).(call := Waiting, cancelled := true)
  {
    AfterOne(k, events, StopCalled);
  }

  lemma StopBegins(k: Kernel, events: seq<Event>)
    requires After(k, events).call.Waiting?
    ensures After(k, events + [StopCleans]) == After(k, events).(call := Cleaning(false, NetClean()))
  {
    AfterOne(k, events, StopCleans);
  }

  lemma StartEnds(k: Kernel, events: seq<Event>)
    requires After(k, events).call == Cleaning(true, [])
    ensures After(k, events + [CallReturns(true)]) == After(k, events).(call := Free, loop := Idle, cancelled := false)
  {
    AfterOne(k, events, CallReturns(true));
  }

  lemma StopEnds(k: Kernel, events: seq<Event>)
    requires After(k, events).call == Cleaning(false, [])
    ensures After(k, events + [CallReturns(false)]) == After(k, events).(call := Free)
  {
    AfterOne(k, events, CallReturns(false));
  }

  lemma CompletesAs(k: Kernel, events: seq<Event>, d: Daemon, start: bool, todo: seq<Cmd>) returns (more: seq<Event>)
    requires After(k, events) == d.(call := Cleaning(start, todo))
    ensures After(k, more) == d.(k := RunAll(d.k, todo), call := Cleaning(start, []))
    ensures Calm(events) ==> Calm(more)
  {
    more := CallCompletes(k, events);
  }

  /** A start that finds a profile. */
  lemma Launches(k: Kernel, events: seq<Event>) returns (more: seq<Event>)
    requires After(k, events).loop.Gone? && After(k, events).call.Free?
    ensures After(k, more) == Daemon(RunAll(After(k, events).k, NetClean()), Idle, Free, false)
    ensures Calm(events) ==> Calm(more)
  {
    StartBegins(k, events);
    var a := CompletesAs(k, events + [StartCalled], After(k, events), true, NetClean());
    StartEnds(k, a);
    CalmMore(events, StartCalled);
    CalmMore(a, CallReturns(true));
    more := a + [CallReturns(true)];
  }

  lemma CalmMore(events: seq<Event>, e: Event)
    requires !e.Kill? && !e.Panic?
    ensures Calm(events) ==> Calm(events + [e])
  {
  }

  lemma StopsWith(k: Kernel, events: seq<Event>, d: Daemon, todo: seq<Cmd>) returns (more: seq<Event>)
    requires After(k, events) == d.(call := Cleaning(false, todo))
    ensures After(k, more) == d.(k := RunAll(d.k, todo), call := Free)
    ensures Calm(events) ==> Calm(more)
  {
    var a := CompletesAs(k, events, d, false, todo);
    StopEnds(k, a);
    CalmMore(a, CallReturns(false));
    more := a + [CallReturns(false)];
  }

  /** A stop that cleans while the loop is connecting. */
  lemma StopsAnyway(k: Kernel, events: seq<Event>) returns (more: seq<Event>)
    requires After(k, events).loop.Connecting? && After(k, events).call.Free?
    ensures After(k, more) == Daemon(RunAll(After(k, events).k, NetClean()), After(k, events).loop, Free, true)
    ensures Calm(events) ==> Calm(more)
  {
    var a := events + [StopCalled];
    StopWaits(k, events);
    StopBegins(k, a);
    CalmMore(events, StopCalled);
    CalmMore(a, StopCleans);
    more := StopsWith(k, a + [StopCleans], After(k, a), NetClean());
  }

  lemma Connects(k: Kernel, events: seq<Event>, p: Params, transparent: bool)
    requires After(k, events).loop.Idle?
    ensures After(k, events + [FirstConnect(p, transparent)]) == After(k, events).(loop := Opening(p, transparent))
  {
    AfterOne(k, events, FirstConnect(p, transparent));
  }

  lemma EndsAlone(k: Kernel, events: seq<Event>) returns (later: seq<Event>)
    requires After(k, events).loop.Connecting? && After(k, events).cancelled
    ensures LoopOnly(later) && After(k, events + later).loop.Gone?
            && After(k, events + later).call == After(k, events).call
  {
    var n := Finishes(After(k, events));
    AfterTimes(k, events, LoopStep, n);
    later := Times(LoopStep, n) + [LoopExits];
    AfterMore(k, events, Times(LoopStep, n), LoopExits);
  }

  /** It happens without a kill or a panic: a stop that cleans while the connect has its last -N to come leaves
      hooks for good, although net_clean completed and no chain of the probe is left. */
  lemma TimedOutStopLeavesHooks(k: Kernel, p: Params, transparent: bool)
    requires Clean(k)
    ensures exists events :: LeavesHooks(k, events)
  {
    var a := Launches(k, []);
    var b := a + [FirstConnect(p, transparent)];
    Connects(k, a, p, transparent);
    NothingIssued(p, transparent);
    var c := StopsAnyway(k, b);
    var later := EndsAlone(k, c);
    CleanAfterTimedOutStop(k, c, later);
    CalmJoin(c, later);
    CalmLeavesNothing(k, c + later);
    ProbeChainIff(k, c + later);
    assert LeavesHooks(k, c + later);
  }

  ghost predicate LeavesHooks(k: Kernel, events: seq<Event>)
  {
    var r := After(k, events);
    Calm(events) && r.loop.Gone? && r.call.Free? && SshcProbe !in r.k.mangle && !Clean(r.k)
  }

  lemma NothingIssued(p: Params, transparent: bool)
    ensures Opening(p, transparent).Connecting? && !LastNewDone(Opening(p, transparent))
  {
  }

  /** The loop of a connect, m commands after its cleanup: within the probe for m from 1 to 3. */
  lemma GoesIntoProbe(d: Daemon, m: nat)
    requires d.loop.Connecting? && d.loop.at.Creating? && 1 <= m <= 3
    ensures InProbe(Repeat(d, LoopStep, |d.loop.todo| + m).loop)
  {
    if m == 1 {
      PointPassed(d);
    } else {
      ProbeTried(d);
      if m == 3 {
        var b := Repeat(d, LoopStep, |d.loop.todo| + 2);
        PointPassed(b);
        Onward(d, |d.loop.todo| + 2, b, 1, Through(b));
      }
    }
  }

  /** A kill within the probe leaves its chain through the next start, from any history in which a start goes
      ahead. */
  lemma ProbeChainCanStay(k: Kernel, before: seq<Event>, p: Params, m: nat) returns (events: seq<Event>)
    requires Clean(k) && After(k, before).loop.Gone? && After(k, before).call.Free? && 1 <= m <= 3
    ensures After(k, events).call == Cleaning(true, []) && !Clean(After(k, events).k)
  {
    var a := Launches(k, before);
    var killed := KilledInProbe(k, a, p, m);
    StartBegins(k, killed);
    var n;
    events, n := CallCompletesIn(k, killed + [StartCalled]);
    NoLoopStep(n);
    UndisturbedCallCleans(k, killed, StartCalled, Times(CallStep, n));
  }

  lemma NoLoopStep(n: nat)
    ensures LoopStep !in Times(CallStep, n)
  {
  }

  lemma KillLeaves(k: Kernel, events: seq<Event>)
    requires InProbe(After(k, events).loop)
    ensures LeftBehind(k, events + [Kill])
    ensures After(k, events + [Kill]) == After(k, events).(loop := Gone, call := Free)
  {
    AfterOne(k, events, Kill);
    assert (events + [Kill])[..|events|] == events;
  }

  lemma KilledInProbe(k: Kernel, events: seq<Event>, p: Params, m: nat) returns (killed: seq<Event>)
    requires After(k, events).loop.Idle? && 1 <= m <= 3
    ensures LeftBehind(k, killed) && After(k, killed).loop.Gone? && After(k, killed).call.Free?
  {
    var b := events + [FirstConnect(p, true)];
    Connects(k, events, p, true);
    var n := |After(k, b).loop.todo| + m;
    GoesIntoProbe(After(k, b), m);
    AfterTimes(k, b, LoopStep, n);
    KillLeaves(k, b + Times(LoopStep, n));
    killed := b + Times(LoopStep, n) + [Kill];
  }

  // ---------------------------------------------------------------------------
  // A panic.

  lemma {:induction false} DisableRuns(d: Daemon)
    requires d.loop.Disabling?
    ensures Repeat(d, LoopStep, |d.loop.todo| + 1) == d.(k := RunAll(d.k, d.loop.todo), loop := Panicked)
    decreases |d.loop.todo|
  {
    if d.loop.todo == [] {
      RepeatOnce(d, LoopStep);
    } else {
      DisableRuns(Advance(d));
    }
  }

  /** A panic of a loop that has brought its rules up and was not cancelled runs `disable` and nothing else. */
  lemma PanicDisables(k: Kernel, before: seq<Event>) returns (events: seq<Event>)
    requires After(k, before).loop.Up? && !After(k, before).cancelled
    ensures var d := After(k, before);
      After(k, events) == d.(k := RunAll(d.k, Cleanup([])), loop := Panicked)
    ensures exists n :: events == before + [Panic(true)] + Times(LoopStep, n)
  {
    AfterOne(k, before, Panic(true));
    PanicStep(After(k, before));
    events := Disables(k, before + [Panic(true)], After(k, before), Cleanup([]));
  }

  lemma Disables(k: Kernel, a: seq<Event>, d: Daemon, cmds: seq<Cmd>) returns (events: seq<Event>)
    requires After(k, a) == d.(loop := Disabling(cmds))
    ensures After(k, events) == d.(k := RunAll(d.k, cmds), loop := Panicked)
    ensures exists n :: events == a + Times(LoopStep, n)
  {
    DisableRuns(d.(loop := Disabling(cmds)));
    AfterTimes(k, a, LoopStep, |cmds| + 1);
    events := a + Times(LoopStep, |cmds| + 1);
  }

  lemma PanicStep(d: Daemon)
    requires d.loop.Up? && !d.cancelled
    ensures Step(d, Panic(true)) == d.(loop := Disabling(Cleanup([])))
  {
  }

  /** Cancelled, or without rules of its own, it ends without a command. */
  lemma PanicRunsNothing(k: Kernel, before: seq<Event>, up: bool)
    requires After(k, before).loop.Idle? || After(k, before).loop.Up?
    requires !up || After(k, before).cancelled || After(k, before).loop.Idle?
    ensures After(k, before + [Panic(up)]) == After(k, before).(loop := Panicked)
  {
    AfterOne(k, before, Panic(up));
  }

  lemma PanickedStep(d: Daemon, e: Event)
    requires d.loop.Panicked? && !e.Kill? && !(d.call.Cleaning? && d.call.start)
    ensures Step(d, e).loop.Panicked? && !(Step(d, e).call.Cleaning? && Step(d, e).call.start)
  {
  }

  /** After that no start goes ahead, whatever is called, until the daemon is killed. */
  lemma {:induction false} NoStartAfterPanic(k: Kernel, before: seq<Event>, later: seq<Event>)
    requires Clean(k) && After(k, before).loop.Panicked? && Kill !in later
    ensures var d := After(k, before + later); d.loop.Panicked? && !(d.call.Cleaning? && d.call.start)
  {
    if later == [] {
      assert before + later == before;
      AlwaysInv(k, before);
    } else {
      var front, e := later[..|later| - 1], later[|later| - 1];
      assert later == front + [e];
      NoStartAfterPanic(k, before, front);
      AfterMore(k, before, front, e);
      PanickedStep(After(k, before + front), e);
    }
  }

  /** In TPROXY mode the `disable` of a panic leaves one of the two jumps to SSHC_UDP, and the chain with it. */
  lemma PanicLeavesAJump(k: Kernel, p: Params) returns (events: seq<Event>)
    requires Clean(k) && Probed(k)
    ensures var r := After(k, events);
      && r.loop.Panicked? && r.call.Free?
      && SshcUdp in r.k.mangle && Count(r.k.mangle, Prerouting, PlainHook(SshcUdp)) == 1
  {
    var a := Launches(k, []);
    var cleaned := After(k, a).k;
    CleanAgain(k);
    Connects(k, a, p, true);
    var b := a + [FirstConnect(p, true)];
    var n := ConnectAlone(After(k, a), p, true);
    AfterTimes(k, b, LoopStep, n);
    FirstPassIsNotEnough(cleaned, p);
    events := PanicDisables(k, b + Times(LoopStep, n));
  }

  lemma CleanAgain(k: Kernel)
    requires Clean(k)
    ensures Cleaned(RunAll(k, NetClean())) && (Probed(RunAll(k, NetClean())) <==> Probed(k))
  {
    CleanIsHooked(k);
    NetCleanCleans(k);
    ExecKeepsSupport(k, NetClean());
  }
}
