/** The methods of TunClient are what keepers and handlers do in the engine, whatever comes between their steps. */
module EngineSteps {
  import opened Seqs
  import opened TunClient
  import TunnelLoop
  import opened Engine

  /** What the keeper of client c has seen, turn by turn. */
  function Turns(mode: TunnelLoop.Receive, l: TunnelLoop.Loop, events: seq<Event>, c: nat): seq<Turn>
  {
    if events == [] then []
    else
      var front := events[..|events| - 1];
      Turns(mode, l, front, c) + TurnOf(After(mode, l, front), events[|events| - 1], c)
  }

  function TurnOf(s: System, e: Event, c: nat): seq<Turn>
  {
    if !Has(s, c) || !s.clients[c].keeper.Probing? then []
    else if e.ProbeReturns? && e.c == c then [if e.miss then Missed else Answered]
    else if e.KeeperStops? && e.c == c && (s.clients[c].closed || s.loop.cancelled) then [ContextDone]
    else []
  }

  /** Before the last turn nothing has ended the keeper; what the last one was says where it stands. */
  ghost predicate KeeperSaw(cl: Client, turns: seq<Turn>)
  {
    var n := |turns|;
    && (forall k | 0 <= k < n - 1 :: !turns[k].ContextDone?)
    && (forall k | 0 <= k < n - 2 :: !(turns[k].Missed? && turns[k + 1].Missed?))
    && (cl.keeper.Probing? ==>
          && cl.missed <= 1 && (cl.missed == 1 <==> n > 0 && turns[n - 1].Missed?)
          && (n > 0 ==> !turns[n - 1].ContextDone?)
          && (n > 1 ==> !(turns[n - 2].Missed? && turns[n - 1].Missed?)))
    && (cl.keeper.Killing? ==> n > 1 && turns[n - 2].Missed? && turns[n - 1].Missed?)
    && (cl.keeper.Stopped? ==>
          n > 0 && (turns[n - 1].ContextDone? || (n > 1 && turns[n - 2].Missed? && turns[n - 1].Missed? && cl.dead)))
  }

  lemma KeeperSeesTurn(s: System, c: nat, e: Event, turns: seq<Turn>)
    requires Has(s, c) && KeeperSaw(s.clients[c], turns) && KeeperEvent(e, c)
    ensures KeeperSaw(KeeperStep(s, c, e).clients[c], turns + TurnOf(s, e, c))
  {
    assert turns + [] == turns;
  }

  /** The same keeper at the same count, of a client that is dead if it was. */
  predicate SameKeeper(was: Client, now: Client)
  {
    now.keeper == was.keeper && now.missed == was.missed && (was.dead ==> now.dead)
  }

  lemma LoopLeavesKeeper(mode: TunnelLoop.Receive, s: System, e: TunnelLoop.Event, c: nat)
    requires Has(s, c)
    ensures var r := LoopStep(mode, s, e); Has(r, c) && SameKeeper(s.clients[c], r.clients[c])
  {
  }

  lemma HandlerLeavesKeeper(s: System, h: nat, e: Event, c: nat)
    requires Has(s, c) && h in s.handlers
    ensures var r := HandlerStep(s, h, e); Has(r, c) && SameKeeper(s.clients[c], r.clients[c])
  {
  }

  lemma OtherKeeperLeaves(s: System, k: nat, e: Event, c: nat)
    requires Has(s, c) && Has(s, k) && k != c
    ensures var r := KeeperStep(s, k, e); Has(r, c) && SameKeeper(s.clients[c], r.clients[c])
  {
  }

  lemma OthersLeaveKeeper(mode: TunnelLoop.Receive, s: System, e: Event, c: nat)
    requires Has(s, c) && !KeeperEvent(e, c)
    ensures Has(Step(mode, s, e), c) && SameKeeper(s.clients[c], Step(mode, s, e).clients[c]) && TurnOf(s, e, c) == []
  {
    match e
    case LoopEvent(le) => LoopLeavesKeeper(mode, s, le, c);
    case TransportEnds(_) =>
    case Accept(_) =>
    case ProbeReturns(k, _) => if Has(s, k) { OtherKeeperLeaves(s, k, e, c); }
    case KeeperKills(k) => if Has(s, k) { OtherKeeperLeaves(s, k, e, c); }
    case KeeperStops(k) => if Has(s, k) { OtherKeeperLeaves(s, k, e, c); }
    case _ => if e.h in s.handlers { HandlerLeavesKeeper(s, e.h, e, c); }
  }

  lemma NewKeeperSawNothing(mode: TunnelLoop.Receive, s: System, e: Event, c: nat)
    requires Inv(mode, s) && !Has(s, c) && Has(Step(mode, s, e), c)
    ensures Step(mode, s, e).clients[c] == NEW_CLIENT
  {
  }

  ghost predicate KeeperOk(s: System, c: nat, turns: seq<Turn>)
  {
    if Has(s, c) then KeeperSaw(s.clients[c], turns) else turns == []
  }

  predicate KeeperEvent(e: Event, c: nat) { (e.ProbeReturns? || e.KeeperKills? || e.KeeperStops?) && e.c == c }

  lemma KeeperEventSeen(mode: TunnelLoop.Receive, s: System, e: Event, c: nat, turns: seq<Turn>)
    requires KeeperOk(s, c, turns) && KeeperEvent(e, c)
    ensures KeeperOk(Step(mode, s, e), c, turns + TurnOf(s, e, c))
  {
    assert turns + [] == turns;
    if Has(s, c) {
      KeeperSeesTurn(s, c, e, turns);
    }
  }

  lemma OtherEventSeen(mode: TunnelLoop.Receive, s: System, e: Event, c: nat, turns: seq<Turn>)
    requires Inv(mode, s) && KeeperOk(s, c, turns) && !KeeperEvent(e, c)
    ensures KeeperOk(Step(mode, s, e), c, turns + TurnOf(s, e, c))
  {
    assert turns + [] == turns;
    if Has(s, c) {
      OthersLeaveKeeper(mode, s, e, c);
    } else if Has(Step(mode, s, e), c) {
      NewKeeperSawNothing(mode, s, e, c);
    }
  }

  lemma {:induction false} KeeperSawTurns(mode: TunnelLoop.Receive, l: TunnelLoop.Loop, events: seq<Event>, c: nat)
    requires TunnelLoop.Fresh(l)
    ensures KeeperOk(After(mode, l, events), c, Turns(mode, l, events, c))
  {
    if events != [] {
      var front, e := events[..|events| - 1], events[|events| - 1];
      AlwaysInv(mode, l, front);
      KeeperSawTurns(mode, l, front, c);
      if KeeperEvent(e, c) {
        KeeperEventSeen(mode, After(mode, l, front), e, c, Turns(mode, l, front, c));
      } else {
        OtherEventSeen(mode, After(mode, l, front), e, c, Turns(mode, l, front, c));
      }
    }
  }

  /** The keeper has come to kill its client, or has killed it. */
  predicate Kills(cl: Client, turns: seq<Turn>)
  {
    cl.keeper.Killing? || (cl.keeper.Stopped? && turns != [] && !turns[|turns| - 1].ContextDone?)
  }

  lemma KillsIffTwoMisses(s: System, c: nat, turns: seq<Turn>)
    requires Has(s, c) && KeeperOk(s, c, turns)
    ensures Kills(s.clients[c], turns) <==> MissesTwice(turns)
    ensures s.clients[c].keeper.Stopped? && Kills(s.clients[c], turns) ==> s.clients[c].dead
  {
    if Kills(s.clients[c], turns) {
      assert TwoMissesAt(turns, |turns| - 2);
    } else if i: nat :| TwoMissesAt(turns, i) {
      assert false;
    }
  }

  /** In every interleaving a keeper has come to kill its client exactly when the method KeepAlive, given the turns
      that the keeper saw, kills it; when it has stopped after that the client is dead. */
  lemma KeeperIsKeepAlive(mode: TunnelLoop.Receive, l: TunnelLoop.Loop, events: seq<Event>, c: nat)
    requires TunnelLoop.Fresh(l) && Has(After(mode, l, events), c)
    ensures var turns, cl := Turns(mode, l, events, c), After(mode, l, events).clients[c];
      && (Kills(cl, turns) <==> MissesTwice(turns))
      && (cl.keeper.Stopped? && Kills(cl, turns) ==> cl.dead)
  {
    KeeperSawTurns(mode, l, events, c);
    KillsIffTwoMisses(After(mode, l, events), c, Turns(mode, l, events, c));
  }

  /** What a handler sees at a step: the pointer, and the dead flag of the client it is about to check. */
  datatype Seen = Seen(e: Event, ptr: Option<nat>, dead: bool)

  function See(s: System, h: nat, e: Event): Seen
    requires h in s.handlers
  {
    var at := s.handlers[h];
    var checked := if at.Loaded? then at.cl else if at.Reloaded? then at.ncl else 0;
    Seen(e, s.loop.ptr, Has(s, checked) && s.clients[checked].dead)
  }

  /** Where a handler goes on what it sees. */
  function Point(at: Handler, seen: Seen): Handler
  {
    match seen.e
    case LoadPointer(_) =>
      if at.Starting? then (if seen.ptr.Some? then Loaded(seen.ptr.value) else Finished)
      else if at.Reloading? then (if seen.ptr.Some? then Reloaded(at.cl, seen.ptr.value) else Finished)
      else if at.Dialed? then (if seen.ptr.Some? then Piping(at.via, seen.ptr.value) else Finished)
      else at
    case CheckDead(_) =>
      if at.Loaded? then (if seen.dead then Finished else Dialing(at.cl))
      else if at.Reloaded? then (if seen.dead then Finished else Redialing(at.cl, at.ncl))
      else at
    case DialReturns(_, d) => Dialled(at, d)
    case MarkDead(_) => if MarkTarget(at).Some? then MarkTarget(at).value.1 else at
    case PipeEnds(_) => if at.Piping? then Finished else at
    case _ => at
  }

  function Walk(at: Handler, path: seq<Seen>): Handler
    decreases |path|
  {
    if path == [] then at else Walk(Point(at, path[0]), path[1..])
  }

  /** The client that a step marks dead. */
  function Marked(at: Handler, seen: Seen): set<nat>
  {
    if seen.e.MarkDead? && MarkTarget(at).Some? then {MarkTarget(at).value.0} else {}
  }

  function Marks(at: Handler, path: seq<Seen>): set<nat>
    decreases |path|
  {
    if path == [] then {} else Marked(at, path[0]) + Marks(Point(at, path[0]), path[1..])
  }

  /** What handler h has seen in a run, step by step. */
  function PathOf(mode: TunnelLoop.Receive, l: TunnelLoop.Loop, events: seq<Event>, h: nat): seq<Seen>
  {
    if events == [] then []
    else
      var front, e := events[..|events| - 1], events[|events| - 1];
      var s := After(mode, l, front);
      PathOf(mode, l, front, h) + if HandlerEvent(e) && e.h == h && h in s.handlers then [See(s, h, e)] else []
  }

  predicate HandlerEvent(e: Event)
  {
    e.LoadPointer? || e.CheckDead? || e.DialReturns? || e.MarkDead? || e.PipeEnds?
  }

  lemma NextIsPoint(s: System, h: nat, e: Event)
    requires h in s.handlers && HandlerOk(s, s.handlers[h]) && HandlerEvent(e) && e.h == h
    ensures NextPoint(s, h, e) == Point(s.handlers[h], See(s, h, e))
  {
  }

  lemma OthersLeaveHandler(mode: TunnelLoop.Receive, s: System, e: Event, h: nat)
    requires !(HandlerEvent(e) && e.h == h)
    ensures h in s.handlers ==> h in Step(mode, s, e).handlers && Step(mode, s, e).handlers[h] == s.handlers[h]
    ensures h !in s.handlers && h in Step(mode, s, e).handlers ==> Step(mode, s, e).handlers[h] == Starting
  {
  }

  lemma OwnStepOfHandler(mode: TunnelLoop.Receive, s: System, e: Event)
    requires HandlerEvent(e)
    ensures e.h !in s.handlers ==> e.h !in Step(mode, s, e).handlers
    ensures e.h in s.handlers ==>
              e.h in Step(mode, s, e).handlers && Step(mode, s, e).handlers[e.h] == NextPoint(s, e.h, e)
  {
  }

  /** In every interleaving a handler stands where its own steps lead on what it saw. */
  lemma {:induction false} HandlerFollows(mode: TunnelLoop.Receive, l: TunnelLoop.Loop, events: seq<Event>, h: nat)
    requires TunnelLoop.Fresh(l)
    ensures if h in After(mode, l, events).handlers then
              After(mode, l, events).handlers[h] == Walk(Starting, PathOf(mode, l, events, h))
            else PathOf(mode, l, events, h) == []
  {
    if events != [] {
      var front, e := events[..|events| - 1], events[|events| - 1];
      var s := After(mode, l, front);
      var path := PathOf(mode, l, front, h);
      AlwaysInv(mode, l, front);
      HandlerFollows(mode, l, front, h);
      assert path + [] == path;
      if HandlerEvent(e) && e.h == h {
        OwnStepOfHandler(mode, s, e);
        if h in s.handlers {
          assert HandlerOk(s, s.handlers[h]);
          NextIsPoint(s, h, e);
          WalkOn(Starting, path, See(s, h, e));
        }
      } else {
        OthersLeaveHandler(mode, s, e, h);
      }
    }
  }

  lemma {:induction false} WalkOn(at: Handler, path: seq<Seen>, seen: Seen)
    ensures Walk(at, path + [seen]) == Point(Walk(at, path), seen)
    decreases |path|
  {
    if path == [] {
      assert path + [seen] == [seen] && Walk(Point(at, seen), []) == Point(at, seen);
    } else {
      assert (path + [seen])[1..] == path[1..] + [seen];
      WalkOn(Point(at, path[0]), path[1..], seen);
    }
  }

  /** The steps of a handler up to its reply, by what it sees: the three loads of the pointer, the two checks, and
      what the dials return. */
  function OpenPath(h: nat, cl: Option<nat>, dead: bool, first: Dial, ncl: Option<nat>, nextDead: bool, second: Dial,
                    counted: Option<nat>): seq<Seen>
  {
    [Seen(LoadPointer(h), cl, false)]
    + if cl.None? then []
      else
        [Seen(CheckDead(h), None, dead)]
        + if dead then [] else DialPath(h, first, RetryPath(h, ncl, nextDead, second, counted), counted)
  }

  /** A dial, and what it leads to; `retry` is what a retryable error leads to. */
  function DialPath(h: nat, d: Dial, retry: seq<Seen>, counted: Option<nat>): seq<Seen>
  {
    [Seen(DialReturns(h, d), None, false)]
    + match d
      case Succeeds => [Seen(LoadPointer(h), counted, false)]
      case TransportDeath => [Seen(MarkDead(h), None, false)] + [Seen(MarkDead(h), None, false)]
      case Retryable => retry
      case Refused => []
  }

  function RetryPath(h: nat, ncl: Option<nat>, nextDead: bool, second: Dial, counted: Option<nat>): seq<Seen>
  {
    [Seen(LoadPointer(h), ncl, false)]
    + if ncl.None? then []
      else [Seen(CheckDead(h), None, nextDead)] + if nextDead then [] else DialPath(h, second, [], counted)
  }

  lemma WalkFirst(at: Handler, seen: Seen, rest: seq<Seen>)
    ensures Walk(at, [seen] + rest) == Walk(Point(at, seen), rest)
    ensures Marks(at, [seen] + rest) == Marked(at, seen) + Marks(Point(at, seen), rest)
  {
    assert ([seen] + rest)[1..] == rest;
  }

  lemma WalkNone(at: Handler)
    ensures Walk(at, []) == at && Marks(at, []) == {}
  {
  }

  function AtReply(via: nat, counted: Option<nat>): Handler
  {
    if counted.Some? then Piping(via, counted.value) else Finished
  }

  lemma MarkTwice(h: nat, at: Handler, cl: nat)
    requires at.MarkingFirst? || at.MarkingSecond?
    requires cl == at.cl
    ensures var path := [Seen(MarkDead(h), None, false)] + [Seen(MarkDead(h), None, false)];
      Walk(at, path) == Finished && Marks(at, path) == {MarkTarget(at).value.0, cl}
  {
    var seen := Seen(MarkDead(h), None, false);
    WalkFirst(at, seen, [seen]);
    WalkFirst(MarkingCaller(cl), seen, []);
    assert [seen] + [] == [seen];
    WalkNone(Finished);
  }

  lemma ReloadLast(h: nat, via: nat, counted: Option<nat>)
    ensures var path := [Seen(LoadPointer(h), counted, false)];
      Walk(Dialed(via), path) == AtReply(via, counted) && Marks(Dialed(via), path) == {}
  {
    var seen := Seen(LoadPointer(h), counted, false);
    WalkFirst(Dialed(via), seen, []);
    assert [seen] + [] == [seen];
    WalkNone(AtReply(via, counted));
  }

  lemma SecondDial(h: nat, cl: nat, ncl: nat, d: Dial, counted: Option<nat>)
    ensures var path := DialPath(h, d, [], counted); var at := Redialing(cl, ncl);
      && Walk(at, path) == (if d.Succeeds? then AtReply(ncl, counted) else Finished)
      && Marks(at, path) == if d.TransportDeath? then {cl, ncl} else {}
  {
    var at := Redialing(cl, ncl);
    WalkFirst(at, Seen(DialReturns(h, d), None, false), DialPath(h, d, [], counted)[1..]);
    match d
    case Succeeds => ReloadLast(h, ncl, counted);
    case TransportDeath => MarkTwice(h, MarkingSecond(cl, ncl), cl);
    case _ => WalkNone(Finished);
  }

  lemma Retry(h: nat, cl: nat, ncl: Option<nat>, nextDead: bool, d: Dial, counted: Option<nat>)
    ensures var path, at := RetryPath(h, ncl, nextDead, d, counted), Reloading(cl);
      var alive := ncl.Some? && !nextDead;
      && Walk(at, path) == (if alive && d.Succeeds? then AtReply(ncl.value, counted) else Finished)
      && Marks(at, path) == if alive && d.TransportDeath? then {cl, ncl.value} else {}
  {
    var at := Reloading(cl);
    var path := RetryPath(h, ncl, nextDead, d, counted);
    WalkFirst(at, path[0], path[1..]);
    assert path == [path[0]] + path[1..];
    WalkNone(Finished);
    if ncl.Some? {
      var rest := if nextDead then [] else DialPath(h, d, [], counted);
      WalkFirst(Reloaded(cl, ncl.value), Seen(CheckDead(h), None, nextDead), rest);
      assert path[1..] == [Seen(CheckDead(h), None, nextDead)] + rest;
      SecondDial(h, cl, ncl.value, d, counted);
    }
  }

  lemma FirstDial(h: nat, cl: nat, d: Dial, retry: seq<Seen>, counted: Option<nat>)
    ensures var path := DialPath(h, d, retry, counted); var at := Dialing(cl);
      && Walk(at, path) == (match d
                            case Succeeds => AtReply(cl, counted)
                            case Retryable => Walk(Reloading(cl), retry)
                            case _ => Finished)
      && Marks(at, path) == (match d
                             case TransportDeath => {cl}
                             case Retryable => Marks(Reloading(cl), retry)
                             case _ => {})
  {
    var at := Dialing(cl);
    var path := DialPath(h, d, retry, counted);
    WalkFirst(at, path[0], path[1..]);
    assert path == [path[0]] + path[1..];
    match d
    case Succeeds => ReloadLast(h, cl, counted);
    case TransportDeath => MarkTwice(h, MarkingFirst(cl), cl);
    case Retryable => assert path[1..] == retry;
    case Refused => WalkNone(Finished);
  }

  lemma Checked(h: nat, cl: nat, dead: bool, rest: seq<Seen>)
    ensures var path := [Seen(CheckDead(h), None, dead)] + rest;
      && Walk(Loaded(cl), path) == Walk(if dead then Finished else Dialing(cl), rest)
      && Marks(Loaded(cl), path) == Marks(if dead then Finished else Dialing(cl), rest)
  {
    WalkFirst(Loaded(cl), Seen(CheckDead(h), None, dead), rest);
  }

  lemma LoadedFirst(h: nat, cl: Option<nat>, rest: seq<Seen>)
    ensures var path := [Seen(LoadPointer(h), cl, false)] + rest;
      && Walk(Starting, path) == Walk(if cl.Some? then Loaded(cl.value) else Finished, rest)
      && Marks(Starting, path) == Marks(if cl.Some? then Loaded(cl.value) else Finished, rest)
  {
    WalkFirst(Starting, Seen(LoadPointer(h), cl, false), rest);
  }

  /** Whatever a handler sees, its steps come to piping exactly when the method OpenStream grants the stream, counted
      by the client of the last load; and it marks the clients that OpenStream marks. */
  lemma HandlerIsOpenStream(h: nat, cl: Option<nat>, dead: bool, first: Dial, ncl: Option<nat>, nextDead: bool,
                            second: Dial, counted: Option<nat>)
    ensures var path := OpenPath(h, cl, dead, first, ncl, nextDead, second, counted);
      var alive, next := cl.Some? && !dead, ncl.Some? && !nextDead;
      && Walk(Starting, path)
         == (if !OpensBy(alive, first, next, second) then Finished
             else AtReply((if first.Succeeds? then cl else ncl).value, counted))
      && Marks(Starting, path)
         == (if alive && first.TransportDeath? then {cl.value}
             else if alive && first.Retryable? && next && second.TransportDeath? then {cl.value, ncl.value}
             else {})
  {
    WalkNone(Finished);
    if cl.None? {
      LoadedFirst(h, cl, []);
    } else {
      var retry := RetryPath(h, ncl, nextDead, second, counted);
      var rest := if dead then [] else DialPath(h, first, retry, counted);
      LoadedFirst(h, cl, [Seen(CheckDead(h), None, dead)] + rest);
      Checked(h, cl.value, dead, rest);
      FirstDial(h, cl.value, first, retry, counted);
      Retry(h, cl.value, ncl, nextDead, second, counted);
    }
  }
}
