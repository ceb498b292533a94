/** The connection manager as a sequential program over the events its environment offers. */
module TunnelLoop {
  import opened Seqs
  import Backoff

  datatype Label = Starting | PausedNoNetwork | ConnectingSsh | RetryBackoff | Connected | Reconnecting

  datatype Status = Status(
    state: Label,
    connected: bool,
    authenticated: bool,
    ready: bool,
    healthy: nat,
    reconnecting: nat,
    streams: int)

  /** Where the loop stands; a number names the client of the current iteration. */
  datatype At =
    | Delaying                // select on ctx.Done and time.After(delay)
    | Deciding                // read config and route
    | Attempting              // attemptSSHAuth
    | Publishing(c: nat)      // clientPtr.Store(tc)
    | Announcing(c: nat)      // st.set(CONNECTED)
    | BringingUp(c: nat)      // listeners and rules, once
    | Waiting(c: nat)         // select on ctx.Done, waitDone and the health ticker
    | Receiving(c: nat)       // the second receive on waitDone, engine.go:329
    | Closing(c: nat)         // tc.Close after the client was lost
    | Clearing                // clientPtr.Store(nil)
    | Reporting               // st.set(RECONNECTING)
    | Leaving                 // tc closed on cancellation; pointer and teardown follow
    | Returned

  /** The literal loop receives twice from a channel that is sent to once; the intended loop
      reuses the value of the first receive. */
  datatype Receive = Literal | Intended

  /** The goroutine of this iteration that sends the result of Wait on waitDone, once. */
  datatype Sender = NoSender | Blocked | Done

  /** `sender` and `full` are the channel waitDone of the current iteration: its one sender and
      whether its one slot holds a value. `starts` and `disables` count what happened: listener
      starts and disable runs of teardown. */
  datatype Loop = Loop(
    at: At,
    cancelled: bool,
    delay: nat,
    listening: bool,
    iptablesUp: bool,
    ptr: Option<nat>,
    status: Status,
    sender: Sender,
    full: bool,
    created: nat,
    starts: nat,
    disables: nat)

  datatype Event =
    | Cancel                                        // context cancelled from outside
    | StopClears                                    // stopTunnel stores nil after cancelling
    | DelayOver
    | SeeCancel                                     // the ctx.Done case of either select
    | Route(online: bool)
    | AuthResult(ok: bool)
    | Publish
    | Announce
    | BringUp(transparent: bool, scriptOk: bool)
    | HealthTick(streams: int)
    | SenderSends                                   // Wait has returned; its goroutine sends the one value
    | TakeDone                                      // a receive on waitDone, in the select or at engine.go:329
    | CloseLost
    | ClearLost
    | ReportLost
    | Leave
    | Panic                                         // anywhere in the loop; recovered by its caller

  function Down(s: Status, shown: Label): Status
  {
    s.(state := shown, connected := false, authenticated := false, ready := false, healthy := 0)
  }

  /** The deferred teardown. */
  function Teardown(l: Loop): Loop
  {
    if l.cancelled || !l.iptablesUp then l.(at := Returned, listening := false, ptr := None)
    else l.(at := Returned, listening := false, ptr := None, iptablesUp := false, disables := l.disables + 1)
  }

  /** From the delay to the first wait: connect, publish, bring up, start the sender. */
  function Connecting(l: Loop, e: Event): Loop
  {
    match e
    case DelayOver => if l.at.Delaying? then l.(at := Deciding) else l
    case Route(online) =>
      if !l.at.Deciding? then l
      else if online then l.(at := Attempting, status := l.status.(state := ConnectingSsh))
      else l.(at := Delaying, status := Down(l.status, PausedNoNetwork), delay := 5)
    case AuthResult(ok) =>
      if !l.at.Attempting? then l
      else if ok then l.(at := Publishing(l.created), created := l.created + 1, delay := Backoff.BASE_DELAY)
      else l.(at := Delaying, status := Down(l.status, RetryBackoff),
              delay := Backoff.NextDelay(l.delay, Backoff.BASE_DELAY, Backoff.MAX_DELAY))
    case Publish => if l.at.Publishing? then l.(at := Announcing(l.at.c), ptr := Some(l.at.c)) else l
    case Announce =>
      if !l.at.Announcing? then l
      else l.(at := BringingUp(l.at.c), status := Status(Connected, true, true, true, 1, 0, 0))
    case BringUp(transparent, scriptOk) =>
      if !l.at.BringingUp? then l
      else if l.listening then l.(at := Waiting(l.at.c), sender := Blocked, full := false)
      else l.(at := Waiting(l.at.c), sender := Blocked, full := false, listening := true, starts := l.starts + 1,
              iptablesUp := l.iptablesUp || (transparent && scriptOk))
    case _ => l
  }

  /** From the wait to the next delay: the sender, the receives, giving the client up. */
  function Waits(mode: Receive, l: Loop, e: Event): Loop
  {
    match e
    case HealthTick(streams) => if l.at.Waiting? then l.(status := l.status.(streams := streams)) else l
    case SenderSends => if l.sender.Blocked? then l.(sender := Done, full := true) else l
    case TakeDone =>
      if !l.full then l
      else if l.at.Waiting? then
        l.(full := false, at := if mode.Literal? then Receiving(l.at.c) else Closing(l.at.c))
      else if l.at.Receiving? then l.(full := false, at := Closing(l.at.c))
      else l
    case CloseLost => if l.at.Closing? then l.(at := Clearing) else l
    case ClearLost => if l.at.Clearing? then l.(at := Reporting, ptr := None) else l
    case ReportLost =>
      if l.at.Reporting? then
        l.(at := Delaying, delay := Backoff.BASE_DELAY,
           status := Down(l.status, Reconnecting).(reconnecting := 1, streams := 0))
      else l
    case _ => l
  }

  /** Cancellation and what ends the loop. */
  function Ends(l: Loop, e: Event): Loop
  {
    match e
    case Cancel => l.(cancelled := true)
    case StopClears => if l.cancelled then l.(ptr := None) else l
    case SeeCancel =>
      if !l.cancelled then l
      else if l.at.Delaying? then Teardown(l)
      else if l.at.Waiting? then l.(at := Leaving)
      else l
    case Leave => if l.at.Leaving? then Teardown(l.(ptr := None)) else l
    case Panic => if l.at.Returned? then l else Teardown(l)
    case _ => l
  }

  predicate IsConnecting(e: Event)
  {
    e.DelayOver? || e.Route? || e.AuthResult? || e.Publish? || e.Announce? || e.BringUp?
  }

  predicate IsEnding(e: Event)
  {
    e.Cancel? || e.StopClears? || e.SeeCancel? || e.Leave? || e.Panic?
  }

  /** One step; an event the loop does not wait for at this point changes nothing. */
  function Step(mode: Receive, l: Loop, e: Event): Loop
  {
    if IsConnecting(e) then Connecting(l, e) else if IsEnding(e) then Ends(l, e) else Waits(mode, l, e)
  }

  function After(mode: Receive, l: Loop, events: seq<Event>): Loop
  {
    if events == [] then l else Step(mode, After(mode, l, events[..|events| - 1]), events[|events| - 1])
  }

  /** What the loop starts from: nothing connected and nothing up, whatever was shown before. */
  predicate Fresh(l: Loop)
  {
    && l.at.Delaying? && l.delay == 0 && !l.listening && !l.iptablesUp && l.ptr.None?
    && l.created == 0 && l.starts == 0 && l.disables == 0 && l.sender.NoSender? && !l.full
    && !l.status.connected && !l.status.authenticated && !l.status.ready && l.status.healthy == 0
  }

  predicate AllDown(s: Status) { !s.connected && !s.authenticated && !s.ready && s.healthy != 1 }

  predicate AllUp(s: Status) { s.connected && s.authenticated && s.ready && s.healthy == 1 && s.state.Connected? }

  /** The client of the current iteration, if there is one. */
  function Current(at: At): Option<nat>
  {
    match at
    case Publishing(c) => Some(c)
    case Announcing(c) => Some(c)
    case BringingUp(c) => Some(c)
    case Waiting(c) => Some(c)
    case Receiving(c) => Some(c)
    case Closing(c) => Some(c)
    case _ => None
  }

  /** Which client the loop and the pointer hold. */
  ghost predicate ClientInv(l: Loop)
  {
    && (Current(l.at).Some? ==> Current(l.at).value + 1 == l.created)
    && (l.ptr.Some? ==> l.ptr.value + 1 == l.created)
    && (l.ptr.Some? ==> Current(l.at) == l.ptr || l.at.Clearing? || l.at.Leaving?)
    && (l.at.Publishing? ==> l.ptr.None?)
    && (!l.cancelled && (l.at.Announcing? || l.at.BringingUp? || l.at.Waiting? || l.at.Receiving? || l.at.Closing?)
        ==> l.ptr.Some?)
    && (l.at.Leaving? ==> l.cancelled)
  }

  /** What the status shows, and what has been brought up. */
  ghost predicate StatusInv(l: Loop)
  {
    && (l.at.Delaying? || l.at.Deciding? || l.at.Attempting? || l.at.Publishing? || l.at.Announcing?
        ==> AllDown(l.status))
    && (l.at.BringingUp? || l.at.Waiting? || l.at.Receiving? || l.at.Closing? ==> AllUp(l.status))
    && l.starts <= 1 && l.disables <= 1 && (l.disables == 1 ==> l.at.Returned?)
    && (!l.at.Returned? ==> (l.listening <==> l.starts == 1))
  }

  /** The channel waitDone: one value, sent once, taken at most once. */
  ghost predicate ChannelInv(mode: Receive, l: Loop)
  {
    && (l.at.Waiting? ==> if l.full then l.sender.Done? else l.sender.Blocked?)
    && (l.at.Receiving? ==> mode.Literal? && l.sender.Done? && !l.full)
    && (l.at.Closing? || l.at.Clearing? || l.at.Reporting? ==> mode.Intended?)
    && (l.full ==> l.sender.Done?)
    && (l.at.Closing? ==> l.sender.Done?)
    && (!(l.at.Waiting? || l.at.Leaving? || l.at.Returned?) ==> !l.sender.Blocked?)
  }

  ghost predicate Inv(mode: Receive, l: Loop) { ClientInv(l) && StatusInv(l) && ChannelInv(mode, l) }

  lemma ConnectingKeepsClient(l: Loop, e: Event)
    requires ClientInv(l)
    ensures ClientInv(Connecting(l, e))
  {
  }

  lemma WaitsKeepsClient(mode: Receive, l: Loop, e: Event)
    requires ClientInv(l)
    ensures ClientInv(Waits(mode, l, e))
  {
  }

  lemma EndsKeepsClient(l: Loop, e: Event)
    requires ClientInv(l)
    ensures ClientInv(Ends(l, e))
  {
  }

  lemma ConnectingKeepsStatus(l: Loop, e: Event)
    requires StatusInv(l)
    ensures StatusInv(Connecting(l, e))
  {
  }

  lemma WaitsKeepsStatus(mode: Receive, l: Loop, e: Event)
    requires StatusInv(l)
    ensures StatusInv(Waits(mode, l, e))
  {
  }

  lemma EndsKeepsStatus(l: Loop, e: Event)
    requires StatusInv(l)
    ensures StatusInv(Ends(l, e))
  {
  }

  lemma StepKeepsChannel(mode: Receive, l: Loop, e: Event)
    requires ChannelInv(mode, l)
    ensures ChannelInv(mode, Step(mode, l, e))
  {
  }

  lemma StepKeepsInv(mode: Receive, l: Loop, e: Event)
    requires Inv(mode, l)
    ensures Inv(mode, Step(mode, l, e))
  {
    ConnectingKeepsClient(l, e);
    ConnectingKeepsStatus(l, e);
    WaitsKeepsClient(mode, l, e);
    WaitsKeepsStatus(mode, l, e);
    EndsKeepsClient(l, e);
    EndsKeepsStatus(l, e);
    StepKeepsChannel(mode, l, e);
  }

  /** A panic while the rules are up and nobody has cancelled. */
  predicate PanicsUp(l: Loop, e: Event)
  {
    e.Panic? && !l.at.Returned? && !l.cancelled && l.iptablesUp
  }

  ghost predicate RoutingKept(l: Loop, e: Event, l': Loop)
  {
    && (l.iptablesUp ==> (l'.iptablesUp <==> !PanicsUp(l, e)))
    && l'.disables == l.disables + (if PanicsUp(l, e) then 1 else 0)
    && (l.listening && !l'.at.Returned? ==> l'.listening)
    && (l.at.Returned? ==> l'.at.Returned?)
  }

  lemma EndsKeepsRouting(l: Loop, e: Event)
    requires ClientInv(l) && IsEnding(e)
    ensures RoutingKept(l, e, Ends(l, e))
  {
  }

  /** What was brought up stays up, with one exception: the teardown of a panic. */
  lemma StepKeepsRouting(mode: Receive, l: Loop, e: Event)
    requires Inv(mode, l)
    ensures RoutingKept(l, e, Step(mode, l, e))
  {
    if IsEnding(e) {
      EndsKeepsRouting(l, e);
    }
  }

  /** Whether this event makes a new client, and whether it gives the current one up. */
  predicate Creates(l: Loop, e: Event) { e == AuthResult(true) && l.at.Attempting? }

  predicate GivesUp(l: Loop, e: Event)
  {
    || (e.CloseLost? && l.at.Closing?)
    || (e.SeeCancel? && l.cancelled && l.at.Waiting?)
    || (e.Panic? && Current(l.at).Some?)
  }

  ghost predicate Changes(l: Loop, e: Event, l': Loop)
  {
    && l'.created == l.created + (if Creates(l, e) then 1 else 0)
    && (Creates(l, e) ==> Current(l.at).None? && Current(l'.at).Some?)
    && (Current(l.at).Some? ==> (Current(l'.at).None? <==> GivesUp(l, e)))
    && (Current(l.at).None? && Current(l'.at).Some? ==> Creates(l, e))
  }

  lemma ConnectingChanges(l: Loop, e: Event)
    requires IsConnecting(e)
    ensures Changes(l, e, Connecting(l, e))
  {
  }

  lemma WaitsChanges(mode: Receive, l: Loop, e: Event)
    requires !IsConnecting(e) && !IsEnding(e)
    ensures Changes(l, e, Waits(mode, l, e))
  {
  }

  lemma EndsChanges(l: Loop, e: Event)
    requires IsEnding(e)
    ensures Changes(l, e, Ends(l, e))
  {
  }

  /** The loop takes a client only by authenticating one, and gives it up exactly by closing it,
      after a loss or on cancellation, or by a panic. */
  lemma ClientChanges(mode: Receive, l: Loop, e: Event)
    ensures Changes(l, e, Step(mode, l, e))
  {
    if IsConnecting(e) {
      ConnectingChanges(l, e);
    } else if IsEnding(e) {
      EndsChanges(l, e);
    } else {
      WaitsChanges(mode, l, e);
    }
  }

  lemma {:induction false} AlwaysInv(mode: Receive, l: Loop, events: seq<Event>)
    requires Fresh(l)
    ensures Inv(mode, After(mode, l, events))
  {
    if events != [] {
      AlwaysInv(mode, l, events[..|events| - 1]);
      StepKeepsInv(mode, After(mode, l, events[..|events| - 1]), events[|events| - 1]);
    }
  }

  /** No event of a run from the k-th on is a panic with the rules up and nobody having cancelled. */
  ghost predicate PanicFree(mode: Receive, l: Loop, events: seq<Event>, k: nat)
  {
    |events| <= k
    || (PanicFree(mode, l, events[..|events| - 1], k)
        && !PanicsUp(After(mode, l, events[..|events| - 1]), events[|events| - 1]))
  }

  lemma {:induction false} DisablesOncePanicked(mode: Receive, l: Loop, events: seq<Event>)
    requires Fresh(l)
    ensures After(mode, l, events).disables == if PanicFree(mode, l, events, 0) then 0 else 1
  {
    if events != [] {
      var n := |events| - 1;
      DisablesOncePanicked(mode, l, events[..n]);
      AlwaysInv(mode, l, events[..n]);
      AlwaysInv(mode, l, events);
      StepKeepsRouting(mode, After(mode, l, events[..n]), events[n]);
    }
  }

  /** The state after the first k events, reached by dropping the last ones. */
  function Earlier(mode: Receive, l: Loop, events: seq<Event>, k: nat): Loop
  {
    if |events| <= k then After(mode, l, events) else Earlier(mode, l, events[..|events| - 1], k)
  }

  lemma {:induction false} EarlierIsPrefix(mode: Receive, l: Loop, events: seq<Event>, k: nat)
    requires k <= |events|
    ensures Earlier(mode, l, events, k) == After(mode, l, events[..k])
  {
    if k == |events| {
      assert events[..k] == events;
    } else {
      assert events[..|events| - 1][..k] == events[..k];
      EarlierIsPrefix(mode, l, events[..|events| - 1], k);
    }
  }

  /** One step of a run whose rules are up as long as it is free of panics. */
  lemma UpStep(mode: Receive, l: Loop, e: Event, free: bool)
    requires Inv(mode, l) && Inv(mode, Step(mode, l, e))
    requires (l.iptablesUp <==> free) && (!l.iptablesUp ==> l.disables == 1)
    ensures Step(mode, l, e).iptablesUp <==> free && !PanicsUp(l, e)
    ensures !Step(mode, l, e).iptablesUp ==> Step(mode, l, e).disables == 1
  {
    StepKeepsRouting(mode, l, e);
    if !l.iptablesUp {
      StaysDown(mode, l, e);
    }
  }

  lemma {:induction false} UpUntilPanic(mode: Receive, l: Loop, events: seq<Event>, k: nat)
    requires Fresh(l) && k <= |events| && Earlier(mode, l, events, k).iptablesUp
    ensures After(mode, l, events).iptablesUp <==> PanicFree(mode, l, events, k)
    ensures !After(mode, l, events).iptablesUp ==> After(mode, l, events).disables == 1
    decreases |events|
  {
    if k < |events| {
      var n := |events| - 1;
      UpUntilPanic(mode, l, events[..n], k);
      AlwaysInv(mode, l, events[..n]);
      AlwaysInv(mode, l, events);
      UpStep(mode, After(mode, l, events[..n]), events[n], PanicFree(mode, l, events[..n], k));
    }
  }

  /** After teardown nothing comes up again. */
  lemma StaysDown(mode: Receive, l: Loop, e: Event)
    requires Inv(mode, l) && l.disables == 1 && !l.iptablesUp
    ensures !Step(mode, l, e).iptablesUp
  {
  }

  lemma {:induction false} ListensUntilReturn(mode: Receive, l: Loop, events: seq<Event>, k: nat)
    requires Fresh(l) && k <= |events| && After(mode, l, events[..k]).listening
    ensures After(mode, l, events).at.Returned? || After(mode, l, events).listening
    decreases |events|
  {
    if k == |events| {
      assert events[..k] == events;
    } else {
      var n := |events| - 1;
      assert events[..n][..k] == events[..k];
      ListensUntilReturn(mode, l, events[..n], k);
      AlwaysInv(mode, l, events[..n]);
      StepKeepsRouting(mode, After(mode, l, events[..n]), events[n]);
    }
  }

  /** Routing kept up: in every run of the loop the listeners start at most once, and the rules once
      up stay up unless the loop panics with the rules up and nobody having cancelled; exactly then
      the teardown runs the disable script. */
  lemma RoutingKeptUp(mode: Receive, l: Loop, events: seq<Event>, k: nat)
    requires Fresh(l) && k <= |events|
    ensures After(mode, l, events).starts <= 1
    ensures After(mode, l, events).disables == if PanicFree(mode, l, events, 0) then 0 else 1
    ensures After(mode, l, events[..k]).iptablesUp
            ==> (After(mode, l, events).iptablesUp <==> PanicFree(mode, l, events, k))
    ensures After(mode, l, events[..k]).listening ==>
              After(mode, l, events).at.Returned? || After(mode, l, events).listening
  {
    AlwaysInv(mode, l, events);
    DisablesOncePanicked(mode, l, events);
    if After(mode, l, events[..k]).iptablesUp {
      EarlierIsPrefix(mode, l, events, k);
      UpUntilPanic(mode, l, events, k);
    }
    if After(mode, l, events[..k]).listening {
      ListensUntilReturn(mode, l, events, k);
    }
  }

  /** Status coherence at the two select statements of the loop. */
  lemma StatusCoherent(mode: Receive, l: Loop, events: seq<Event>)
    requires Fresh(l)
    requires !After(mode, l, events).cancelled
    requires After(mode, l, events).at.Delaying? || After(mode, l, events).at.Waiting?
    ensures var r := After(mode, l, events);
      && (r.status.connected <==> r.status.authenticated)
      && (r.status.connected <==> r.status.ready)
      && (r.status.connected <==> r.status.healthy == 1)
      && (r.status.connected <==> r.ptr.Some?)
      && (r.status.connected ==>
            r.status.state.Connected? && r.at == Waiting(r.ptr.value) && r.ptr.value + 1 == r.created)
      && (r.status.connected <==> r.at.Waiting?)
  {
    AlwaysInv(mode, l, events);
  }

  // ---------------------------------------------------------------------------
  // The two receives.

  /** In every run of the loop as written, at its second receive the slot is empty and its only
      sender is done. */
  lemma SecondReceiveIsEmpty(l: Loop, events: seq<Event>)
    requires Fresh(l) && After(Literal, l, events).at.Receiving?
    ensures !After(Literal, l, events).full && After(Literal, l, events).sender.Done?
  {
    AlwaysInv(Literal, l, events);
  }

  /** So it parks there: whatever happens next, short of a panic, it stays, a cancelled context
      included, and the status goes on showing CONNECTED. */
  lemma {:induction false} LiteralLoopParks(l: Loop, before: seq<Event>, later: seq<Event>)
    requires Fresh(l) && After(Literal, l, before).at.Receiving? && Panic !in later
    ensures var was, r := After(Literal, l, before), After(Literal, l, before + later);
      r.at == was.at && r.status == was.status && r.created == was.created && r.delay == was.delay && AllUp(r.status)
  {
    AlwaysInv(Literal, l, before);
    if later == [] {
      assert before + later == before;
    } else {
      var front := later[..|later| - 1];
      LiteralLoopParks(l, before, front);
      SecondReceiveIsEmpty(l, before + front);
      assert (before + later)[..|before + later| - 1] == before + front;
    }
  }

  /** So the literal loop never sees a second client. */
  lemma {:induction false} LiteralLoopConnectsOnce(l: Loop, events: seq<Event>)
    requires Fresh(l)
    ensures var r := After(Literal, l, events);
      r.created <= 1 && (r.created == 1 ==> Current(r.at).Some? || r.at.Leaving? || r.at.Returned?)
  {
    if events != [] {
      var before := events[..|events| - 1];
      LiteralLoopConnectsOnce(l, before);
      AlwaysInv(Literal, l, before);
      AlwaysInv(Literal, l, events);
      ClientChanges(Literal, After(Literal, l, before), events[|events| - 1]);
      if After(Literal, l, before).created == 1 {
        OnceIsKept(After(Literal, l, before), events[|events| - 1]);
      }
    }
  }

  lemma OnceIsKept(l: Loop, e: Event)
    requires Inv(Literal, l) && (Current(l.at).Some? || l.at.Leaving? || l.at.Returned?)
    ensures var r := Step(Literal, l, e);
      r.created == l.created && (Current(r.at).Some? || r.at.Leaving? || r.at.Returned?)
  {
    ClientChanges(Literal, l, e);
    if Current(l.at).None? {
      EndingIsKept(Literal, l, e);
    } else if GivesUp(l, e) {
      EndsThere(l, e);
    }
  }

  lemma EndingIsKept(mode: Receive, l: Loop, e: Event)
    requires l.at.Leaving? || l.at.Returned?
    ensures Step(mode, l, e).at.Leaving? || Step(mode, l, e).at.Returned?
  {
  }

  lemma EndsThere(l: Loop, e: Event)
    requires GivesUp(l, e) && !l.at.Closing?
    ensures Ends(l, e).at.Leaving? || Ends(l, e).at.Returned?
  {
  }

  lemma AfterTwo(mode: Receive, l: Loop, before: seq<Event>, a: Event, b: Event)
    ensures After(mode, l, before + [a, b]) == Step(mode, Step(mode, After(mode, l, before), a), b)
  {
    OneByOne(before, a, b);
    AfterNext(mode, l, before, a);
    AfterNext(mode, l, before + [a], b);
  }

  lemma OneByOne(before: seq<Event>, a: Event, b: Event)
    ensures before + [a, b] == (before + [a]) + [b]
  {
  }

  lemma AfterNext(mode: Receive, l: Loop, before: seq<Event>, e: Event)
    ensures After(mode, l, before + [e]) == Step(mode, After(mode, l, before), e)
  {
    var events := before + [e];
    assert events[..|events| - 1] == before && events[|events| - 1] == e;
  }

  /** With the single receive a value that has been sent is taken; the loop closes its client, */
  lemma TakesAndCloses(l: Loop)
    requires l.at.Waiting? && l.full
    ensures var r := Step(Intended, Step(Intended, l, TakeDone), CloseLost); r.at.Clearing? && r.created == l.created
  {
  }

  /** clears and reports it, */
  lemma ClearsAndReports(l: Loop)
    requires l.at.Clearing?
    ensures var r := Step(Intended, Step(Intended, l, ClearLost), ReportLost);
      r.at.Delaying? && r.ptr.None? && AllDown(r.status) && r.created == l.created
  {
  }

  /** goes on to the next attempt, */
  lemma AttemptsAgain(l: Loop)
    requires l.at.Delaying?
    ensures var r := Step(Intended, Step(Intended, l, DelayOver), Route(true));
      r.at.Attempting? && r.created == l.created
  {
  }

  /** authenticates and publishes the next client, */
  lemma PublishesNext(l: Loop)
    requires l.at.Attempting?
    ensures var r := Step(Intended, Step(Intended, l, AuthResult(true)), Publish);
      r.at == Announcing(l.created) && r.ptr == Some(l.created) && r.created == l.created + 1
  {
  }

  /** and waits for it. */
  lemma WaitsAgain(l: Loop)
    requires l.at.Announcing?
    ensures var r := Step(Intended, Step(Intended, l, Announce), BringUp(true, true));
      r.at == Waiting(l.at.c) && r.ptr == l.ptr && AllUp(r.status) && r.created == l.created
  {
  }

  const GIVE_UP: seq<Event> := [TakeDone, CloseLost] + [ClearLost, ReportLost]
  const CONNECT: seq<Event> := [DelayOver, Route(true)] + [AuthResult(true), Publish] + [Announce, BringUp(true, true)]

  lemma GivesUpAndReports(l: Loop, before: seq<Event>)
    requires After(Intended, l, before).at.Waiting? && After(Intended, l, before).full
    ensures var s, r := After(Intended, l, before), After(Intended, l, before + GIVE_UP);
      r.at.Delaying? && r.ptr.None? && AllDown(r.status) && r.created == s.created
  {
    var a := before + [TakeDone, CloseLost];
    AfterTwo(Intended, l, before, TakeDone, CloseLost);
    TakesAndCloses(After(Intended, l, before));
    AfterTwo(Intended, l, a, ClearLost, ReportLost);
    ClearsAndReports(After(Intended, l, a));
    Regroup(before, [TakeDone, CloseLost], [ClearLost, ReportLost]);
  }

  lemma Connects(l: Loop, before: seq<Event>)
    requires After(Intended, l, before).at.Delaying?
    ensures var s, r := After(Intended, l, before), After(Intended, l, before + CONNECT);
      r.at == Waiting(s.created) && r.ptr == Some(s.created) && AllUp(r.status) && r.created == s.created + 1
  {
    var a := before + [DelayOver, Route(true)];
    var b := a + [AuthResult(true), Publish];
    AfterTwo(Intended, l, before, DelayOver, Route(true));
    AttemptsAgain(After(Intended, l, before));
    AfterTwo(Intended, l, a, AuthResult(true), Publish);
    PublishesNext(After(Intended, l, a));
    AfterTwo(Intended, l, b, Announce, BringUp(true, true));
    WaitsAgain(After(Intended, l, b));
    Regroup(before, [DelayOver, Route(true)], [AuthResult(true), Publish]);
    Regroup(before, [DelayOver, Route(true)] + [AuthResult(true), Publish], [Announce, BringUp(true, true)]);
  }

  /** Unlike the literal loop, which connects once, the intended one gives a client up whenever its end was sent
      and can go on to wait for the next, in every run. */
  lemma IntendedLoopReconnects(l: Loop, before: seq<Event>)
    requires After(Intended, l, before).at.Waiting? && After(Intended, l, before).full
    ensures var s, r := After(Intended, l, before), After(Intended, l, before + GIVE_UP + CONNECT);
      r.at == Waiting(s.created) && r.ptr == Some(s.created) && AllUp(r.status) && r.created == s.created + 1
  {
    GivesUpAndReports(l, before);
    Connects(l, before + GIVE_UP);
  }

  // ---------------------------------------------------------------------------
  // The same loop as the source runs it: local variables and shared fields updated in place.

  class Manager {
    const mode: Receive
    var at: At
    var cancelled: bool
    var delay: nat
    var listening: bool
    var iptablesUp: bool
    var ptr: Option<nat>
    var status: Status
    var sender: Sender
    var full: bool
    var created: nat
    ghost var starts: nat
    ghost var disables: nat

    ghost function View(): Loop
      reads this
    {
      Loop(at, cancelled, delay, listening, iptablesUp, ptr, status, sender, full, created, starts, disables)
    }

    constructor (mode: Receive, status: Status)
      ensures this.mode == mode && View()
              == Loop(Delaying, false, 0, false, false, None, status, NoSender, false, 0, 0, 0)
    {
      this.mode, this.status := mode, status;
      at, cancelled, delay, listening, iptablesUp, ptr, created := Delaying, false, 0, false, false, None, 0;
      sender, full := NoSender, false;
      starts, disables := 0, 0;
    }

    method Disconnected(shown: Label)
      modifies this`status
      ensures status == Down(old(status), shown)
    {
      status := status.(state := shown);
      status := status.(connected := false, authenticated := false, ready := false);
      status := status.(healthy := 0);
    }

    method RunTeardown()
      modifies this
      ensures View() == Teardown(old(View()))
    {
      at := Returned;
      if listening {
        listening := false;
      }
      if cancelled {
        ptr := None;
        return;
      }
      if iptablesUp {
        disables := disables + 1;
        iptablesUp := false;
      }
      ptr := None;
    }

    method ConnectFailed()
      modifies this
      ensures View() == old(View()).(at := Delaying, status := Down(old(status), RetryBackoff),
                                     delay := Backoff.NextDelay(old(delay), Backoff.BASE_DELAY, Backoff.MAX_DELAY))
    {
      Disconnected(RetryBackoff);
      delay := Backoff.NextDelay(delay, Backoff.BASE_DELAY, Backoff.MAX_DELAY);
      at := Delaying;
    }

    /** The one-time bring-up, then a new channel with its sender. */
    method BringUpOnce(c: nat, transparent: bool, scriptOk: bool)
      modifies this
      ensures old(listening) ==> View() == old(View()).(at := Waiting(c), sender := Blocked, full := false)
      ensures !old(listening) ==>
                View() == old(View()).(at := Waiting(c), sender := Blocked, full := false, listening := true,
                                       starts := old(starts) + 1,
                                       iptablesUp := old(iptablesUp) || (transparent && scriptOk))
    {
      if !listening {
        listening := true;
        starts := starts + 1;
        if transparent {
          if scriptOk {
            iptablesUp := true;
          }
        }
      }
      sender, full := Blocked, false;
      at := Waiting(c);
    }

    method Connect(e: Event)
      modifies this
      ensures View() == Connecting(old(View()), e)
    {
      match e {
        case DelayOver => if at.Delaying? { at := Deciding; }
        case Route(online) =>
          if at.Deciding? && !online {
            Disconnected(PausedNoNetwork);
            delay, at := 5, Delaying;
          } else if at.Deciding? {
            status := status.(state := ConnectingSsh);
            at := Attempting;
          }
        case AuthResult(ok) =>
          if at.Attempting? && !ok {
            ConnectFailed();
          } else if at.Attempting? {
            delay := Backoff.BASE_DELAY;
            at, created := Publishing(created), created + 1;
          }
        case Publish => if at.Publishing? { ptr, at := Some(at.c), Announcing(at.c); }
        case Announce =>
          if at.Announcing? {
            status, at := Status(Connected, true, true, true, 1, 0, 0), BringingUp(at.c);
          }
        case BringUp(transparent, scriptOk) =>
          if at.BringingUp? {
            BringUpOnce(at.c, transparent, scriptOk);
          }
        case _ =>
      }
    }

    /** A receive from the channel, in the select or after it. */
    method Take()
      modifies `full, `at
      ensures View() == Waits(mode, old(View()), TakeDone)
    {
      if full && at.Waiting? {
        full := false;
        at := if mode.Literal? then Receiving(at.c) else Closing(at.c);
      } else if full && at.Receiving? {
        full := false;
        at := Closing(at.c);
      }
    }

    method ShowLost()
      modifies `status, `delay, `at
      ensures View() == Waits(mode, old(View()), ReportLost)
    {
      if at.Reporting? {
        Disconnected(Reconnecting);
        status := status.(reconnecting := 1, streams := 0);
        delay, at := Backoff.BASE_DELAY, Delaying;
      }
    }

    method Wait(e: Event)
      modifies this
      ensures View() == Waits(mode, old(View()), e)
    {
      match e {
        case HealthTick(streams) => if at.Waiting? { status := status.(streams := streams); }
        case SenderSends => if sender.Blocked? { sender, full := Done, true; }
        case TakeDone => Take();
        case CloseLost => if at.Closing? { at := Clearing; }
        case ClearLost => if at.Clearing? { ptr, at := None, Reporting; }
        case ReportLost => ShowLost();
        case _ =>
      }
    }

    method End(e: Event)
      modifies this
      ensures View() == Ends(old(View()), e)
    {
      match e {
        case Cancel => cancelled := true;
        case StopClears => if cancelled { ptr := None; }
        case SeeCancel =>
          if cancelled && at.Delaying? {
            RunTeardown();
          } else if cancelled && at.Waiting? {
            at := Leaving;
          }
        case Leave =>
          if at.Leaving? {
            ptr := None;
            RunTeardown();
          }
        case Panic => if !at.Returned? { RunTeardown(); }
        case _ =>
      }
    }

    method TakeEvent(e: Event)
      modifies this
      ensures View() == Step(mode, old(View()), e)
    {
      if IsConnecting(e) {
        Connect(e);
      } else if IsEnding(e) {
        End(e);
      } else {
        Wait(e);
      }
    }

    /** The whole run. */
    method Run(events: seq<Event>)
      modifies this
      ensures View() == After(mode, old(View()), events)
    {
      var i := 0;
      while i < |events|
        invariant 0 <= i <= |events|
        invariant View() == After(mode, old(View()), events[..i])
      {
        TakeEvent(events[i]);
        i := i + 1;
        assert events[..i][..i - 1] == events[..i - 1];
      }
      assert events[..i] == events;
    }
  }
}
