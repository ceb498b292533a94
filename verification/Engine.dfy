/** The tunnel loop together with everything that runs beside it: one keepalive goroutine per
    client and any number of stream handlers, in every interleaving. */
module Engine {
  import opened Seqs
  import opened TunClient
  import TunnelLoop

  datatype Keeper = Probing | Killing | Stopped

  /** `ended` says that the peer or the network has ended the transport. `misses`, `ownDeath` and
      `loopClosed` record history: the outcomes of the keepalive probes (true for a miss), a
      transport-death error on a dial of this client, and the loop's own Close. */
  datatype Client = Client(
    dead: bool,
    closed: bool,
    ended: bool,
    active: int,
    keeper: Keeper,
    missed: nat,
    misses: seq<bool>,
    ownDeath: bool,
    loopClosed: bool)

  const NEW_CLIENT := Client(false, false, false, 0, Probing, 0, [], false, false)

  /** Program points of handleSOCKSClient and handleTransparentClient, with dialStreamWithRetry inlined. */
  datatype Handler =
    | Starting
    | Loaded(cl: nat)                 // curClient() was not nil; IsDead comes next
    | Dialing(cl: nat)
    | MarkingFirst(cl: nat)           // transport death on the first dial
    | Reloading(cl: nat)              // retryable error; curClient() comes next
    | Reloaded(cl: nat, ncl: nat)
    | Redialing(cl: nat, ncl: nat)
    | MarkingSecond(cl: nat, ncl: nat)
    | MarkingCaller(cl: nat)          // the handler's own check of the returned error
    | Dialed(via: nat)                // the client that carries the stream; curClient() comes next
    | Piping(via: nat, counted: nat)  // and the client that add() was called on
    | Finished

  datatype System = System(loop: TunnelLoop.Loop, clients: seq<Client>, handlers: map<nat, Handler>)

  datatype Event =
    | LoopEvent(e: TunnelLoop.Event)
    | Accept(h: nat)
    | LoadPointer(h: nat)
    | CheckDead(h: nat)
    | DialReturns(h: nat, d: Dial)
    | MarkDead(h: nat)
    | PipeEnds(h: nat)
    | ProbeReturns(c: nat, miss: bool)
    | KeeperKills(c: nat)
    | KeeperStops(c: nat)
    | TransportEnds(c: nat)

  function Mark(c: Client): Client { c.(dead := true, closed := true) }

  predicate LoopCloses(s: System, e: TunnelLoop.Event)
  {
    (e.CloseLost? && s.loop.at.Closing?) || (e.SeeCancel? && s.loop.cancelled && s.loop.at.Waiting?)
  }

  /** The clients as a loop step leaves them: one more after a successful authentication, and
      closed by the loop when it gives its client up. */
  function LoopClients(s: System, e: TunnelLoop.Event): seq<Client>
  {
    if e == TunnelLoop.AuthResult(true) && s.loop.at.Attempting? then s.clients + [NEW_CLIENT]
    else if LoopCloses(s, e) && s.loop.at.c < |s.clients| then
      s.clients[s.loop.at.c := s.clients[s.loop.at.c].(closed := true, loopClosed := true)]
    else s.clients
  }

  function LoadedPointer(s: System, at: Handler): Handler
  {
    match at
    case Starting => if s.loop.ptr.Some? then Loaded(s.loop.ptr.value) else Finished
    case Reloading(cl) => if s.loop.ptr.Some? then Reloaded(cl, s.loop.ptr.value) else Finished
    case Dialed(via) => if s.loop.ptr.Some? then Piping(via, s.loop.ptr.value) else Finished
    case _ => at
  }

  function Dialled(at: Handler, d: Dial): Handler
  {
    match (at, d)
    case (Dialing(cl), Succeeds) => Dialed(cl)
    case (Dialing(cl), TransportDeath) => MarkingFirst(cl)
    case (Dialing(cl), Retryable) => Reloading(cl)
    case (Dialing(cl), Refused) => Finished
    case (Redialing(cl, ncl), Succeeds) => Dialed(ncl)
    case (Redialing(cl, ncl), TransportDeath) => MarkingSecond(cl, ncl)
    case (Redialing(cl, ncl), _) => Finished
    case _ => at
  }

  predicate Has(s: System, c: nat) { c < |s.clients| }

  function Touch(s: System, c: nat, client: Client): System
    requires Has(s, c)
  {
    s.(clients := s.clients[c := client])
  }

  function Move(s: System, h: nat, at: Handler): System
  {
    s.(handlers := s.handlers[h := at])
  }

  /** The client a pending MarkDead is about, and where the handler stands after it. */
  function MarkTarget(at: Handler): Option<(nat, Handler)>
  {
    match at
    case MarkingFirst(cl) => Some((cl, MarkingCaller(cl)))
    case MarkingSecond(cl, ncl) => Some((ncl, MarkingCaller(cl)))
    case MarkingCaller(cl) => Some((cl, Finished))
    case _ => None
  }

  /** Where handler h goes on event e. */
  function NextPoint(s: System, h: nat, e: Event): Handler
    requires h in s.handlers
  {
    var at := s.handlers[h];
    match e
    case LoadPointer(_) => LoadedPointer(s, at)
    case CheckDead(_) =>
      if at.Loaded? && Has(s, at.cl) then (if s.clients[at.cl].dead then Finished else Dialing(at.cl))
      else if at.Reloaded? && Has(s, at.ncl) then
        (if s.clients[at.ncl].dead then Finished else Redialing(at.cl, at.ncl))
      else at
    case DialReturns(_, d) => Dialled(at, d)
    case MarkDead(_) => if MarkTarget(at).Some? then MarkTarget(at).value.1 else at
    case PipeEnds(_) => if at.Piping? then Finished else at
    case _ => at
  }

  /** The client that this changes, with its new value. */
  function Touched(s: System, h: nat, e: Event): (r: Option<(nat, Client)>)
    requires h in s.handlers
    ensures r.Some? ==> Has(s, r.value.0)
  {
    var at := s.handlers[h];
    match e
    case LoadPointer(_) =>
      var to := LoadedPointer(s, at);
      if at.Dialed? && to.Piping? && Has(s, to.counted) then
        Some((to.counted, s.clients[to.counted].(active := s.clients[to.counted].active + 1)))
      else None
    case DialReturns(_, TransportDeath) =>
      if at.Dialing? && Has(s, at.cl) then Some((at.cl, s.clients[at.cl].(ownDeath := true)))
      else if at.Redialing? && Has(s, at.ncl) then Some((at.ncl, s.clients[at.ncl].(ownDeath := true)))
      else None
    case MarkDead(_) =>
      if MarkTarget(at).Some? && Has(s, MarkTarget(at).value.0) then
        Some((MarkTarget(at).value.0, Mark(s.clients[MarkTarget(at).value.0])))
      else None
    case PipeEnds(_) =>
      if at.Piping? && Has(s, at.counted) then
        Some((at.counted, s.clients[at.counted].(active := s.clients[at.counted].active - 1)))
      else None
    case _ => None
  }

  function HandlerStep(s: System, h: nat, e: Event): System
    requires h in s.handlers
  {
    var moved := Move(s, h, NextPoint(s, h, e));
    var t := Touched(s, h, e);
    if t.Some? then Touch(moved, t.value.0, t.value.1) else moved
  }

  function KeeperStep(s: System, c: nat, e: Event): System
    requires Has(s, c)
  {
    var cl := s.clients[c];
    match e
    case ProbeReturns(_, miss) =>
      if !cl.keeper.Probing? then s
      else if !miss then Touch(s, c, cl.(missed := 0, misses := cl.misses + [false]))
      else if cl.missed + 1 >= 2 then
        Touch(s, c, cl.(missed := cl.missed + 1, misses := cl.misses + [true], keeper := Killing))
      else Touch(s, c, cl.(missed := cl.missed + 1, misses := cl.misses + [true]))
    case KeeperKills(_) => if cl.keeper.Killing? then Touch(s, c, Mark(cl).(keeper := Stopped)) else s
    case KeeperStops(_) =>
      if cl.keeper.Probing? && (cl.closed || s.loop.cancelled) then Touch(s, c, cl.(keeper := Stopped)) else s
    case _ => s
  }

  /** Wait of the last client returns once that client is closed or its transport has ended. */
  predicate WaitReturns(s: System)
  {
    s.clients != [] && (s.clients[|s.clients| - 1].closed || s.clients[|s.clients| - 1].ended)
  }

  /** The one loop event that needs more than the loop: its sender has nothing to send before. */
  predicate Enabled(s: System, e: TunnelLoop.Event) { e.SenderSends? ==> WaitReturns(s) }

  function LoopStep(mode: TunnelLoop.Receive, s: System, e: TunnelLoop.Event): System
  {
    s.(loop := TunnelLoop.Step(mode, s.loop, e), clients := LoopClients(s, e))
  }

  function Step(mode: TunnelLoop.Receive, s: System, e: Event): System
  {
    match e
    case LoopEvent(le) => if Enabled(s, le) then LoopStep(mode, s, le) else s
    case TransportEnds(c) => if Has(s, c) then Touch(s, c, s.clients[c].(ended := true)) else s
    case Accept(h) => if h in s.handlers then s else Move(s, h, Starting)
    case ProbeReturns(c, _) => if Has(s, c) then KeeperStep(s, c, e) else s
    case KeeperKills(c) => if Has(s, c) then KeeperStep(s, c, e) else s
    case KeeperStops(c) => if Has(s, c) then KeeperStep(s, c, e) else s
    case _ => if e.h in s.handlers then HandlerStep(s, e.h, e) else s
  }

  function After(mode: TunnelLoop.Receive, l: TunnelLoop.Loop, events: seq<Event>): System
  {
    if events == [] then System(l, [], map[])
    else Step(mode, After(mode, l, events[..|events| - 1]), events[|events| - 1])
  }

  // ---------------------------------------------------------------------------
  // Why a client may be marked dead.

  ghost predicate TwoMisses(misses: seq<bool>)
  {
    exists i :: 0 <= i < |misses| - 1 && misses[i] && misses[i + 1]
  }

  ghost predicate Justified(c: Client)
  {
    TwoMisses(c.misses) || c.ownDeath || c.loopClosed
  }

  ghost predicate ClientOk(c: Client)
  {
    && (c.dead ==> Justified(c) && c.closed)
    && (c.loopClosed ==> c.closed)
    && (c.closed ==> c.dead || c.loopClosed)
    && (c.keeper.Probing? ==> c.missed <= 1 && (c.missed == 1 <==> |c.misses| > 0 && c.misses[|c.misses| - 1]))
    && (c.keeper.Killing? ==> TwoMisses(c.misses))
  }

  /** An older client than n is one the loop has closed. */
  ghost predicate Superseded(s: System, c: nat, n: nat)
  {
    c < |s.clients| && n < |s.clients| && (c == n || s.clients[c].loopClosed)
  }

  ghost predicate HandlerOk(s: System, at: Handler)
  {
    match at
    case Loaded(cl) => Has(s, cl)
    case Dialing(cl) => Has(s, cl)
    case MarkingFirst(cl) => Has(s, cl) && s.clients[cl].ownDeath
    case Reloading(cl) => Has(s, cl)
    case Reloaded(cl, ncl) => Superseded(s, cl, ncl)
    case Redialing(cl, ncl) => Superseded(s, cl, ncl)
    case MarkingSecond(cl, ncl) => Superseded(s, cl, ncl) && s.clients[ncl].ownDeath
    case MarkingCaller(cl) => Has(s, cl) && Justified(s.clients[cl])
    case Dialed(via) => Has(s, via)
    case Piping(via, counted) => via <= counted && Has(s, counted)
    case _ => true
  }

  /** The handlers that client c counts, and those whose stream it carries. */
  function Counted(handlers: map<nat, Handler>, c: nat): set<nat>
  {
    set h | h in handlers && handlers[h].Piping? && handlers[h].counted == c
  }

  function Carried(handlers: map<nat, Handler>, c: nat): set<nat>
  {
    set h | h in handlers && handlers[h].Piping? && handlers[h].via == c
  }

  /** History only grows: what justified a death goes on justifying it. */
  ghost predicate GrowsInto(c: Client, d: Client)
  {
    && (c.loopClosed ==> d.loopClosed)
    && (c.ownDeath ==> d.ownDeath)
    && (TwoMisses(c.misses) ==> TwoMisses(d.misses))
    && (c.dead ==> d.dead)
    && (c.closed ==> d.closed)
    && (c.ended ==> d.ended)
  }

  ghost predicate Grows(was: seq<Client>, now: seq<Client>)
  {
    |was| <= |now| && forall c | 0 <= c < |was| :: GrowsInto(was[c], now[c])
  }

  ghost predicate ClientsOk(s: System)
  {
    && (forall c | 0 <= c < |s.clients| :: ClientOk(s.clients[c]))
    && (forall c | 0 <= c < |s.clients| - 1 :: s.clients[c].loopClosed)
    && (|s.clients| > 0 && !s.loop.at.Returned? ==>
          (TunnelLoop.Current(s.loop.at).None? <==> s.clients[|s.clients| - 1].loopClosed))
  }

  ghost predicate HandlersOk(s: System)
  {
    forall h | h in s.handlers :: HandlerOk(s, s.handlers[h])
  }

  ghost predicate CountsOk(s: System)
  {
    forall c | 0 <= c < |s.clients| :: s.clients[c].active == |Counted(s.handlers, c)|
  }

  ghost predicate Inv(mode: TunnelLoop.Receive, s: System)
  {
    && TunnelLoop.Inv(mode, s.loop)
    && |s.clients| == s.loop.created
    && ClientsOk(s) && HandlersOk(s) && CountsOk(s) && SentOk(s)
  }

  /** A value on waitDone was sent because Wait had returned. */
  ghost predicate SentOk(s: System)
  {
    AfterSending(s.loop) ==> WaitReturns(s)
  }

  lemma MissesAppend(misses: seq<bool>, m: bool)
    ensures TwoMisses(misses) ==> TwoMisses(misses + [m])
    ensures |misses| > 0 && misses[|misses| - 1] && m ==> TwoMisses(misses + [m])
  {
    var r := misses + [m];
    if TwoMisses(misses) {
      var i :| 0 <= i < |misses| - 1 && misses[i] && misses[i + 1];
      assert r[i] && r[i + 1];
    }
    if |misses| > 0 && misses[|misses| - 1] && m {
      assert r[|misses| - 1] && r[|misses| - 1 + 1];
    }
  }

  lemma PointStaysOk(s: System, s': System, at: Handler)
    requires HandlerOk(s, at) && Grows(s.clients, s'.clients)
    ensures HandlerOk(s', at)
  {
    assert forall c | 0 <= c < |s.clients| :: GrowsInto(s.clients[c], s'.clients[c]);
  }

  lemma HandlersStayOk(s: System, s': System, h: nat)
    requires h in s.handlers && HandlerOk(s, s.handlers[h]) && Grows(s.clients, s'.clients)
    ensures HandlerOk(s', s.handlers[h])
  {
    PointStaysOk(s, s', s.handlers[h]);
  }

  lemma AllHandlersStayOk(s: System, s': System)
    requires HandlersOk(s) && s'.handlers == s.handlers && Grows(s.clients, s'.clients)
    ensures HandlersOk(s')
  {
    forall h | h in s'.handlers
      ensures HandlerOk(s', s'.handlers[h])
    {
      HandlersStayOk(s, s', h);
    }
  }

  predicate Counts(at: Handler, c: nat) { at.Piping? && at.counted == c }

  lemma CountedMove(handlers: map<nat, Handler>, h: nat, to: Handler, c: nat)
    ensures |Counted(handlers[h := to], c)|
            == |Counted(handlers, c)| + (if Counts(to, c) then 1 else 0)
               - (if h in handlers && Counts(handlers[h], c) then 1 else 0)
  {
    var now := Counted(handlers[h := to], c);
    if Counts(to, c) {
      assert now == Counted(handlers, c) + {h};
    } else {
      assert now == Counted(handlers, c) - {h};
    }
  }

  lemma NewClientKeepsClients(s: System)
    requires ClientsOk(s) && TunnelLoop.Current(s.loop.at).None? && !s.loop.at.Returned?
    ensures var now := s.clients + [NEW_CLIENT];
      && (forall k | 0 <= k < |now| :: ClientOk(now[k]) && (k < |s.clients| ==> now[k].loopClosed))
      && Grows(s.clients, now)
  {
    assert ClientOk(NEW_CLIENT);
  }

  lemma CreatingKeepsClients(mode: TunnelLoop.Receive, s: System, e: TunnelLoop.Event)
    requires Inv(mode, s) && TunnelLoop.Creates(s.loop, e)
    ensures var s' := LoopStep(mode, s, e);
      |s'.clients| == s'.loop.created && ClientsOk(s') && Grows(s.clients, s'.clients)
  {
    TunnelLoop.ClientChanges(mode, s.loop, e);
    NewClientKeepsClients(s);
  }

  lemma ClosingKeepsClients(mode: TunnelLoop.Receive, s: System, e: TunnelLoop.Event)
    requires Inv(mode, s) && LoopCloses(s, e)
    ensures var s' := LoopStep(mode, s, e);
      |s'.clients| == s'.loop.created && ClientsOk(s') && Grows(s.clients, s'.clients)
  {
    TunnelLoop.ClientChanges(mode, s.loop, e);
    var c := s.loop.at.c;
    assert ClientOk(s.clients[c]);
    LoopClosesKeepsClients(s, c, s.clients[c].(closed := true, loopClosed := true));
  }

  lemma QuietStepKeepsClients(mode: TunnelLoop.Receive, s: System, e: TunnelLoop.Event)
    requires Inv(mode, s) && !TunnelLoop.Creates(s.loop, e) && !LoopCloses(s, e)
    ensures var s' := LoopStep(mode, s, e);
      |s'.clients| == s'.loop.created && ClientsOk(s') && Grows(s.clients, s'.clients)
  {
    TunnelLoop.ClientChanges(mode, s.loop, e);
    if s.loop.at.Returned? {
      ReturnedStays(mode, s.loop, e);
    }
    assert LoopClients(s, e) == s.clients;
  }

  lemma LoopStepKeepsClients(mode: TunnelLoop.Receive, s: System, e: TunnelLoop.Event)
    requires Inv(mode, s)
    ensures var s' := LoopStep(mode, s, e);
      |s'.clients| == s'.loop.created && ClientsOk(s') && Grows(s.clients, s'.clients)
  {
    if TunnelLoop.Creates(s.loop, e) {
      CreatingKeepsClients(mode, s, e);
    } else if LoopCloses(s, e) {
      ClosingKeepsClients(mode, s, e);
    } else {
      QuietStepKeepsClients(mode, s, e);
    }
  }

  lemma ReturnedStays(mode: TunnelLoop.Receive, l: TunnelLoop.Loop, e: TunnelLoop.Event)
    requires l.at.Returned?
    ensures TunnelLoop.Step(mode, l, e).at.Returned?
  {
  }

  lemma LoopClosesKeepsClients(s: System, c: nat, d: Client)
    requires ClientsOk(s) && Has(s, c) && c == |s.clients| - 1
    requires ClientOk(d) && GrowsInto(s.clients[c], d) && d.loopClosed
    ensures var now := s.clients[c := d]; forall k | 0 <= k < |now| :: ClientOk(now[k]) && (k < c ==> now[k].loopClosed)
    ensures Grows(s.clients, s.clients[c := d])
  {
  }

  lemma NobodyCountsAhead(s: System)
    requires HandlersOk(s)
    ensures Counted(s.handlers, |s.clients|) == {}
  {
    assert forall h | h in s.handlers :: HandlerOk(s, s.handlers[h]);
  }

  predicate AfterSending(l: TunnelLoop.Loop)
  {
    l.sender.Done? && (l.at.Waiting? || l.at.Receiving? || l.at.Closing?)
  }

  lemma ConnectingSendsNothing(l: TunnelLoop.Loop, e: TunnelLoop.Event)
    ensures AfterSending(TunnelLoop.Connecting(l, e)) ==> AfterSending(l)
  {
  }

  lemma EndsSendsNothing(l: TunnelLoop.Loop, e: TunnelLoop.Event)
    ensures AfterSending(TunnelLoop.Ends(l, e)) ==> AfterSending(l)
  {
  }

  lemma WaitsSend(mode: TunnelLoop.Receive, l: TunnelLoop.Loop, e: TunnelLoop.Event)
    ensures AfterSending(TunnelLoop.Waits(mode, l, e)) ==> AfterSending(l) || e.SenderSends?
  {
  }

  lemma SentWhileWaiting(mode: TunnelLoop.Receive, l: TunnelLoop.Loop, e: TunnelLoop.Event)
    ensures AfterSending(TunnelLoop.Step(mode, l, e)) ==> AfterSending(l) || e.SenderSends?
  {
    ConnectingSendsNothing(l, e);
    EndsSendsNothing(l, e);
    WaitsSend(mode, l, e);
  }

  lemma LoopStepKeepsSent(mode: TunnelLoop.Receive, s: System, e: TunnelLoop.Event)
    requires Inv(mode, s) && Enabled(s, e)
    ensures SentOk(LoopStep(mode, s, e))
  {
    var s' := LoopStep(mode, s, e);
    SentWhileWaiting(mode, s.loop, e);
    TunnelLoop.ClientChanges(mode, s.loop, e);
    if AfterSending(s'.loop) {
      assert WaitReturns(s);
      assert |s'.clients| == |s.clients|;
    }
  }

  lemma LoopStepKeepsCounts(mode: TunnelLoop.Receive, s: System, e: TunnelLoop.Event)
    requires HandlersOk(s) && CountsOk(s)
    ensures CountsOk(LoopStep(mode, s, e))
  {
    NobodyCountsAhead(s);
  }

  lemma LoopStepKeepsInv(mode: TunnelLoop.Receive, s: System, e: TunnelLoop.Event)
    requires Inv(mode, s) && Enabled(s, e)
    ensures Inv(mode, LoopStep(mode, s, e)) && Grows(s.clients, LoopStep(mode, s, e).clients)
  {
    var s' := LoopStep(mode, s, e);
    LoopStepKeepsClients(mode, s, e);
    LoopStepKeepsSent(mode, s, e);
    LoopStepKeepsCounts(mode, s, e);
    TunnelLoop.StepKeepsInv(mode, s.loop, e);
    AllHandlersStayOk(s, s');
  }

  /** Changing one client to a grown, coherent one. */
  lemma TouchKeepsClients(s: System, c: nat, d: Client)
    requires ClientsOk(s) && Has(s, c) && ClientOk(d) && GrowsInto(s.clients[c], d)
            && d.loopClosed == s.clients[c].loopClosed
    ensures ClientsOk(Touch(s, c, d)) && Grows(s.clients, Touch(s, c, d).clients)
  {
  }

  lemma KeeperStepKeepsClient(s: System, c: nat, e: Event)
    requires Has(s, c) && ClientOk(s.clients[c])
    ensures KeeperStep(s, c, e) == s
            || (KeeperStep(s, c, e).clients[..] == s.clients[c := KeeperStep(s, c, e).clients[c]]
                && KeeperStep(s, c, e) == Touch(s, c, KeeperStep(s, c, e).clients[c]))
    ensures ClientOk(KeeperStep(s, c, e).clients[c]) && GrowsInto(s.clients[c], KeeperStep(s, c, e).clients[c])
    ensures KeeperStep(s, c, e).clients[c].active == s.clients[c].active
  {
    if e.ProbeReturns? {
      MissesAppend(s.clients[c].misses, e.miss);
    }
  }

  lemma KeeperStepKeepsInv(mode: TunnelLoop.Receive, s: System, c: nat, e: Event)
    requires Inv(mode, s) && Has(s, c)
    ensures Inv(mode, KeeperStep(s, c, e))
    ensures Grows(s.clients, KeeperStep(s, c, e).clients)
  {
    var s' := KeeperStep(s, c, e);
    assert ClientOk(s.clients[c]);
    KeeperStepKeepsClient(s, c, e);
    TouchKeepsClients(s, c, s'.clients[c]);
    AllHandlersStayOk(s, s');
  }

  lemma TransportEndKeepsInv(mode: TunnelLoop.Receive, s: System, c: nat)
    requires Inv(mode, s) && Has(s, c)
    ensures var s' := Touch(s, c, s.clients[c].(ended := true)); Inv(mode, s') && Grows(s.clients, s'.clients)
  {
    var s' := Touch(s, c, s.clients[c].(ended := true));
    assert ClientOk(s.clients[c]);
    TouchKeepsClients(s, c, s.clients[c].(ended := true));
    AllHandlersStayOk(s, s');
  }

  lemma TouchedIsOk(s: System, h: nat, e: Event)
    requires ClientsOk(s) && h in s.handlers && HandlerOk(s, s.handlers[h]) && Touched(s, h, e).Some?
    ensures var (c, d) := Touched(s, h, e).value;
            ClientOk(d) && GrowsInto(s.clients[c], d) && d.loopClosed == s.clients[c].loopClosed
  {
    assert ClientOk(s.clients[Touched(s, h, e).value.0]);
  }

  lemma LoadedIsOk(mode: TunnelLoop.Receive, s: System, h: nat)
    requires Inv(mode, s) && h in s.handlers && HandlerOk(s, s.handlers[h])
    ensures HandlerOk(s, LoadedPointer(s, s.handlers[h]))
  {
  }

  lemma DialledIsOk(s: System, h: nat, e: Event)
    requires h in s.handlers && HandlerOk(s, s.handlers[h]) && e.DialReturns?
    ensures HandlerOk(HandlerStep(s, h, e), NextPoint(s, h, e))
  {
  }

  lemma MarkedIsOk(s: System, h: nat, e: Event)
    requires ClientsOk(s) && h in s.handlers && HandlerOk(s, s.handlers[h]) && e.MarkDead?
    ensures HandlerOk(HandlerStep(s, h, e), NextPoint(s, h, e))
  {
  }

  lemma OtherPointIsOk(s: System, h: nat, e: Event)
    requires h in s.handlers && HandlerOk(s, s.handlers[h]) && !e.LoadPointer? && !e.DialReturns? && !e.MarkDead?
    ensures HandlerOk(s, NextPoint(s, h, e))
  {
  }

  /** The point that handler h reaches is justified by the clients after its step. */
  lemma NextPointIsOk(mode: TunnelLoop.Receive, s: System, h: nat, e: Event)
    requires Inv(mode, s) && h in s.handlers && HandlerOk(s, s.handlers[h])
    requires Grows(s.clients, HandlerStep(s, h, e).clients)
    ensures HandlerOk(HandlerStep(s, h, e), NextPoint(s, h, e))
  {
    if e.DialReturns? {
      DialledIsOk(s, h, e);
    } else if e.MarkDead? {
      MarkedIsOk(s, h, e);
    } else {
      if e.LoadPointer? {
        LoadedIsOk(mode, s, h);
      } else {
        OtherPointIsOk(s, h, e);
      }
      PointStaysOk(s, HandlerStep(s, h, e), NextPoint(s, h, e));
    }
  }

  lemma HandlerStepKeepsInv(mode: TunnelLoop.Receive, s: System, h: nat, e: Event)
    requires Inv(mode, s) && h in s.handlers
    ensures Inv(mode, HandlerStep(s, h, e))
    ensures Grows(s.clients, HandlerStep(s, h, e).clients)
  {
    var s' := HandlerStep(s, h, e);
    var moved := Move(s, h, NextPoint(s, h, e));
    assert HandlerOk(s, s.handlers[h]);
    if Touched(s, h, e).Some? {
      TouchedIsOk(s, h, e);
      TouchKeepsClients(moved, Touched(s, h, e).value.0, Touched(s, h, e).value.1);
    }
    NextPointIsOk(mode, s, h, e);
    forall k | k in s'.handlers
      ensures HandlerOk(s', s'.handlers[k])
    {
      if k != h {
        HandlersStayOk(s, s', k);
      }
    }
    HandlerStepKeepsCounts(s, h, e);
  }

  lemma HandlerStepKeepsCounts(s: System, h: nat, e: Event)
    requires CountsOk(s) && h in s.handlers && HandlerOk(s, s.handlers[h])
    requires s.loop.ptr.Some? ==> Has(s, s.loop.ptr.value)
    ensures CountsOk(HandlerStep(s, h, e))
  {
    var s' := HandlerStep(s, h, e);
    forall c | 0 <= c < |s'.clients|
      ensures s'.clients[c].active == |Counted(s'.handlers, c)|
    {
      CountedMove(s.handlers, h, NextPoint(s, h, e), c);
      assert s'.handlers == s.handlers[h := NextPoint(s, h, e)];
    }
  }

  lemma AcceptKeepsInv(mode: TunnelLoop.Receive, s: System, h: nat)
    requires Inv(mode, s) && h !in s.handlers
    ensures Inv(mode, Move(s, h, Starting))
  {
    var s' := Move(s, h, Starting);
    forall c | 0 <= c < |s.clients|
      ensures s'.clients[c].active == |Counted(s'.handlers, c)|
    {
      CountedMove(s.handlers, h, Starting, c);
    }
  }

  lemma StepKeepsInv(mode: TunnelLoop.Receive, s: System, e: Event)
    requires Inv(mode, s)
    ensures Inv(mode, Step(mode, s, e))
    ensures Grows(s.clients, Step(mode, s, e).clients)
  {
    match e {
      case LoopEvent(le) => if Enabled(s, le) { LoopStepKeepsInv(mode, s, le); }
      case TransportEnds(c) => if Has(s, c) { TransportEndKeepsInv(mode, s, c); }
      case Accept(h) => if h !in s.handlers { AcceptKeepsInv(mode, s, h); }
      case ProbeReturns(c, _) => if Has(s, c) { KeeperStepKeepsInv(mode, s, c, e); }
      case KeeperKills(c) => if Has(s, c) { KeeperStepKeepsInv(mode, s, c, e); }
      case KeeperStops(c) => if Has(s, c) { KeeperStepKeepsInv(mode, s, c, e); }
      case _ => if e.h in s.handlers { HandlerStepKeepsInv(mode, s, e.h, e); }
    }
  }

  lemma {:induction false} AlwaysInv(mode: TunnelLoop.Receive, l: TunnelLoop.Loop, events: seq<Event>)
    requires TunnelLoop.Fresh(l)
    ensures Inv(mode, After(mode, l, events))
  {
    if events != [] {
      AlwaysInv(mode, l, events[..|events| - 1]);
      StepKeepsInv(mode, After(mode, l, events[..|events| - 1]), events[|events| - 1]);
    }
  }

  /** The step that marks a client dead finds it justified already: two consecutive keepalive
      misses, a transport death on one of its own dials, or closed by the loop before. */
  lemma DeadMarkingIsJustified(mode: TunnelLoop.Receive, l: TunnelLoop.Loop, events: seq<Event>, e: Event, c: nat)
    requires TunnelLoop.Fresh(l)
    requires Has(After(mode, l, events), c) && !After(mode, l, events).clients[c].dead
    ensures var s, s' := After(mode, l, events), After(mode, l, events + [e]);
      Has(s', c) && (s'.clients[c].dead ==> Justified(s.clients[c]))
  {
    var s := After(mode, l, events);
    AlwaysInv(mode, l, events);
    assert (events + [e])[..|events|] == events;
    JustifiedStep(mode, s, e, c);
  }

  lemma JustifiedHandlerStep(s: System, h: nat, e: Event, c: nat)
    requires h in s.handlers && HandlerOk(s, s.handlers[h]) && Has(s, c) && !s.clients[c].dead
    ensures Has(HandlerStep(s, h, e), c) && (HandlerStep(s, h, e).clients[c].dead ==> Justified(s.clients[c]))
  {
  }

  lemma JustifiedKeeperStep(s: System, k: nat, e: Event, c: nat)
    requires Has(s, k) && ClientOk(s.clients[k]) && Has(s, c) && !s.clients[c].dead
    ensures Has(KeeperStep(s, k, e), c) && (KeeperStep(s, k, e).clients[c].dead ==> Justified(s.clients[c]))
  {
  }

  lemma JustifiedStep(mode: TunnelLoop.Receive, s: System, e: Event, c: nat)
    requires Inv(mode, s) && Has(s, c) && !s.clients[c].dead
    ensures Has(Step(mode, s, e), c) && (Step(mode, s, e).clients[c].dead ==> Justified(s.clients[c]))
  {
    match e {
      case LoopEvent(le) =>
        assert |LoopClients(s, le)| >= |s.clients| && !LoopClients(s, le)[c].dead;
      case Accept(h) =>
      case TransportEnds(k) =>
      case ProbeReturns(k, _) => if Has(s, k) { JustifiedKeeperStep(s, k, e, c); }
      case KeeperKills(k) => if Has(s, k) { JustifiedKeeperStep(s, k, e, c); }
      case KeeperStops(k) => if Has(s, k) { JustifiedKeeperStep(s, k, e, c); }
      case _ => if e.h in s.handlers { JustifiedHandlerStep(s, e.h, e, c); }
    }
  }

  /** Dead never reverts. */
  lemma {:induction false} DeadIsForever(mode: TunnelLoop.Receive, l: TunnelLoop.Loop, events: seq<Event>,
                                         k: nat, c: nat)
    requires TunnelLoop.Fresh(l) && k <= |events|
    requires Has(After(mode, l, events[..k]), c) && After(mode, l, events[..k]).clients[c].dead
    ensures Has(After(mode, l, events), c) && After(mode, l, events).clients[c].dead
    decreases |events|
  {
    if k == |events| {
      assert events[..k] == events;
    } else {
      var before := events[..|events| - 1];
      assert before[..k] == events[..k];
      DeadIsForever(mode, l, before, k, c);
      AlwaysInv(mode, l, before);
      StepKeepsInv(mode, After(mode, l, before), events[|events| - 1]);
    }
  }

  // ---------------------------------------------------------------------------
  // The in-flight counters.

  /** Every client counts the handlers whose reload found it, in every interleaving. */
  lemma CounterCountsReloads(mode: TunnelLoop.Receive, l: TunnelLoop.Loop, events: seq<Event>, c: nat)
    requires TunnelLoop.Fresh(l) && Has(After(mode, l, events), c)
    ensures After(mode, l, events).clients[c].active == |Counted(After(mode, l, events).handlers, c)|
  {
    AlwaysInv(mode, l, events);
  }

  /** Every counter tells how many streams its client carries. */
  ghost predicate CountersTrue(s: System)
  {
    forall c | 0 <= c < |s.clients| :: s.clients[c].active == |Carried(s.handlers, c)|
  }

  /** Every handler's reload found the client that it had dialled through. */
  ghost predicate ReloadsAgree(s: System)
  {
    forall h | h in s.handlers && s.handlers[h].Piping? :: s.handlers[h].via == s.handlers[h].counted
  }

  lemma SmallerSet(a: set<nat>, b: set<nat>, x: nat)
    requires a <= b && x in b - a
    ensures |a| < |b|
  {
    assert b == a + (b - a);
    assert |b - a| >= 1 by {
      assert b - a == {x} + (b - a - {x});
    }
  }

  /** Below the first client through which a disagreeing handler dialled, all handlers agree; so that
      client carries more than it counts. */
  lemma {:induction false} DisagreementShows(s: System, h: nat)
    requires HandlersOk(s) && h in s.handlers && s.handlers[h].Piping? && s.handlers[h].via < s.handlers[h].counted
    ensures exists c :: 0 <= c < |s.clients| && |Counted(s.handlers, c)| < |Carried(s.handlers, c)|
    decreases s.handlers[h].via
  {
    var c := s.handlers[h].via;
    assert HandlerOk(s, s.handlers[h]);
    if g :| g in s.handlers && s.handlers[g].Piping? && s.handlers[g].via < c && s.handlers[g].counted == c {
      DisagreementShows(s, g);
    } else {
      forall g | g in Counted(s.handlers, c)
        ensures g in Carried(s.handlers, c)
      {
        assert HandlerOk(s, s.handlers[g]);
      }
      SmallerSet(Counted(s.handlers, c), Carried(s.handlers, c), h);
    }
  }

  /** In every interleaving: the counters tell the streams carried if and only if no handler reloaded
      another client than the one it had dialled through. */
  lemma CountersTrueIffReloadsAgree(mode: TunnelLoop.Receive, l: TunnelLoop.Loop, events: seq<Event>)
    requires TunnelLoop.Fresh(l)
    ensures CountersTrue(After(mode, l, events)) <==> ReloadsAgree(After(mode, l, events))
  {
    var s := After(mode, l, events);
    AlwaysInv(mode, l, events);
    if ReloadsAgree(s) {
      forall c | 0 <= c < |s.clients|
        ensures Counted(s.handlers, c) == Carried(s.handlers, c)
      {
      }
    } else {
      var h :| h in s.handlers && s.handlers[h].Piping? && s.handlers[h].via != s.handlers[h].counted;
      assert HandlerOk(s, s.handlers[h]);
      DisagreementShows(s, h);
    }
  }

  lemma Extend(mode: TunnelLoop.Receive, l: TunnelLoop.Loop, events: seq<Event>, e: Event)
    ensures After(mode, l, events + [e]) == Step(mode, After(mode, l, events), e)
  {
    assert (events + [e])[..|events|] == events;
  }

  lemma Attempts(mode: TunnelLoop.Receive, l: TunnelLoop.Loop, events: seq<Event>) returns (more: seq<Event>)
    requires After(mode, l, events).loop.at.Delaying?
    ensures var s, r := After(mode, l, events), After(mode, l, more);
      r.loop.at.Attempting? && r.loop.created == s.loop.created && r.clients == s.clients && r.handlers == s.handlers
  {
    var a := events + [LoopEvent(TunnelLoop.DelayOver)];
    more := a + [LoopEvent(TunnelLoop.Route(true))];
    Extend(mode, l, events, LoopEvent(TunnelLoop.DelayOver));
    Extend(mode, l, a, LoopEvent(TunnelLoop.Route(true)));
  }

  lemma AuthStep(mode: TunnelLoop.Receive, s: System)
    requires s.loop.at.Attempting?
    ensures var r := Step(mode, s, LoopEvent(TunnelLoop.AuthResult(true)));
      && r.loop.at == TunnelLoop.Publishing(s.loop.created) && r.loop.created == s.loop.created + 1
      && r.clients == s.clients + [NEW_CLIENT] && r.handlers == s.handlers
  {
  }

  lemma PublishStep(mode: TunnelLoop.Receive, s: System)
    requires s.loop.at.Publishing?
    ensures var r := Step(mode, s, LoopEvent(TunnelLoop.Publish));
      && r.loop.at == TunnelLoop.Announcing(s.loop.at.c) && r.loop.ptr == Some(s.loop.at.c)
      && r.loop.created == s.loop.created && r.clients == s.clients && r.handlers == s.handlers
  {
  }

  /** From its delay the loop can connect and publish the next client. */
  lemma Connects(mode: TunnelLoop.Receive, l: TunnelLoop.Loop, events: seq<Event>) returns (more: seq<Event>)
    requires After(mode, l, events).loop.at.Delaying?
    ensures var s, r := After(mode, l, events), After(mode, l, more);
      && r.loop.at == TunnelLoop.Announcing(s.loop.created) && r.loop.ptr == Some(s.loop.created)
      && r.loop.created == s.loop.created + 1 && r.clients == s.clients + [NEW_CLIENT] && r.handlers == s.handlers
  {
    var a := Attempts(mode, l, events);
    var b := a + [LoopEvent(TunnelLoop.AuthResult(true))];
    more := b + [LoopEvent(TunnelLoop.Publish)];
    Extend(mode, l, a, LoopEvent(TunnelLoop.AuthResult(true)));
    AuthStep(mode, After(mode, l, a));
    Extend(mode, l, b, LoopEvent(TunnelLoop.Publish));
    PublishStep(mode, After(mode, l, b));
  }

  /** A handler that finds the client alive can dial a stream through it. */
  lemma Dials(mode: TunnelLoop.Receive, l: TunnelLoop.Loop, events: seq<Event>, h: nat) returns (more: seq<Event>)
    requires var s := After(mode, l, events);
      h !in s.handlers && s.loop.ptr.Some? && Has(s, s.loop.ptr.value) && !s.clients[s.loop.ptr.value].dead
    ensures var s, r := After(mode, l, events), After(mode, l, more);
      r == s.(handlers := s.handlers[h := Dialed(s.loop.ptr.value)])
  {
    var s := After(mode, l, events);
    var a := events + [Accept(h)];
    var b := a + [LoadPointer(h)];
    var c := b + [CheckDead(h)];
    more := c + [DialReturns(h, Succeeds)];
    Extend(mode, l, events, Accept(h));
    Extend(mode, l, a, LoadPointer(h));
    Extend(mode, l, b, CheckDead(h));
    Extend(mode, l, c, DialReturns(h, Succeeds));
    var p := s.loop.ptr.value;
    assert s.handlers[h := Starting][h := Loaded(p)][h := Dialing(p)][h := Dialed(p)] == s.handlers[h := Dialed(p)];
  }

  lemma AnnounceStep(mode: TunnelLoop.Receive, s: System)
    requires s.loop.at.Announcing?
    ensures var r := Step(mode, s, LoopEvent(TunnelLoop.Announce));
      && r.loop.at == TunnelLoop.BringingUp(s.loop.at.c) && r.loop.created == s.loop.created
      && r.clients == s.clients && r.handlers == s.handlers
  {
  }

  lemma BringUpStep(mode: TunnelLoop.Receive, s: System, transparent: bool, scriptOk: bool)
    requires s.loop.at.BringingUp?
    ensures var r := Step(mode, s, LoopEvent(TunnelLoop.BringUp(transparent, scriptOk)));
      && r.loop.at == TunnelLoop.Waiting(s.loop.at.c) && r.loop.sender.Blocked? && r.loop.created == s.loop.created
      && r.clients == s.clients && r.handlers == s.handlers
  {
  }

  lemma ComesUp(mode: TunnelLoop.Receive, l: TunnelLoop.Loop, events: seq<Event>, c: nat) returns (more: seq<Event>)
    requires After(mode, l, events).loop.at == TunnelLoop.Announcing(c)
    ensures var s, r := After(mode, l, events), After(mode, l, more);
      && r.loop.at == TunnelLoop.Waiting(c) && r.loop.sender.Blocked? && r.loop.created == s.loop.created
      && r.clients == s.clients && r.handlers == s.handlers
  {
    var s := After(mode, l, events);
    var announced := events + [LoopEvent(TunnelLoop.Announce)];
    AnnounceStep(mode, s);
    Extend(mode, l, events, LoopEvent(TunnelLoop.Announce));
    BringUpStep(mode, After(mode, l, announced), true, true);
    more := announced + [LoopEvent(TunnelLoop.BringUp(true, true))];
    Extend(mode, l, announced, LoopEvent(TunnelLoop.BringUp(true, true)));
  }

  /** A client whose transport ends is given up, and the loop is back at its delay. */
  lemma Loses(l: TunnelLoop.Loop, events: seq<Event>, c: nat) returns (more: seq<Event>)
    requires var s := After(TunnelLoop.Intended, l, events);
      s.loop.at == TunnelLoop.Announcing(c) && |s.clients| == c + 1
    ensures var s, r := After(TunnelLoop.Intended, l, events), After(TunnelLoop.Intended, l, more);
      && r.loop.at.Delaying? && r.loop.created == s.loop.created && r.handlers == s.handlers
      && r.clients == s.clients[c := s.clients[c].(ended := true, closed := true, loopClosed := true)]
  {
    var mode := TunnelLoop.Intended;
    var a := ComesUp(mode, l, events, c);
    var b := a + [TransportEnds(c)];
    var d := b + [LoopEvent(TunnelLoop.SenderSends)];
    Extend(mode, l, a, TransportEnds(c));
    Extend(mode, l, b, LoopEvent(TunnelLoop.SenderSends));
    more := LetsGo(l, d, c);
  }

  lemma TakeStep(s: System)
    requires s.loop.at.Waiting? && s.loop.full
    ensures var r := Step(TunnelLoop.Intended, s, LoopEvent(TunnelLoop.TakeDone));
      && r.loop.at == TunnelLoop.Closing(s.loop.at.c) && r.loop.created == s.loop.created
      && r.clients == s.clients && r.handlers == s.handlers
  {
  }

  lemma CloseStep(s: System)
    requires s.loop.at.Closing? && Has(s, s.loop.at.c)
    ensures var r := Step(TunnelLoop.Intended, s, LoopEvent(TunnelLoop.CloseLost)); var c := s.loop.at.c;
      && r.loop.at.Clearing? && r.loop.created == s.loop.created && r.handlers == s.handlers
      && r.clients == s.clients[c := s.clients[c].(closed := true, loopClosed := true)]
  {
  }

  lemma ClearSteps(s: System)
    requires s.loop.at.Clearing?
    ensures var cleared := Step(TunnelLoop.Intended, s, LoopEvent(TunnelLoop.ClearLost));
      var r := Step(TunnelLoop.Intended, cleared, LoopEvent(TunnelLoop.ReportLost));
      r.loop.at.Delaying? && r.loop.created == s.loop.created && r.clients == s.clients && r.handlers == s.handlers
  {
  }

  lemma LetsGo(l: TunnelLoop.Loop, events: seq<Event>, c: nat) returns (more: seq<Event>)
    requires var s := After(TunnelLoop.Intended, l, events);
      s.loop.at == TunnelLoop.Waiting(c) && s.loop.full && |s.clients| == c + 1
    ensures var s, r := After(TunnelLoop.Intended, l, events), After(TunnelLoop.Intended, l, more);
      && r.loop.at.Delaying? && r.loop.created == s.loop.created && r.handlers == s.handlers
      && r.clients == s.clients[c := s.clients[c].(closed := true, loopClosed := true)]
  {
    var mode := TunnelLoop.Intended;
    var a := events + [LoopEvent(TunnelLoop.TakeDone)];
    var b := a + [LoopEvent(TunnelLoop.CloseLost)];
    var d := b + [LoopEvent(TunnelLoop.ClearLost)];
    more := d + [LoopEvent(TunnelLoop.ReportLost)];
    Extend(mode, l, events, LoopEvent(TunnelLoop.TakeDone));
    TakeStep(After(mode, l, events));
    Extend(mode, l, a, LoopEvent(TunnelLoop.CloseLost));
    CloseStep(After(mode, l, a));
    Extend(mode, l, b, LoopEvent(TunnelLoop.ClearLost));
    Extend(mode, l, d, LoopEvent(TunnelLoop.ReportLost));
    ClearSteps(After(mode, l, b));
  }

  /** The counters can be wrong: a stream dialled through client 0 is counted by client 1 when the
      loop reconnects between the dial and the reload. */
  lemma CounterCanMissItsStream(l: TunnelLoop.Loop)
    requires TunnelLoop.Fresh(l)
    ensures exists events :: var s := After(TunnelLoop.Intended, l, events);
      && |s.clients| == 2 && s.handlers == map[7 := Piping(0, 1)]
      && s.clients[0].active == 0 && s.clients[1].active == 1
  {
    var mode := TunnelLoop.Intended;
    var connected := Connects(mode, l, []);
    var dialled := Dials(mode, l, connected, 7);
    var lost := Loses(l, dialled, 0);
    var again := Connects(mode, l, lost);
    Extend(mode, l, again, LoadPointer(7));
    ReloadStep(mode, After(mode, l, again), 7);
    var s := After(mode, l, again + [LoadPointer(7)]);
    assert s.handlers == map[7 := Piping(0, 1)];
  }

  lemma ReloadStep(mode: TunnelLoop.Receive, s: System, h: nat)
    requires h in s.handlers && s.handlers[h].Dialed? && s.loop.ptr.Some? && Has(s, s.loop.ptr.value)
    ensures var r := Step(mode, s, LoadPointer(h)); var c := s.loop.ptr.value;
      && r.handlers == s.handlers[h := Piping(s.handlers[h].via, c)]
      && r.clients == s.clients[c := s.clients[c].(active := s.clients[c].active + 1)]
  {
  }

  // ---------------------------------------------------------------------------
  // How handlers and keepers reach the loop: MarkDead closes the SSH client, and then Wait returns.

  /** Why the loop may give up its client c. */
  ghost predicate LostForACause(s: System, c: nat)
  {
    && Has(s, c)
    && (s.clients[c].ended || (s.clients[c].dead && (TwoMisses(s.clients[c].misses) || s.clients[c].ownDeath)))
  }

  lemma ClosingHasACause(mode: TunnelLoop.Receive, s: System)
    requires Inv(mode, s) && s.loop.at.Closing?
    ensures LostForACause(s, s.loop.at.c)
  {
    assert ClientOk(s.clients[s.loop.at.c]);
  }

  lemma GivingUpIsALoopStep(mode: TunnelLoop.Receive, s: System, e: Event)
    requires TunnelLoop.Current(s.loop.at).Some? && TunnelLoop.Current(Step(mode, s, e).loop.at).None?
    ensures e.LoopEvent? && TunnelLoop.GivesUp(s.loop, e.e)
  {
    if e.LoopEvent? {
      TunnelLoop.ClientChanges(mode, s.loop, e.e);
    }
  }

  lemma MarkStep(mode: TunnelLoop.Receive, s: System, h: nat, c: nat)
    requires h in s.handlers && Has(s, c)
    requires MarkTarget(s.handlers[h]).Some? && MarkTarget(s.handlers[h]).value.0 == c
    ensures Step(mode, s, MarkDead(h)).clients == s.clients[c := s.clients[c].(dead := true, closed := true)]
  {
  }

  /** In every run a handler that has met a transport death marks the client that it dialled, and then, as the caller
      does, the client that it started with; marking one closes it and touches no other. */
  lemma HandlersMark(mode: TunnelLoop.Receive, l: TunnelLoop.Loop, events: seq<Event>, h: nat, c: nat)
    requires TunnelLoop.Fresh(l) && h in After(mode, l, events).handlers
    requires var at := After(mode, l, events).handlers[h];
      at == MarkingFirst(c) || at == MarkingCaller(c) || (at.MarkingSecond? && at.ncl == c)
    ensures var s := After(mode, l, events);
      && Has(s, c)
      && After(mode, l, events + [MarkDead(h)]).clients
         == s.clients[c := s.clients[c].(dead := true, closed := true)]
  {
    var s := After(mode, l, events);
    AlwaysInv(mode, l, events);
    assert HandlerOk(s, s.handlers[h]);
    Extend(mode, l, events, MarkDead(h));
    MarkStep(mode, s, h, c);
  }

  lemma KillStep(mode: TunnelLoop.Receive, s: System, c: nat)
    requires Has(s, c)
    ensures var cl := s.clients[c];
      Step(mode, s, KeeperKills(c)).clients
      == if cl.keeper.Killing? then s.clients[c := cl.(dead := true, closed := true, keeper := Stopped)] else s.clients
    ensures Step(mode, s, KeeperKills(c)).loop == s.loop
  {
  }

  lemma StopStep(mode: TunnelLoop.Receive, s: System, c: nat)
    requires Has(s, c)
    ensures var cl := s.clients[c];
      Step(mode, s, KeeperStops(c)).clients
      == if cl.keeper.Probing? && (cl.closed || s.loop.cancelled) then s.clients[c := cl.(keeper := Stopped)]
         else s.clients
  {
  }

  /** In every run a keeper that has counted its misses kills its client and ends, and any other one ends, leaving the
      client as it is, exactly if the client is closed or the loop is cancelled. */
  lemma KeepersEnd(mode: TunnelLoop.Receive, l: TunnelLoop.Loop, events: seq<Event>, c: nat)
    requires Has(After(mode, l, events), c)
    ensures var s, r := After(mode, l, events), After(mode, l, (events + [KeeperKills(c)]) + [KeeperStops(c)]);
      var cl := s.clients[c];
      r.clients
      == if cl.keeper.Killing? then s.clients[c := cl.(dead := true, closed := true, keeper := Stopped)]
         else if cl.closed || s.loop.cancelled then s.clients[c := cl.(keeper := Stopped)]
         else s.clients
  {
    var s := After(mode, l, events);
    Extend(mode, l, events, KeeperKills(c));
    Extend(mode, l, events + [KeeperKills(c)], KeeperStops(c));
    KillStep(mode, s, c);
    StopStep(mode, Step(mode, s, KeeperKills(c)), c);
    assert s.clients[c := s.clients[c]] == s.clients;
  }

  lemma CancelStep(mode: TunnelLoop.Receive, s: System)
    requires s.loop.cancelled && s.loop.at.Waiting? && Has(s, s.loop.at.c)
    ensures var c := s.loop.at.c; var r := Step(mode, s, LoopEvent(TunnelLoop.SeeCancel));
      && r.clients == s.clients[c := s.clients[c].(closed := true, loopClosed := true)]
      && r.loop.at.Leaving?
  {
  }

  lemma LeaveStep(mode: TunnelLoop.Receive, s: System)
    requires s.loop.at.Leaving?
    ensures var r := Step(mode, s, LoopEvent(TunnelLoop.Leave));
      r.clients == s.clients && r.loop.at.Returned? && r.loop.ptr.None?
  {
  }

  /** A loop that is cancelled while it waits closes its client, clears the pointer and returns. */
  lemma CancelClosesTheClient(mode: TunnelLoop.Receive, l: TunnelLoop.Loop, events: seq<Event>, c: nat)
    requires TunnelLoop.Fresh(l)
    requires After(mode, l, events).loop.at == TunnelLoop.Waiting(c) && After(mode, l, events).loop.cancelled
    ensures var r := After(mode, l, (events + [LoopEvent(TunnelLoop.SeeCancel)]) + [LoopEvent(TunnelLoop.Leave)]);
      Has(r, c) && r.clients[c].closed && r.loop.at.Returned? && r.loop.ptr.None?
  {
    AlwaysInv(mode, l, events);
    Extend(mode, l, events, LoopEvent(TunnelLoop.SeeCancel));
    CancelStep(mode, After(mode, l, events));
    var closed := After(mode, l, events + [LoopEvent(TunnelLoop.SeeCancel)]);
    Extend(mode, l, events + [LoopEvent(TunnelLoop.SeeCancel)], LoopEvent(TunnelLoop.Leave));
    LeaveStep(mode, closed);
  }

  /** The loop gives a client up only after a cancellation, a panic, the end of its transport, or a
      keeper's or handler's MarkDead, itself justified by two misses or a transport death. */
  lemma GivenUpForACause(mode: TunnelLoop.Receive, l: TunnelLoop.Loop, events: seq<Event>, e: Event, c: nat)
    requires TunnelLoop.Fresh(l)
    requires TunnelLoop.Current(After(mode, l, events).loop.at) == Some(c)
    requires TunnelLoop.Current(After(mode, l, events + [e]).loop.at).None?
    ensures var s := After(mode, l, events);
      s.loop.cancelled || e == LoopEvent(TunnelLoop.Panic) || LostForACause(s, c)
  {
    var s := After(mode, l, events);
    AlwaysInv(mode, l, events);
    Extend(mode, l, events, e);
    GivingUpIsALoopStep(mode, s, e);
    if s.loop.at.Closing? {
      ClosingHasACause(mode, s);
    }
  }

  lemma SendingStep(mode: TunnelLoop.Receive, s: System)
    requires Inv(mode, s) && s.loop.at.Waiting? && !s.loop.full
    ensures Has(s, s.loop.at.c)
    ensures var c := s.clients[s.loop.at.c];
      Step(mode, s, LoopEvent(TunnelLoop.SenderSends))
      == if c.closed || c.ended then s.(loop := s.loop.(sender := TunnelLoop.Done, full := true)) else s
  {
  }

  lemma NoticingSteps(mode: TunnelLoop.Receive, s: System)
    requires Inv(mode, s) && s.loop.at.Waiting? && !s.loop.full
    ensures Has(s, s.loop.at.c)
    ensures var c := s.clients[s.loop.at.c]; var sent := Step(mode, s, LoopEvent(TunnelLoop.SenderSends));
      && Step(mode, sent, LoopEvent(TunnelLoop.TakeDone)).loop.at
         == if !c.closed && !c.ended then s.loop.at
            else if mode.Literal? then TunnelLoop.Receiving(s.loop.at.c)
            else TunnelLoop.Closing(s.loop.at.c)
  {
    SendingStep(mode, s);
  }

  /** In every run: a waiting loop can be taken out of its wait, by its sender and one receive, exactly when its
      client was closed or its transport has ended; so the death of the current client is noticed. Then it goes to
      closing the client, or as written to the second receive. */
  lemma DeathIsNoticed(mode: TunnelLoop.Receive, l: TunnelLoop.Loop, events: seq<Event>, c: nat)
    requires TunnelLoop.Fresh(l)
    requires After(mode, l, events).loop.at == TunnelLoop.Waiting(c) && !After(mode, l, events).loop.full
    ensures Has(After(mode, l, events), c)
    ensures var cl := After(mode, l, events).clients[c];
      && (cl.dead ==> cl.closed)
      && After(mode, l, events + [LoopEvent(TunnelLoop.SenderSends)] + [LoopEvent(TunnelLoop.TakeDone)]).loop.at
         == if !cl.closed && !cl.ended then TunnelLoop.Waiting(c)
            else if mode.Literal? then TunnelLoop.Receiving(c)
            else TunnelLoop.Closing(c)
  {
    AlwaysInv(mode, l, events);
    NoticingSteps(mode, After(mode, l, events));
    assert ClientOk(After(mode, l, events).clients[c]);
    Extend(mode, l, events, LoopEvent(TunnelLoop.SenderSends));
    Extend(mode, l, events + [LoopEvent(TunnelLoop.SenderSends)], LoopEvent(TunnelLoop.TakeDone));
  }

  /** Apart from that the loop is the machine of TunnelLoop, run on the loop events that were enabled. */
  lemma {:induction false} LoopRunsTheMachine(mode: TunnelLoop.Receive, l: TunnelLoop.Loop, events: seq<Event>)
    ensures After(mode, l, events).loop == TunnelLoop.After(mode, l, LoopEvents(mode, l, events))
  {
    if events != [] {
      var before, e := events[..|events| - 1], events[|events| - 1];
      LoopRunsTheMachine(mode, l, before);
      var les := LoopEvents(mode, l, before);
      if e.LoopEvent? && Enabled(After(mode, l, before), e.e) {
        assert (les + [e.e])[..|les|] == les;
      }
    }
  }

  function LoopEvents(mode: TunnelLoop.Receive, l: TunnelLoop.Loop, events: seq<Event>): seq<TunnelLoop.Event>
  {
    if events == [] then []
    else
      var before, e := events[..|events| - 1], events[|events| - 1];
      var les := LoopEvents(mode, l, before);
      if e.LoopEvent? && Enabled(After(mode, l, before), e.e) then les + [e.e] else les
  }
}
