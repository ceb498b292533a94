/** The persistent UDPGW channel: a lock-protected connection, its reader and a retry throttle.
    Every method but Run is one critical section of the lock, so every interleaving of the callers,
    the readers and Close is a sequence of these steps. */
module UdpgwTunnel {
  import opened Seqs

  const RETRY_AFTER: nat := 30_000_000_000   // nanoseconds

  datatype Attempt = Attempt(start: nat, failed: bool)

  /** `readers` are the unfinished read loops; `attempts` is the history of dials that got as far
      as opening a channel. */
  datatype Tunnel = Tunnel(
    conn: Option<nat>,
    dead: bool,
    failedOnce: bool,
    lastDialTry: nat,
    closed: bool,
    now: nat,
    created: nat,
    readers: set<nat>,
    attempts: seq<Attempt>)

  const FRESH := Tunnel(None, false, false, 0, false, 0, 0, {}, [])

  datatype Event =
    | Tick(d: nat)
    | Dial(client: bool, ok: bool, took: nat)   // client: an SSH client that is not dead is current
    | ReaderEnds(id: nat)
    | Close

  predicate Throttled(t: Tunnel) { t.failedOnce && t.now - t.lastDialTry < RETRY_AFTER }

  function Step(t: Tunnel, e: Event): Tunnel
  {
    match e
    case Tick(d) => t.(now := t.now + d)
    case Dial(client, ok, took) =>
      if (t.conn.Some? && !t.dead) || Throttled(t) || !client then t
      else if ok && !t.closed then
        t.(lastDialTry := t.now, now := t.now + took, conn := Some(t.created), dead := false, failedOnce := false,
           created := t.created + 1, readers := t.readers + {t.created},
           attempts := t.attempts + [Attempt(t.now, false)])
      else
        t.(lastDialTry := t.now, now := t.now + took, failedOnce := true,
           attempts := t.attempts + [Attempt(t.now, true)])
    case ReaderEnds(id) =>
      if id in t.readers then t.(conn := None, dead := true, readers := t.readers - {id}) else t
    case Close => t.(closed := true, conn := None)
  }

  function After(events: seq<Event>): Tunnel
  {
    if events == [] then FRESH else Step(After(events[..|events| - 1]), events[|events| - 1])
  }

  ghost predicate Spaced(attempts: seq<Attempt>)
  {
    forall i | 0 <= i < |attempts| - 1 :: attempts[i].failed
        ==> attempts[i + 1].start >= attempts[i].start + RETRY_AFTER
  }

  ghost predicate Inv(t: Tunnel)
  {
    && (t.dead ==> t.conn.None?)
    && (t.closed ==> t.conn.None?)
    && |t.readers| <= 1
    && (forall id | id in t.readers :: id < t.created)
    && (t.conn.Some? ==> t.readers == {t.conn.value})
    && (t.conn.None? && !t.closed ==> t.readers == {})
    && Spaced(t.attempts)
    && (t.attempts != [] ==>
          var last := t.attempts[|t.attempts| - 1];
          last.start == t.lastDialTry && last.start <= t.now && last.failed == t.failedOnce)
    && (t.attempts == [] ==> !t.failedOnce)
  }

  lemma DialKeepsInv(t: Tunnel, e: Event)
    requires Inv(t) && e.Dial?
    ensures Inv(Step(t, e))
  {
    var u := Step(t, e);
    if u.attempts != t.attempts {
      assert u.attempts == t.attempts + [Attempt(t.now, u.failedOnce)];
      if u.conn.Some? {
        assert u.readers == {t.created};
      }
    }
  }

  lemma ReaderEndKeepsInv(t: Tunnel, e: Event)
    requires Inv(t) && e.ReaderEnds?
    ensures Inv(Step(t, e))
  {
    if e.id in t.readers {
      assert |t.readers - {e.id}| == |t.readers| - 1;
      assert t.readers - {e.id} == {};
    }
  }

  lemma StepKeepsInv(t: Tunnel, e: Event)
    requires Inv(t)
    ensures Inv(Step(t, e))
  {
    if e.Dial? {
      DialKeepsInv(t, e);
    } else if e.ReaderEnds? {
      ReaderEndKeepsInv(t, e);
    }
  }

  lemma {:induction false} AlwaysInv(events: seq<Event>)
    ensures Inv(After(events))
  {
    if events != [] {
      AlwaysInv(events[..|events| - 1]);
      StepKeepsInv(After(events[..|events| - 1]), events[|events| - 1]);
    }
  }

  /** One reader per connection: until Close, a connection is held exactly when one read loop is
      unfinished, it is that connection's, and a dead tunnel holds none; after Close the last
      reader may still be on its way out. */
  lemma {:induction false} OneReaderPerConnection(events: seq<Event>)
    ensures var t := After(events);
      && (t.dead ==> t.conn.None?)
      && (!t.closed ==> |t.readers| == if t.conn.Some? then 1 else 0)
      && (t.conn.Some? ==> t.readers == {t.conn.value})
      && |t.readers| <= 1
  {
    AlwaysInv(events);
  }

  /** After a failed dial the next attempt starts at least 30 s after the failed one started. */
  lemma RetriesAreSpaced(events: seq<Event>, i: nat)
    requires i + 1 < |After(events).attempts| && After(events).attempts[i].failed
    ensures After(events).attempts[i + 1].start >= After(events).attempts[i].start + RETRY_AFTER
  {
    AlwaysInv(events);
  }

  /** The last attempt failed less than 30 s after it started. */
  predicate FailedLately(t: Tunnel)
  {
    && t.attempts != []
    && var last := t.attempts[|t.attempts| - 1];
      last.failed && t.now < last.start + 30_000_000_000
  }

  lemma LastStep(events: seq<Event>, e: Event)
    ensures After(events + [e]) == Step(After(events), e)
  {
    assert (events + [e])[..|events|] == events;
  }

  /** And no later than that: in every run a call with a live client dials exactly if no connection is held and
      the last attempt did not fail within the last 30 s; it takes its time, and it brings a connection exactly if
      the channel opens before Close. Without a live client a call changes nothing. */
  lemma DialsIffDue(events: seq<Event>, ok: bool, took: nat)
    ensures var t, r := After(events), After(events + [Dial(true, ok, took)]);
      var due := t.conn.None? && !FailedLately(t);
      && r.attempts == (if due then t.attempts + [Attempt(t.now, !(ok && !t.closed))] else t.attempts)
      && r.now == (if due then t.now + took else t.now)
      && (r.conn.Some? <==> t.conn.Some? || (due && ok && !t.closed))
      && (t.conn.Some? ==> r.conn == t.conn)
    ensures After(events + [Dial(false, ok, took)]) == After(events)
  {
    AlwaysInv(events);
    LastStep(events, Dial(true, ok, took));
    LastStep(events, Dial(false, ok, took));
    DialStep(After(events), ok, took);
  }

  lemma DialStep(t: Tunnel, ok: bool, took: nat)
    requires Inv(t)
    ensures var r := Step(t, Dial(true, ok, took)); var due := t.conn.None? && !FailedLately(t);
      && r.attempts == (if due then t.attempts + [Attempt(t.now, !(ok && !t.closed))] else t.attempts)
      && r.now == (if due then t.now + took else t.now)
      && (r.conn.Some? <==> t.conn.Some? || (due && ok && !t.closed))
      && (t.conn.Some? ==> r.conn == t.conn)
    ensures Step(t, Dial(false, ok, took)) == t
  {
    assert t.conn.Some? ==> !t.dead;
    assert FailedLately(t) <==> Throttled(t);
  }

  lemma WaitStep(t: Tunnel, d: nat)
    requires Inv(t) && d >= 30_000_000_000
    ensures var w := Step(t, Tick(d));
      w.now == t.now + d && w.conn == t.conn && w.attempts == t.attempts && w.closed == t.closed && !FailedLately(w)
  {
  }

  /** Thirty seconds of waiting are always enough for a call to dial again. */
  lemma RetryComes(events: seq<Event>, d: nat, ok: bool, took: nat)
    requires After(events).conn.None? && d >= 30_000_000_000
    ensures var t, r := After(events), After((events + [Tick(d)]) + [Dial(true, ok, took)]);
      r.attempts == t.attempts + [Attempt(t.now + d, !(ok && !t.closed))]
  {
    AlwaysInv(events);
    LastStep(events, Tick(d));
    LastStep(events + [Tick(d)], Dial(true, ok, took));
    AlwaysInv(events + [Tick(d)]);
    WaitStep(After(events), d);
    DialStep(Step(After(events), Tick(d)), ok, took);
  }

  /** A reader that ends takes its connection with it, and leaves it to the next call to dial again. */
  lemma ReaderEndDropsIt(events: seq<Event>, id: nat)
    requires id in After(events).readers
    ensures var t, r := After(events), After(events + [ReaderEnds(id)]);
      r.conn.None? && r.readers == {} && r.now == t.now && r.attempts == t.attempts
  {
    AlwaysInv(events);
    LastStep(events, ReaderEnds(id));
    AlwaysInv(events + [ReaderEnds(id)]);
    assert After(events).readers == {id};
  }

  /** After Close nothing is ever held again. */
  lemma {:induction false} ClosedHoldsNothing(events: seq<Event>)
    ensures After(events).closed <==> Close in events
    ensures Close in events ==> After(events).conn.None?
  {
    AlwaysInv(events);
    if events != [] {
      var front, e := events[..|events| - 1], events[|events| - 1];
      ClosedHoldsNothing(front);
      CloseStep(After(front), e);
      assert events == front + [e];
    }
  }

  lemma CloseStep(t: Tunnel, e: Event)
    ensures Step(t, e).closed <==> t.closed || e == Close
  {
  }

  lemma {:induction false} HeldWasCreated(events: seq<Event>, i: nat)
    requires i <= |events| && After(events[..i]).conn.Some?
    ensures After(events[..i]).conn.value < After(events).created
  {
    AlwaysInv(events[..i]);
    if i == |events| {
      assert events[..i] == events;
    } else {
      var front := events[..|events| - 1];
      assert front[..i] == events[..i];
      HeldWasCreated(front, i);
    }
  }

  /** A connection that a call brings has not been held at any time before. */
  lemma ConnectionsAreNew(events: seq<Event>, e: Event, i: nat)
    requires i <= |events| && After(events).conn.None?
    ensures var r := After(events + [e]);
      r.conn.Some? ==> After(events[..i]).conn != r.conn
  {
    LastStep(events, e);
    if After(events[..i]).conn.Some? {
      HeldWasCreated(events, i);
    }
  }

  // ---------------------------------------------------------------------------
  // The object.

  datatype DialResult = Up | RetryLater | NoClient | DialFailed

  class Gateway {
    var conn: Option<nat>
    var dead: bool
    var failedOnce: bool
    var lastDialTry: nat
    var cancelled: bool
    var now: nat
    var created: nat
    var readers: set<nat>            // the read loops still running
    ghost var attempts: seq<Attempt>

    ghost function View(): Tunnel
      reads this
    {
      Tunnel(conn, dead, failedOnce, lastDialTry, cancelled, now, created, readers, attempts)
    }

    constructor ()
      ensures View() == FRESH
    {
      conn, dead, failedOnce, lastDialTry, cancelled, now, created := None, false, false, 0, false, 0, 0;
      readers, attempts := {}, [];
    }

    /** dial(); a cancelled context makes the library refuse to open a channel. */
    method DialUp(client: bool, ok: bool, took: nat) returns (r: DialResult)
      modifies this
      ensures View() == Step(old(View()), Dial(client, ok, took))
      ensures r.Up? <==> conn.Some? && !dead
      ensures r.RetryLater? || r.NoClient? <==> !r.Up? && attempts == old(attempts)
      ensures r.RetryLater? <==> !r.Up? && old(failedOnce) && old(now) < old(lastDialTry) + 30_000_000_000
    {
      if conn.Some? && !dead {
        return Up;
      }
      if failedOnce {
        if now - lastDialTry < RETRY_AFTER {
          return RetryLater;
        }
      }
      if !client {
        return NoClient;
      }
      lastDialTry := now;
      attempts := attempts + [Attempt(now, !(ok && !cancelled))];
      now := now + took;
      if !ok || cancelled {
        if !failedOnce {
          failedOnce := true;
        }
        return DialFailed;
      }
      conn := Some(created);
      dead := false;
      failedOnce := false;
      readers := readers + {created};
      created := created + 1;
      return Up;
    }

    /** The deferred end of readLoop. */
    method EndReader(id: nat)
      requires id in readers
      modifies this
      ensures View() == Step(old(View()), ReaderEnds(id))
    {
      if conn.Some? {
        conn := None;
      }
      dead := true;
      readers := readers - {id};
    }

    method CloseDown()
      modifies this
      ensures View() == Step(old(View()), Close)
    {
      cancelled := true;
      if conn.Some? {
        conn := None;
      }
    }

    method Wait(d: nat)
      modifies `now
      ensures View() == Step(old(View()), Tick(d))
    {
      now := now + d;
    }

    /** The object over any list of events; a reader that has ended already cannot end again. */
    method Run(events: seq<Event>)
      requires View() == FRESH
      modifies this
      ensures View() == After(events)
    {
      var i := 0;
      while i < |events|
        invariant 0 <= i <= |events|
        invariant View() == After(events[..i])
      {
        assert events[..i + 1][..i] == events[..i];
        match events[i] {
          case Tick(d) => Wait(d);
          case Dial(client, ok, took) => var _ := DialUp(client, ok, took);
          case ReaderEnds(id) =>
            if id in readers {
              EndReader(id);
            }
          case Close => CloseDown();
        }
        i := i + 1;
      }
      assert events[..i] == events;
    }
  }
}
