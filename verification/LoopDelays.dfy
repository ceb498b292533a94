/** The delays of the tunnel loop over whole runs, and what it shows, brings up and takes down with them. */
module LoopDelays {
  import opened Numbers
  import opened Seqs
  import Backoff
  import opened TunnelLoop

  /** Since what delay the attempts have only failed, and how often: 0 from the beginning, 1 since a success or a
      loss, 5 since a pause without a network. */
  datatype Streak = Streak(base: nat, fails: nat)

  function StreakOf(mode: Receive, l: Loop, events: seq<Event>): Streak
  {
    if events == [] then Streak(0, 0)
    else
      var front, e := events[..|events| - 1], events[|events| - 1];
      NextStreak(After(mode, l, front), e, StreakOf(mode, l, front))
  }

  function NextStreak(l: Loop, e: Event, s: Streak): Streak
  {
    match e
    case AuthResult(ok) => if !l.at.Attempting? then s else if ok then Streak(1, 0) else s.(fails := s.fails + 1)
    case Route(online) => if l.at.Deciding? && !online then Streak(5, 0) else s
    case ReportLost => if l.at.Reporting? then Streak(1, 0) else s
    case _ => s
  }

  function Capped(n: nat): nat { if n < 30 then n else 30 }

  /** The delay that a streak amounts to. */
  function DelayOf(s: Streak): nat
  {
    if s.base == 0 then (if s.fails == 0 then 0 else Capped(Pow2(s.fails - 1)))
    else Capped(s.base * Pow2(s.fails))
  }

  ghost predicate DelayOk(l: Loop, s: Streak) { s.base in {0, 1, 5} && l.delay == DelayOf(s) }

  /** One more failure: 1 from no delay, else twice as long and at most 30. */
  lemma FailureDoubles(s: Streak)
    requires s.base in {0, 1, 5}
    ensures DelayOf(s.(fails := s.fails + 1)) == if DelayOf(s) == 0 then 1 else Capped(2 * DelayOf(s))
  {
    Backoff.Doubled(s.base, Pow2(s.fails));
    if s.base > 0 {
      NotZero(s.base, Pow2(s.fails));
    }
  }

  lemma NotZero(a: nat, b: nat)
    requires a > 0 && b > 0
    ensures a * b > 0
  {
  }

  lemma NextDelayIs(d: nat)
    requires d <= 30
    ensures Backoff.NextDelay(d, Backoff.BASE_DELAY, Backoff.MAX_DELAY) == if d == 0 then 1 else Capped(2 * d)
  {
  }

  lemma StepKeepsDelay(mode: Receive, l: Loop, e: Event, s: Streak)
    requires DelayOk(l, s)
    ensures DelayOk(Step(mode, l, e), NextStreak(l, e, s))
  {
    if e == AuthResult(false) && l.at.Attempting? {
      FailureKeepsDelay(l, s);
    } else {
      OtherKeepsDelay(mode, l, e, s);
    }
  }

  lemma FailureKeepsDelay(l: Loop, s: Streak)
    requires DelayOk(l, s) && l.at.Attempting?
    ensures DelayOk(Connecting(l, AuthResult(false)), s.(fails := s.fails + 1))
  {
    FailureDoubles(s);
    NextDelayIs(l.delay);
  }

  /** Every other event leaves the delay and the streak, or sets both. */
  lemma OtherSetsDelay(mode: Receive, l: Loop, e: Event, s: Streak)
    requires e != AuthResult(false) || !l.at.Attempting?
    ensures var d, t := Step(mode, l, e).delay, NextStreak(l, e, s);
      (d == l.delay && t == s) || (d == 1 && t == Streak(1, 0)) || (d == 5 && t == Streak(5, 0))
  {
    EndsKeepsDelay(l, e);
    WaitsKeepsDelay(mode, l, e);
  }

  lemma EndsKeepsDelay(l: Loop, e: Event)
    ensures Ends(l, e).delay == l.delay
  {
  }

  lemma WaitsKeepsDelay(mode: Receive, l: Loop, e: Event)
    ensures Waits(mode, l, e).delay == if e.ReportLost? && l.at.Reporting? then 1 else l.delay
  {
  }

  lemma OtherKeepsDelay(mode: Receive, l: Loop, e: Event, s: Streak)
    requires DelayOk(l, s) && (e != AuthResult(false) || !l.at.Attempting?)
    ensures DelayOk(Step(mode, l, e), NextStreak(l, e, s))
  {
    OtherSetsDelay(mode, l, e, s);
    assert Pow2(0) == 1 && DelayOf(Streak(1, 0)) == 1 && DelayOf(Streak(5, 0)) == 5;
  }

  /** In every run the delay is the one that its streak of failures amounts to: with k >= 1 failures since the
      beginning min(30, 2^(k-1)), with k since a success or a loss min(30, 2^k), since an offline pause
      min(30, 5 * 2^k). */
  lemma {:induction false} DelayIsStreak(mode: Receive, l: Loop, events: seq<Event>)
    requires Fresh(l)
    ensures var s := StreakOf(mode, l, events); s.base in {0, 1, 5} && After(mode, l, events).delay == DelayOf(s)
  {
    if events != [] {
      var front := events[..|events| - 1];
      DelayIsStreak(mode, l, front);
      StepKeepsDelay(mode, After(mode, l, front), events[|events| - 1], StreakOf(mode, l, front));
    }
  }

  /** k attempts that fail. */
  function Failures(k: nat): seq<Event>
  {
    if k == 0 then [] else Failures(k - 1) + [DelayOver, Route(true), AuthResult(false)]
  }

  lemma AfterThree(mode: Receive, l: Loop, before: seq<Event>, a: Event, b: Event, c: Event)
    ensures After(mode, l, before + [a, b, c]) == Step(mode, Step(mode, Step(mode, After(mode, l, before), a), b), c)
  {
    assert before + [a, b, c] == (before + [a, b]) + [c];
    AfterTwo(mode, l, before, a, b);
    assert ((before + [a, b]) + [c])[..|before| + 2] == before + [a, b];
  }

  lemma OneFailure(mode: Receive, l: Loop)
    requires l.at.Delaying? && l.delay <= 30
    ensures var r := Step(mode, Step(mode, Step(mode, l, DelayOver), Route(true)), AuthResult(false));
      r.at.Delaying? && r.delay == if l.delay == 0 then 1 else Capped(2 * l.delay)
  {
    NextDelayIs(l.delay);
  }

  /** So a fresh loop whose first k attempts fail waits min(30, 2^(k-1)) seconds before the next. */
  lemma {:induction false} DelayAfterFailures(mode: Receive, l: Loop, k: nat)
    requires Fresh(l)
    ensures var r := After(mode, l, Failures(k));
      r.at.Delaying? && r.delay == if k == 0 then 0 else Capped(Pow2(k - 1))
  {
    if k > 0 {
      DelayAfterFailures(mode, l, k - 1);
      AfterThree(mode, l, Failures(k - 1), DelayOver, Route(true), AuthResult(false));
      OneFailure(mode, After(mode, l, Failures(k - 1)));
      assert k > 1 ==> Pow2(k - 1) == 2 * Pow2(k - 2);
    }
  }

  // ------------------------------------------------------------ the rate of attempts

  /** The time that a run has taken: every delay that was waited out, and `took(i)` for the attempt i, counted
      from 0. */
  function Elapsed(mode: Receive, l: Loop, events: seq<Event>, took: nat -> nat): nat
  {
    if events == [] then 0
    else
      var front, e := events[..|events| - 1], events[|events| - 1];
      var s := After(mode, l, front);
      Elapsed(mode, l, front, took)
      + Passed(s, e, StreakOf(mode, l, front), took)
  }

  /** The delays 1, 2, 4, ... behind the first n failures. */
  function Waited(n: nat): nat { if n == 0 then 0 else Waited(n - 1) + Capped(Pow2(n - 1)) }

  function Spent(took: nat -> nat, n: nat): nat { if n == 0 then 0 else Spent(took, n - 1) + took(n - 1) }

  /** Where the time stands in a run that has only failed. */
  ghost predicate OnTime(at: At, s: Streak, elapsed: nat, took: nat -> nat)
  {
    s.base == 0 ==>
      && !at.Publishing? && Current(at).None? && !at.Clearing? && !at.Reporting? && !at.Leaving?
      && (at.Delaying? ==> elapsed == (if s.fails == 0 then 0 else Waited(s.fails - 1)) + Spent(took, s.fails))
      && (at.Deciding? || at.Attempting? ==> elapsed == Waited(s.fails) + Spent(took, s.fails))
  }

  lemma StepOnTime(mode: Receive, l: Loop, e: Event, s: Streak, elapsed: nat, took: nat -> nat)
    requires DelayOk(l, s) && OnTime(l.at, s, elapsed, took)
    ensures OnTime(Step(mode, l, e).at, NextStreak(l, e, s), elapsed + Passed(l, e, s, took), took)
  {
    match e
    case DelayOver => DelayOnTime(l, s, elapsed, took);
    case Route(online) => RouteOnTime(l, online, s, elapsed, took);
    case AuthResult(ok) => AuthOnTime(l, ok, s, elapsed, took);
    case _ => QuietOnTime(mode, l, e, s, elapsed, took);
  }

  /** The time that goes by with an event. */
  function Passed(l: Loop, e: Event, s: Streak, took: nat -> nat): nat
  {
    if e.DelayOver? && l.at.Delaying? then l.delay
    else if e.AuthResult? && l.at.Attempting? then took(s.fails)
    else 0
  }

  lemma DelayOnTime(l: Loop, s: Streak, elapsed: nat, took: nat -> nat)
    requires DelayOk(l, s) && OnTime(l.at, s, elapsed, took)
    ensures OnTime(Connecting(l, DelayOver).at, s, elapsed + Passed(l, DelayOver, s, took), took)
  {
    assert s.base == 0 && s.fails > 0 ==> Waited(s.fails) == Waited(s.fails - 1) + DelayOf(s);
  }

  lemma RouteOnTime(l: Loop, online: bool, s: Streak, elapsed: nat, took: nat -> nat)
    requires OnTime(l.at, s, elapsed, took)
    ensures OnTime(Connecting(l, Route(online)).at, NextStreak(l, Route(online), s), elapsed, took)
  {
  }

  lemma AuthOnTime(l: Loop, ok: bool, s: Streak, elapsed: nat, took: nat -> nat)
    requires OnTime(l.at, s, elapsed, took)
    ensures OnTime(Connecting(l, AuthResult(ok)).at, NextStreak(l, AuthResult(ok), s),
                   elapsed + Passed(l, AuthResult(ok), s, took), took)
  {
    assert Spent(took, s.fails + 1) == Spent(took, s.fails) + took(s.fails);
  }

  /** A loop without a client stays where it is, or returns, on every other event. */
  lemma QuietStays(mode: Receive, l: Loop, e: Event)
    requires !l.at.Publishing? && Current(l.at).None? && !l.at.Clearing? && !l.at.Reporting? && !l.at.Leaving?
    requires !e.DelayOver? && !e.Route? && !e.AuthResult?
    ensures Step(mode, l, e).at == l.at || Step(mode, l, e).at.Returned?
  {
  }

  lemma QuietOnTime(mode: Receive, l: Loop, e: Event, s: Streak, elapsed: nat, took: nat -> nat)
    requires OnTime(l.at, s, elapsed, took) && !e.DelayOver? && !e.Route? && !e.AuthResult?
    ensures OnTime(Step(mode, l, e).at, NextStreak(l, e, s), elapsed, took)
  {
    if s.base == 0 {
      QuietStays(mode, l, e);
    }
  }

  lemma LastEvent(mode: Receive, l: Loop, events: seq<Event>, took: nat -> nat)
    requires events != []
    ensures var front, e := events[..|events| - 1], events[|events| - 1];
      var d, s := After(mode, l, front), StreakOf(mode, l, front);
      && After(mode, l, events) == Step(mode, d, e) && StreakOf(mode, l, events) == NextStreak(d, e, s)
      && Elapsed(mode, l, events, took) == Elapsed(mode, l, front, took) + Passed(d, e, s, took)
  {
  }

  lemma {:induction false} AlwaysOnTime(mode: Receive, l: Loop, events: seq<Event>, took: nat -> nat)
    requires Fresh(l)
    ensures OnTime(After(mode, l, events).at, StreakOf(mode, l, events), Elapsed(mode, l, events, took), took)
  {
    if events != [] {
      var front, e := events[..|events| - 1], events[|events| - 1];
      AlwaysOnTime(mode, l, front, took);
      DelayIsStreak(mode, l, front);
      StepOnTime(mode, After(mode, l, front), e, StreakOf(mode, l, front), Elapsed(mode, l, front, took), took);
      LastEvent(mode, l, events, took);
    }
  }

  lemma {:induction false} WaitedGrows(n: nat)
    ensures Waited(n) >= 30 * (n + 1) - 149
    ensures n <= 5 ==> Waited(n) == Pow2(n) - 1
    ensures n >= 5 ==> Waited(n) == 30 * (n + 1) - 149
  {
    assert Pow2(0) == 1 && Pow2(1) == 2 && Pow2(2) == 4 && Pow2(3) == 8 && Pow2(4) == 16 && Pow2(5) == 32;
    if n > 0 {
      WaitedGrows(n - 1);
      if n > 5 {
        LargePower(n - 1);
      }
    }
  }

  lemma {:induction false} LargePower(n: nat)
    requires n >= 5
    ensures Pow2(n) >= 32
  {
    assert Pow2(5) == 32 by {
      assert Pow2(0) == 1 && Pow2(1) == 2 && Pow2(2) == 4 && Pow2(3) == 8 && Pow2(4) == 16;
    }
    if n > 5 {
      LargePower(n - 1);
    }
  }

  /** In every run of the loop that has only failed so far, attempt n begins no earlier than 30n-149 seconds, whatever
      each attempt takes; exactly then, from the sixth on, if each one fails at once. */
  lemma LoopRateBound(mode: Receive, l: Loop, events: seq<Event>, took: nat -> nat)
    requires Fresh(l) && StreakOf(mode, l, events).base == 0 && After(mode, l, events).at.Attempting?
    ensures var n := StreakOf(mode, l, events).fails + 1; var t := Elapsed(mode, l, events, took);
      t >= 30 * n - 149 && (n >= 6 ==> t == 30 * n - 149 + Spent(took, n - 1))
  {
    AlwaysOnTime(mode, l, events, took);
    WaitedGrows(StreakOf(mode, l, events).fails);
  }

  // ------------------------------------------------------------ what is shown

  /** The label that the delays and attempts of a streak are shown with. */
  function Shown(first: Label, s: Streak): Label
  {
    if s.fails > 0 then RetryBackoff
    else if s.base == 5 then PausedNoNetwork
    else if s.base == 1 then Reconnecting
    else first
  }

  ghost predicate LabelOk(l: Loop, s: Streak, first: Label)
  {
    && (l.at.Delaying? || l.at.Deciding? ==> l.status.state == Shown(first, s))
    && (l.at.Attempting? || l.at.Publishing? || l.at.Announcing? ==> l.status.state.ConnectingSsh?)
    && (l.at.BringingUp? || l.at.Waiting? || l.at.Receiving? || l.at.Closing? || l.at.Clearing? || l.at.Reporting? ==>
          l.status.state.Connected?)
  }

  lemma StepKeepsLabel(mode: Receive, l: Loop, e: Event, s: Streak, first: Label)
    requires LabelOk(l, s, first)
    ensures LabelOk(Step(mode, l, e), NextStreak(l, e, s), first)
  {
  }

  /** In every run the label tells where the loop is: why it waits, that it connects, or that it is connected. */
  lemma {:induction false} LabelTells(mode: Receive, l: Loop, events: seq<Event>)
    requires Fresh(l)
    ensures LabelOk(After(mode, l, events), StreakOf(mode, l, events), l.status.state)
  {
    if events != [] {
      var front := events[..|events| - 1];
      LabelTells(mode, l, front);
      StepKeepsLabel(mode, After(mode, l, front), events[|events| - 1], StreakOf(mode, l, front), l.status.state);
    }
  }

  // ------------------------------------------------------------ what is brought up, and the end

  /** The first bring-up of a run: whether transparent proxying was on and the script succeeded. */
  function FirstBringUp(mode: Receive, l: Loop, events: seq<Event>): Option<(bool, bool)>
  {
    if events == [] then None
    else
      var front, e := events[..|events| - 1], events[|events| - 1];
      var before := FirstBringUp(mode, l, front);
      if before.None? && e.BringUp? && After(mode, l, front).at.BringingUp? then Some((e.transparent, e.scriptOk))
      else before
  }

  ghost predicate UpOk(l: Loop, first: Option<(bool, bool)>)
  {
    !l.at.Returned? ==> (l.listening <==> first.Some?) && (l.iptablesUp <==> first == Some((true, true)))
  }

  lemma StepKeepsUp(mode: Receive, l: Loop, e: Event, first: Option<(bool, bool)>)
    requires UpOk(l, first)
    ensures UpOk(Step(mode, l, e),
                 if first.None? && e.BringUp? && l.at.BringingUp? then Some((e.transparent, e.scriptOk)) else first)
  {
  }

  /** While a run has not returned, its first bring-up alone decides: the listeners run exactly from then on, and the
      rules are up exactly if transparent proxying was on and the script succeeded then. */
  lemma {:induction false} FirstBringUpDecides(mode: Receive, l: Loop, events: seq<Event>)
    requires Fresh(l)
    ensures var r := After(mode, l, events); var first := FirstBringUp(mode, l, events);
      !r.at.Returned? ==> (r.listening <==> first.Some?) && (r.iptablesUp <==> first == Some((true, true)))
  {
    if events != [] {
      var front := events[..|events| - 1];
      FirstBringUpDecides(mode, l, front);
      StepKeepsUp(mode, After(mode, l, front), events[|events| - 1], FirstBringUp(mode, l, front));
    }
  }

  lemma CancelSteps(mode: Receive, l: Loop)
    requires l.at.Delaying? || l.at.Waiting?
    ensures var r := Step(mode, Step(mode, Step(mode, l, Cancel), SeeCancel), Leave);
      r.at.Returned? && !r.listening && r.ptr.None? && r.iptablesUp == l.iptablesUp && r.disables == l.disables
  {
  }

  /** A cancelled loop ends, from every run that waits in one of its selects: nothing listens, no client is stored, and
      the rules are left to the caller. */
  lemma CancelEnds(mode: Receive, l: Loop, before: seq<Event>)
    requires After(mode, l, before).at.Delaying? || After(mode, l, before).at.Waiting?
    ensures var s, r := After(mode, l, before), After(mode, l, before + [Cancel, SeeCancel, Leave]);
      r.at.Returned? && !r.listening && r.ptr.None? && r.iptablesUp == s.iptablesUp && r.disables == s.disables
  {
    AfterThree(mode, l, before, Cancel, SeeCancel, Leave);
    CancelSteps(mode, After(mode, l, before));
  }

  /** Whatever the loop is doing, a stop that has cancelled it takes the client out of the pointer. */
  lemma StopClearsThePointer(mode: Receive, l: Loop, before: seq<Event>)
    ensures var s, r := After(mode, l, before), After(mode, l, before + [Cancel, StopClears]);
      r == s.(cancelled := true, ptr := None)
  {
    AfterTwo(mode, l, before, Cancel, StopClears);
  }

  /** What is shown of streams and of reconnecting: both 0 from a connection on, the streams as the last tick of the
      wait counted them, and a loss shows that it reconnects, with no stream. */
  lemma CountersShown(mode: Receive, l: Loop, before: seq<Event>, streams: int)
    ensures var s := After(mode, l, before);
      && (s.at.Announcing? ==>
            var now := After(mode, l, before + [Announce]).status;
            now.streams == 0 && now.reconnecting == 0 && now.state.Connected? && AllUp(now))
      && (s.at.Waiting? ==>
            After(mode, l, before + [HealthTick(streams)]).status == s.status.(streams := streams))
      && (s.at.Reporting? ==>
            var lost := After(mode, l, before + [ReportLost]).status;
            lost.streams == 0 && lost.reconnecting == 1 && lost.state.Reconnecting? && AllDown(lost))
  {
    assert (before + [Announce])[..|before|] == before;
    assert (before + [HealthTick(streams)])[..|before|] == before;
    assert (before + [ReportLost])[..|before|] == before;
  }
}
