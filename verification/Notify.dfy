/** The state notification protocol of the daemon: `set` mutates under one lock and then
    broadcasts under another; every subscriber owns a one-token channel. */
module Notify {
  import opened Seqs

  // ---------------------------------------------------------------------------
  // The object, one method for each Go method.

  /** A `chan struct{}` of capacity one. */
  class Chan {
    var token: bool

    constructor ()
      ensures !token
    {
      token := false;
    }
  }

  class State<V> {
    var value: V
    var subs: seq<Chan>

    /** No channel is registered twice. */
    ghost predicate Valid()
      reads this
    {
      Distinct(subs)
    }

    constructor (v: V)
      ensures Valid() && value == v && subs == []
    {
      value, subs := v, [];
    }

    /** A non-blocking send to every registered channel. */
    method Broadcast()
      modifies subs
      ensures forall ch | ch in subs :: ch.token
    {
      var i := 0;
      while i < |subs|
        invariant 0 <= i <= |subs|
        invariant forall k | 0 <= k < i :: subs[k].token
      {
        if !subs[i].token {
          subs[i].token := true;
        }
        i := i + 1;
      }
    }

    method Set(v: V)
      modifies this`value, subs
      ensures value == v
      ensures forall ch | ch in subs :: ch.token
    {
      value := v;
      Broadcast();
    }

    method Subscribe() returns (ch: Chan)
      requires Valid()
      modifies this`subs
      ensures Valid() && fresh(ch) && !ch.token
      ensures subs == old(subs) + [ch]
    {
      ch := new Chan();
      subs := subs + [ch];
    }

    /** The cleanup closure returned by Subscribe. */
    method Cleanup(ch: Chan)
      requires Valid()
      modifies this`subs
      ensures Valid() && ch !in subs && subs == RemoveFirst(old(subs), ch)
      ensures ch !in old(subs) ==> subs == old(subs)
    {
      RemoveKeepsDistinct(subs, ch);
      var i := 0;
      while i < |subs|
        invariant 0 <= i <= |subs|
        invariant subs == old(subs) && ch !in subs[..i]
      {
        if subs[i] == ch {
          RemoveAt(subs, ch, i);
          subs := subs[..i] + subs[i + 1..];
          return;
        }
        i := i + 1;
      }
      NotThere(subs, ch);
    }
  }

  lemma {:induction false} NotThere<T>(s: seq<T>, x: T)
    requires x !in s
    ensures RemoveFirst(s, x) == s
  {
    if s != [] {
      NotThere(s[1..], x);
    }
  }

  // ---------------------------------------------------------------------------
  // The protocol: every interleaving of the critical sections above with the
  // receives and snapshots of the subscribers.

  datatype Phase = Waiting | Taken

  /** `unseen` and `joined` are history: the mutations whose broadcast runs after the
      registration and that no snapshot has covered yet, and how many mutations had
      happened at registration. */
  datatype Subscriber = Subscriber(token: bool, phase: Phase, snap: Option<int>, unseen: set<nat>, joined: nat)

  datatype Sending = Idle | Sending(m: nat, next: nat)

  datatype Hub = Hub(
    value: int,
    mutations: nat,
    pending: set<nat>,      // mutated, broadcast not started
    sending: Sending,       // the holder of subsMu inside broadcast
    subs: seq<nat>,
    chans: map<nat, Subscriber>)

  datatype Event =
    | Mutate(v: int)
    | StartBroadcast(m: nat)
    | SendNext
    | FinishBroadcast
    | Register(id: nat)
    | Cleanup(id: nat)
    | Receive(id: nat)
    | Snapshot(id: nat)

  const INIT := Hub(0, 0, {}, Idle, [], map[])

  function Put(h: Hub, id: nat, c: Subscriber): Hub
  {
    h.(chans := h.chans[id := c])
  }

  /** One atomic step; an event that is not enabled changes nothing. */
  function Step(h: Hub, e: Event): Hub
  {
    match e
    case Mutate(v) =>
      var owed := map id | id in h.chans :: h.chans[id].(unseen := h.chans[id].unseen + {h.mutations});
      h.(value := v, mutations := h.mutations + 1, pending := h.pending + {h.mutations}, chans := owed)
    case StartBroadcast(m) =>
      if m in h.pending && h.sending.Idle? then h.(pending := h.pending - {m}, sending := Sending(m, 0)) else h
    case SendNext =>
      if h.sending.Sending? && h.sending.next < |h.subs| && h.subs[h.sending.next] in h.chans then
        var id := h.subs[h.sending.next];
        Put(h, id, h.chans[id].(token := true)).(sending := Sending(h.sending.m, h.sending.next + 1))
      else h
    case FinishBroadcast =>
      if h.sending.Sending? && h.sending.next == |h.subs| then h.(sending := Idle) else h
    case Register(id) =>
      if h.sending.Idle? && id !in h.chans then
        Put(h, id, Subscriber(false, Waiting, None, h.pending, h.mutations)).(subs := h.subs + [id])
      else h
    case Cleanup(id) =>
      if h.sending.Idle? then h.(subs := RemoveFirst(h.subs, id)) else h
    case Receive(id) =>
      if id in h.chans && h.chans[id].token && h.chans[id].phase.Waiting? then
        Put(h, id, h.chans[id].(token := false, phase := Taken))
      else h
    case Snapshot(id) =>
      if id in h.chans && h.chans[id].phase.Taken? then
        Put(h, id, h.chans[id].(phase := Waiting, snap := Some(h.value), unseen := {}))
      else h
  }

  /** The loop of Broadcast as steps of the protocol: k sends. */
  function SendMany(h: Hub, k: nat): Hub
  {
    if k == 0 then h else Step(SendMany(h, k - 1), SendNext)
  }

  /** The first k sends have set the tokens of the first k channels, and nothing else. */
  ghost predicate Reached(h: Hub, m: nat, k: nat, r: Hub)
    requires k <= |h.subs|
  {
    && r == h.(sending := Sending(m, k), chans := r.chans)
    && r.chans.Keys == h.chans.Keys
    && forall id | id in h.chans ::
         r.chans[id] == if id in h.subs[..k] then h.chans[id].(token := true) else h.chans[id]
  }

  lemma NextReached(h: Hub, m: nat, k: nat, r: Hub)
    requires k < |h.subs| && Reached(h, m, k, r) && h.subs[k] in h.chans
    ensures Reached(h, m, k + 1, Step(r, SendNext))
  {
    assert h.subs[..k + 1] == h.subs[..k] + [h.subs[k]];
  }

  /** One whole broadcast leaves a token in every registered channel, as `State.Broadcast`
      promises, and changes no other channel and nothing else about these. */
  lemma {:induction false} BroadcastReachesAll(h: Hub, m: nat, k: nat)
    requires Distinct(h.subs) && (forall id | id in h.subs :: id in h.chans)
    requires h.sending == Sending(m, 0) && k <= |h.subs|
    ensures Reached(h, m, k, SendMany(h, k))
  {
    if k > 0 {
      BroadcastReachesAll(h, m, k - 1);
      NextReached(h, m, k - 1, SendMany(h, k - 1));
    }
  }

  function After(events: seq<Event>): Hub
  {
    if events == [] then INIT else Step(After(events[..|events| - 1]), events[|events| - 1])
  }

  /** The broadcast of mutation m has not reached the channel yet. */
  ghost predicate OnItsWay(h: Hub, m: nat, id: nat)
  {
    || m in h.pending
    || (h.sending.Sending? && h.sending.m == m && exists j :: h.sending.next <= j < |h.subs| && h.subs[j] == id)
  }

  ghost predicate WakeUpDue(h: Hub, m: nat, id: nat)
  {
    id in h.chans && (h.chans[id].token || h.chans[id].phase.Taken? || OnItsWay(h, m, id))
  }

  ghost predicate WellFormed(h: Hub)
  {
    && Distinct(h.subs)
    && (forall id | id in h.subs :: id in h.chans)
    && (forall m | m in h.pending :: m < h.mutations)
    && (h.sending.Sending? ==> h.sending.next <= |h.subs|)
  }

  ghost predicate SubscriberOk(h: Hub, id: nat)
    requires id in h.chans
  {
    var c := h.chans[id];
    && (forall m | m in c.unseen :: WakeUpDue(h, m, id))
    && (c.snap.Some? && c.unseen == {} ==> c.snap.value == h.value)
    && (c.snap.None? ==> forall m | c.joined <= m < h.mutations :: m in c.unseen)
  }

  ghost predicate Inv(h: Hub)
  {
    WellFormed(h) && forall id | id in h.subs :: SubscriberOk(h, id)
  }

  lemma StepKeepsInv(h: Hub, e: Event)
    requires Inv(h)
    ensures Inv(Step(h, e))
  {
    var h' := Step(h, e);
    if e.Cleanup? {
      RemoveKeepsDistinct(h.subs, e.id);
    }
    forall id | id in h'.subs
      ensures SubscriberOk(h', id)
    {
      StepKeepsSubscriber(h, e, id);
    }
  }

  lemma StepKeepsSubscriber(h: Hub, e: Event, id: nat)
    requires Inv(h) && id in Step(h, e).subs && WellFormed(Step(h, e))
    ensures SubscriberOk(Step(h, e), id)
  {
    var h' := Step(h, e);
    if id in h.subs {
      assert SubscriberOk(h, id);
      forall m | m in h'.chans[id].unseen
        ensures WakeUpDue(h', m, id)
      {
        if m in h.chans[id].unseen {
          assert WakeUpDue(h, m, id);
        }
      }
    }
  }

  lemma {:induction false} AlwaysInv(events: seq<Event>)
    ensures Inv(After(events))
  {
    if events != [] {
      AlwaysInv(events[..|events| - 1]);
      StepKeepsInv(After(events[..|events| - 1]), events[|events| - 1]);
    }
  }

  /** No lost wake-up, in every interleaving. */
  lemma {:induction false} NoLostWakeUp(events: seq<Event>, id: nat, m: nat)
    requires id in After(events).subs && id in After(events).chans && m in After(events).chans[id].unseen
    ensures WakeUpDue(After(events), m, id)
  {
    AlwaysInv(events);
    assert SubscriberOk(After(events), id);
  }

  ghost predicate Quiet(h: Hub, id: nat)
  {
    h.pending == {} && h.sending.Idle? && id in h.chans && !h.chans[id].token && h.chans[id].phase.Waiting?
  }

  /** When nothing is in flight a registered subscriber has read the current value,
      unless nothing has been mutated since it registered. */
  lemma QuietMeansCurrent(events: seq<Event>, id: nat)
    requires id in After(events).subs && Quiet(After(events), id)
    ensures After(events).chans[id].unseen == {}
    ensures After(events).mutations > After(events).chans[id].joined ==>
              After(events).chans[id].snap == Some(After(events).value)
  {
    AlwaysInv(events);
    var h := After(events);
    var c := h.chans[id];
    assert SubscriberOk(h, id);
    assert forall m | m in c.unseen :: !WakeUpDue(h, m, id);
    assert h.mutations > c.joined && c.snap.None? ==> c.joined in c.unseen;
  }

  // ---------------------------------------------------------------------------
  // What a token is good for.

  lemma AfterNext(events: seq<Event>, e: Event)
    ensures After(events + [e]) == Step(After(events), e)
  {
    assert (events + [e])[..|events|] == events;
  }

  /** A subscriber that waits with a token in its channel takes it and reads the current value. */
  lemma TokenIsRead(events: seq<Event>, id: nat)
    requires var h := After(events); id in h.chans && h.chans[id].token && h.chans[id].phase.Waiting?
    ensures var h, r := After(events), After(events + [Receive(id)] + [Snapshot(id)]);
      && r == h.(chans := r.chans) && id in r.chans
      && !r.chans[id].token && r.chans[id].phase.Waiting?
      && r.chans[id].snap == Some(h.value) && r.chans[id].unseen == {}
      && (forall other | other in h.chans && other != id :: other in r.chans && r.chans[other] == h.chans[other])
  {
    AfterNext(events, Receive(id));
    AfterNext(events + [Receive(id)], Snapshot(id));
  }

  /** Nothing but tokens and broadcasts has changed. */
  ghost predicate OnlyTokens(h: Hub, r: Hub)
  {
    && r.value == h.value && r.mutations == h.mutations && r.subs == h.subs && r.chans.Keys == h.chans.Keys
    && forall id | id in h.chans :: r.chans[id] == h.chans[id].(token := r.chans[id].token)
  }

  lemma OnlyTokensTrans(a: Hub, b: Hub, c: Hub)
    requires OnlyTokens(a, b) && OnlyTokens(b, c)
    ensures OnlyTokens(a, c)
  {
    forall id | id in a.chans
      ensures c.chans[id] == a.chans[id].(token := c.chans[id].token)
    {
      assert b.chans[id] == a.chans[id].(token := b.chans[id].token);
      assert c.chans[id] == b.chans[id].(token := c.chans[id].token);
    }
  }

  lemma SendStep(h: Hub)
    requires h.sending.Sending? && h.sending.next < |h.subs| && h.subs[h.sending.next] in h.chans
    ensures var r := Step(h, SendNext);
      OnlyTokens(h, r) && r.pending == h.pending && r.sending == Sending(h.sending.m, h.sending.next + 1)
  {
  }

  /** The broadcast under way can come to its end. */
  lemma {:induction false} Finishes(events: seq<Event>) returns (more: seq<Event>)
    requires After(events).sending.Sending?
    ensures var h, r := After(events), After(more);
      OnlyTokens(h, r) && r.pending == h.pending && r.sending.Idle? && events <= more
    decreases |After(events).subs| - After(events).sending.next
  {
    var h := After(events);
    AlwaysInv(events);
    if h.sending.next == |h.subs| {
      AfterNext(events, FinishBroadcast);
      more := events + [FinishBroadcast];
    } else {
      var a := events + [SendNext];
      AfterNext(events, SendNext);
      SendStep(h);
      more := Finishes(a);
      OnlyTokensTrans(h, After(a), After(more));
    }
  }

  lemma Starts(events: seq<Event>, m: nat)
    requires m in After(events).pending && After(events).sending.Idle?
    ensures var h, r := After(events), After(events + [StartBroadcast(m)]);
      OnlyTokens(h, r) && r.pending == h.pending - {m} && r.sending == Sending(m, 0)
  {
    AfterNext(events, StartBroadcast(m));
  }

  /** And all broadcasts that are due. */
  lemma {:induction false} Drains(events: seq<Event>) returns (more: seq<Event>)
    ensures var h, r := After(events), After(more);
      OnlyTokens(h, r) && r.pending == {} && r.sending.Idle? && events <= more
    decreases |After(events).pending|, After(events).sending.Sending?
  {
    var h := After(events);
    if h.sending.Sending? {
      var a := Finishes(events);
      more := Drains(a);
      OnlyTokensTrans(h, After(a), After(more));
    } else if m :| m in h.pending {
      Starts(events, m);
      var a := events + [StartBroadcast(m)];
      var b := Finishes(a);
      OnlyTokensTrans(h, After(a), After(b));
      more := Drains(b);
      OnlyTokensTrans(h, After(b), After(more));
    } else {
      more := events;
    }
  }

  /** From every run in which a registered subscriber waits with a mutation unread: once the broadcasts are through,
      one receive and one snapshot make it current. */
  lemma BecomesCurrent(events: seq<Event>, id: nat) returns (more: seq<Event>)
    requires var h := After(events);
      id in h.subs && id in h.chans && h.chans[id].phase.Waiting? && h.chans[id].unseen != {}
    ensures var h, d, r := After(events), After(more), After(more + [Receive(id)] + [Snapshot(id)]);
      && events <= more && OnlyTokens(h, d) && id in d.chans && d.chans[id].token
      && id in r.chans && r.chans[id].snap == Some(h.value) && r.chans[id].unseen == {}
  {
    var m :| m in After(events).chans[id].unseen;
    more := Drains(events);
    var d := After(more);
    assert d.chans[id].unseen == After(events).chans[id].unseen;
    NoLostWakeUp(more, id, m);
    TokenIsRead(more, id);
  }

  /** So every mutation reaches every registered subscriber that waits. */
  lemma MutationIsRead(events: seq<Event>, id: nat, v: int) returns (more: seq<Event>)
    requires var h := After(events); id in h.subs && id in h.chans && h.chans[id].phase.Waiting?
    ensures events + [Mutate(v)] <= more
    ensures var r := After(more + [Receive(id)] + [Snapshot(id)]);
      id in r.chans && r.chans[id].snap == Some(v) && r.chans[id].unseen == {}
  {
    AfterNext(events, Mutate(v));
    more := BecomesCurrent(events + [Mutate(v)], id);
  }

  /** Registering puts a waiting subscriber without a token at the end of the list, and its cleanup takes it off. */
  lemma RegisterThenCleanup(events: seq<Event>, id: nat)
    requires After(events).sending.Idle? && id !in After(events).chans
    ensures var h, r := After(events), After(events + [Register(id)]);
      && r.subs == h.subs + [id] && id in r.chans
      && !r.chans[id].token && r.chans[id].phase.Waiting? && r.chans[id].snap.None?
    ensures After(events + [Register(id)] + [Cleanup(id)]).subs == After(events).subs
  {
    AlwaysInv(events);
    AfterNext(events, Register(id));
    AfterNext(events + [Register(id)], Cleanup(id));
    RemoveLast(After(events).subs, id);
  }

  lemma {:induction false} RemoveLast(s: seq<nat>, x: nat)
    requires x !in s
    ensures RemoveFirst(s + [x], x) == s
  {
    if s != [] {
      assert (s + [x])[1..] == s[1..] + [x];
      RemoveLast(s[1..], x);
    }
  }
}
