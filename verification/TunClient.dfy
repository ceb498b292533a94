/** One authenticated SSH client: its in-flight counter, its death flag and its keepalive loop. */
module TunClient {

  /** What one turn of the keepalive loop sees. */
  datatype Turn = Answered | Missed | ContextDone

  ghost predicate TwoMissesAt(turns: seq<Turn>, i: nat)
  {
    i + 1 < |turns| && turns[i].Missed? && turns[i + 1].Missed? && forall k | 0 <= k < i :: !turns[k].ContextDone?
  }

  /** Two probes in a row are missed before the context ends. */
  ghost predicate MissesTwice(turns: seq<Turn>) { exists i: nat :: TwoMissesAt(turns, i) }

  class TunClient {
    var active: int
    var dead: bool
    var closed: bool

    constructor ()
      ensures active == 0 && !dead && !closed
    {
      active, dead, closed := 0, false, false;
    }

    method Close()
      modifies this`closed
      ensures closed
    {
      closed := true;
    }

    method MarkDead()
      modifies this`dead, this`closed
      ensures dead && closed
    {
      if !dead {
        dead := true;
      }
      Close();
    }

    method Add()
      modifies this`active
      ensures active == old(active) + 1
    {
      active := active + 1;
    }

    method Remove()
      modifies this`active
      ensures active == old(active) - 1
    {
      active := active - 1;
    }

    /** Kills the client exactly when two consecutive probes are missed before its context ends. */
    method KeepAlive(turns: seq<Turn>) returns (killed: bool)
      modifies this`dead, this`closed
      ensures killed <==> MissesTwice(turns)
      ensures dead == (old(dead) || killed) && closed == (old(closed) || killed)
    {
      var missed := 0;
      var i := 0;
      while i < |turns|
        invariant 0 <= i <= |turns| && 0 <= missed <= 1
        invariant missed == 1 <==> i > 0 && turns[i - 1].Missed?
        invariant forall k | 0 <= k < i :: !turns[k].ContextDone?
        invariant forall k | 0 <= k < i - 1 :: !(turns[k].Missed? && turns[k + 1].Missed?)
        invariant dead == old(dead) && closed == old(closed)
      {
        match turns[i] {
          case ContextDone =>
            assert forall j: nat :: TwoMissesAt(turns, j) ==> j < i;
            return false;
          case Answered =>
            missed := 0;
          case Missed =>
            missed := missed + 1;
            if missed >= 2 {
              assert TwoMissesAt(turns, i - 1);
              MarkDead();
              return true;
            }
        }
        i := i + 1;
      }
      return false;
    }
  }

  /** What a dial through a client returns: a stream, an error of the transport itself, an error
      worth one retry, or any other error. */
  datatype Dial = Succeeds | TransportDeath | Retryable | Refused

  /** One retry, on the client that is current by then; a transport death marks the client it
      happened on, and no other. */
  method DialStreamWithRetry(cl: TunClient, ncl: TunClient?, first: Dial, second: Dial) returns (r: Dial)
    modifies cl`dead, cl`closed
    modifies (if ncl == null then {} else {ncl as TunClient})`dead,
        (if ncl == null then {} else {ncl as TunClient})`closed
    ensures var retried := !old(cl.dead) && first.Retryable? && ncl != null && !old(ncl.dead);
      && r == (if old(cl.dead) then Refused else if retried then second else first)
      && cl.dead == (old(cl.dead) || first.TransportDeath? || (retried && ncl == cl && second.TransportDeath?))
      && (ncl != null && ncl != cl ==> ncl.dead == (old(ncl.dead) || (retried && second.TransportDeath?)))
      && (cl.dead && !old(cl.dead) ==> cl.closed)
      && (ncl != null && ncl.dead && !old(ncl.dead) ==> ncl.closed)
  {
    if cl.dead {
      return Refused;
    }
    if first.Succeeds? {
      return first;
    }
    if first.TransportDeath? {
      cl.MarkDead();
      return first;
    }
    if !first.Retryable? {
      return first;
    }
    if ncl == null || ncl.dead {
      return first;
    }
    if second.TransportDeath? {
      ncl.MarkDead();
    }
    return second;
  }

  function One(c: TunClient?): set<TunClient> { if c == null then {} else {c as TunClient} }

  /** Whether a dial through a live client, with its retry through a live one, yields a stream. */
  predicate OpensBy(alive: bool, first: Dial, nextAlive: bool, second: Dial)
  {
    alive && (first.Succeeds? || (first.Retryable? && nextAlive && second.Succeeds?))
  }

  predicate Opens(cl: TunClient?, ncl: TunClient?, first: Dial, second: Dial)
    reads One(cl), One(ncl)
  {
    OpensBy(cl != null && !cl.dead, first, ncl != null && !ncl.dead, second)
  }

  predicate Retries(ncl: TunClient?, first: Dial)
    reads One(ncl)
  {
    first.Retryable? && ncl != null && !ncl.dead
  }

  const GRANTED: nat := 0
  const HOST_UNREACHABLE: nat := 4
  const CONNECTION_REFUSED: nat := 5

  /** A handler up to its reply; cl, ncl and counted are what the pointer held at its three loads. A
      death on the retry is charged to the first client as well. */
  method OpenStream(cl: TunClient?, ncl: TunClient?, counted: TunClient?, first: Dial, second: Dial)
      returns (reply: nat)
    modifies One(cl)`dead, One(cl)`closed, One(ncl)`dead, One(ncl)`closed, One(counted)`active
    ensures reply == GRANTED <==> old(Opens(cl, ncl, first, second)) && counted != null
    ensures reply == CONNECTION_REFUSED <==> cl != null && !old(cl.dead) && !old(Opens(cl, ncl, first, second))
    ensures reply in {GRANTED, HOST_UNREACHABLE, CONNECTION_REFUSED}
    ensures counted != null ==> counted.active == old(counted.active) + if reply == GRANTED then 1 else 0
    ensures cl != null ==>
              cl.dead == (old(cl.dead) || first.TransportDeath? || (old(Retries(ncl, first)) && second.TransportDeath?))
    ensures cl != null && ncl != null && ncl != cl ==>
              ncl.dead == (old(ncl.dead) || (!old(cl.dead) && old(Retries(ncl, first)) && second.TransportDeath?))
  {
    if cl == null || cl.dead {
      return HOST_UNREACHABLE;
    }
    var r := DialStreamWithRetry(cl, ncl, first, second);
    if !r.Succeeds? {
      if r.TransportDeath? {
        cl.MarkDead();
      }
      return CONNECTION_REFUSED;
    }
    if counted == null {
      return HOST_UNREACHABLE;
    }
    counted.Add();
    return GRANTED;
  }

  /** A whole handler: when it has ended every counter is what it was. */
  method HandleStream(cl: TunClient?, ncl: TunClient?, counted: TunClient?, first: Dial, second: Dial)
      returns (reply: nat)
    modifies One(cl)`dead, One(cl)`closed, One(ncl)`dead, One(ncl)`closed, One(counted)`active
    ensures reply == GRANTED <==> old(Opens(cl, ncl, first, second)) && counted != null
    ensures counted != null ==> counted.active == old(counted.active)
  {
    reply := OpenStream(cl, ncl, counted, first, second);
    if reply == GRANTED {
      counted.Remove();
    }
  }
}
