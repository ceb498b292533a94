/** Byte streams as the daemon sees them: arbitrary chunks, errors in between, short writes. */
module Streams {
  import opened Seqs

  type Byte = b: int | 0 <= b < 256

  datatype Fault = Eof | Timeout | Broken

  /** What a connection delivers to successive reads. */
  datatype Item = Data(bytes: seq<Byte>) | Fails(fault: Fault)

  function Flatten(items: seq<Item>): seq<Byte>
  {
    if items == [] then []
    else (if items[0].Data? then items[0].bytes else []) + Flatten(items[1..])
  }

  /** Reads with a non-empty buffer that this many items can still serve. */
  function Size(items: seq<Item>): nat
  {
    if items == [] then 0
    else 1 + (if items[0].Data? then |items[0].bytes| else 0) + Size(items[1..])
  }

  predicate NoFaults(items: seq<Item>) { forall i | 0 <= i < |items| :: items[i].Data? }

  /** What arrives before the first fault, and that fault; a stream that just ends has EOF. */
  function Clear(items: seq<Item>): seq<Byte>
  {
    if items == [] || items[0].Fails? then [] else items[0].bytes + Clear(items[1..])
  }

  function FirstFault(items: seq<Item>): Fault
  {
    if items == [] then Eof else if items[0].Fails? then items[0].fault else FirstFault(items[1..])
  }

  /** The error of io.ReadFull where `s` comes before the fault and is too short. */
  function Short(s: seq<Byte>, fault: Fault): ReadResult
  {
    if s != [] && fault == Eof then UnexpectedEof else Failed(fault)
  }

  datatype ReadResult = Ok | Failed(fault: Fault) | UnexpectedEof

  /** What one read into a buffer of `max` bytes takes, and what it leaves. */
  datatype Taken = Taken(data: seq<Byte>, r: ReadResult, rest: seq<Item>)

  /** `eager`: an error may come together with the last bytes before it. */
  function Next(items: seq<Item>, eager: bool, max: nat): (t: Taken)
    ensures max > 0 && items != [] ==> Size(t.rest) < Size(items)
    ensures items == [] ==> t == Taken([], Failed(Eof), [])
  {
    if items == [] then Taken([], Failed(Eof), [])
    else if items[0].Fails? then Taken([], Failed(items[0].fault), items[1..])
    else if |items[0].bytes| > max then
      Taken(items[0].bytes[..max], Ok, [Data(items[0].bytes[max..])] + items[1..])
    else if eager && |items| > 1 && items[1].Fails? then
      Taken(items[0].bytes, Failed(items[1].fault), items[2..])
    else Taken(items[0].bytes, Ok, items[1..])
  }

  lemma NextKeeps(items: seq<Item>, eager: bool, max: nat)
    ensures var t := Next(items, eager, max);
      && t.data + Flatten(t.rest) == Flatten(items) && |t.data| <= max && !t.r.UnexpectedEof?
      && (NoFaults(items) ==> NoFaults(t.rest)) && (NoFaults(items) && t.r.Failed? ==> items == [])
  {
    if items != [] && items[0].Data? {
      var bytes := items[0].bytes;
      if |bytes| > max {
        var rest := [Data(bytes[max..])] + items[1..];
        assert rest[1..] == items[1..] && bytes[..max] + bytes[max..] == bytes;
        Regroup(bytes[..max], bytes[max..], Flatten(items[1..]));
      } else if eager && |items| > 1 && items[1].Fails? {
        assert items[1..][1..] == items[2..];
        assert Flatten(items[1..]) == Flatten(items[2..]);
      }
    }
  }

  /** The same for the bytes before the first fault, where faults come alone. */
  lemma NextClear(items: seq<Item>, max: nat)
    ensures var t := Next(items, false, max);
      && (t.r.Ok? ==> t.data + Clear(t.rest) == Clear(items) && FirstFault(t.rest) == FirstFault(items))
      && (!t.r.Ok? ==> t.data == Clear(items) == [] && t.r == Failed(FirstFault(items)))
  {
    if items != [] && items[0].Data? && |items[0].bytes| > max {
      var bytes := items[0].bytes;
      var rest := [Data(bytes[max..])] + items[1..];
      assert rest[1..] == items[1..] && bytes[..max] + bytes[max..] == bytes;
      Regroup(bytes[..max], bytes[max..], Clear(items[1..]));
    }
  }

  /** io.ReadFull up to n bytes with `taken` read before: what it has read, its error and what is left. */
  function Fill(taken: seq<Byte>, items: seq<Item>, eager: bool, n: nat): Taken
    decreases Size(items)
  {
    if |taken| >= n then Taken(taken, Ok, items)
    else
      var t := Next(items, eager, n - |taken|);
      var all := taken + t.data;
      if t.r.Ok? && items != [] then Fill(all, t.rest, eager, n) else Taken(all, Verdict(all, n, t.r), t.rest)
  }

  /** The error of a ReadFull that has read `all` when a read fails with r. */
  function Verdict(all: seq<Byte>, n: nat, r: ReadResult): ReadResult
  {
    if |all| >= n then Ok else if r == Failed(Eof) && all != [] then UnexpectedEof else r
  }

  lemma FillOnce(taken: seq<Byte>, items: seq<Item>, eager: bool, n: nat, t: Taken)
    requires |taken| < n && t == Next(items, eager, n - |taken|)
    ensures var all := taken + t.data;
      Fill(taken, items, eager, n)
      == if t.r.Ok? then Fill(all, t.rest, eager, n) else Taken(all, Verdict(all, n, t.r), t.rest)
    ensures if items == [] then !t.r.Ok? else Size(t.rest) < Size(items)
  {
  }

  lemma {:induction false} FillKeeps(taken: seq<Byte>, items: seq<Item>, eager: bool, n: nat)
    requires |taken| <= n
    ensures var f := Fill(taken, items, eager, n);
      f.data + Flatten(f.rest) == taken + Flatten(items) && |f.data| <= n && (f.r.Ok? <==> |f.data| == n)
    decreases Size(items)
  {
    if |taken| < n {
      var t := Next(items, eager, n - |taken|);
      NextKeeps(items, eager, n - |taken|);
      Regroup(taken, t.data, Flatten(t.rest));
      if t.r.Ok? && items != [] {
        FillKeeps(taken + t.data, t.rest, eager, n);
      }
    }
  }

  lemma {:induction false} FillFaultless(taken: seq<Byte>, items: seq<Item>, eager: bool, n: nat)
    requires |taken| <= n && NoFaults(items)
    ensures var f := Fill(taken, items, eager, n);
      && NoFaults(f.rest)
      && (!f.r.Ok? ==>
            f.rest == [] && f.r == (if taken == [] && Flatten(items) == [] then Failed(Eof) else UnexpectedEof))
    decreases Size(items)
  {
    if |taken| < n {
      var t := Next(items, eager, n - |taken|);
      NextKeeps(items, eager, n - |taken|);
      if items != [] {
        FillFaultless(taken + t.data, t.rest, eager, n);
      } else {
        assert taken + [] == taken;
      }
    }
  }

  lemma {:induction false} FillClear(taken: seq<Byte>, items: seq<Item>, n: nat)
    requires |taken| <= n
    ensures var f := Fill(taken, items, false, n);
      && (f.r.Ok? ==> f.data + Clear(f.rest) == taken + Clear(items) && FirstFault(f.rest) == FirstFault(items))
      && (!f.r.Ok? ==> f.data == taken + Clear(items) && f.r == Short(f.data, FirstFault(items)))
    decreases Size(items)
  {
    if |taken| < n {
      var t := Next(items, false, n - |taken|);
      NextClear(items, n - |taken|);
      Regroup(taken, t.data, Clear(t.rest));
      if t.r.Ok? && items != [] {
        FillClear(taken + t.data, t.rest, n);
      } else {
        assert taken + [] == taken;
      }
    }
  }

  class Conn {
    var items: seq<Item>
    const eager: bool          // an error may come together with the last bytes before it
    var written: seq<Byte>
    var writable: bool

    constructor (items: seq<Item>, eager: bool, writable: bool)
      ensures this.items == items && this.eager == eager && written == [] && this.writable == writable
    {
      this.items, this.eager, this.writable, written := items, eager, writable, [];
    }

    /** Everything the peer has still to deliver. */
    function Rest(): seq<Byte>
      reads this
    {
      Flatten(items)
    }

    method Pop()
      requires items != []
      modifies this`items
      ensures items == old(items)[1..] && Size(items) < Size(old(items))
    {
      items := items[1..];
    }

    /** One read into a buffer of `max` bytes. */
    method Read(max: nat) returns (data: seq<Byte>, r: ReadResult)
      modifies this`items
      ensures Taken(data, r, items) == Next(old(items), eager, max)
      ensures |data| <= max && !r.UnexpectedEof?
      ensures data + Rest() == old(Rest())
      ensures max > 0 && old(items) != [] ==> Size(items) < Size(old(items))
      ensures old(items) == [] ==> items == [] && data == [] && r == Failed(Eof)
      ensures NoFaults(old(items)) ==> NoFaults(items) && (r.Failed? ==> old(items) == [] && r.fault.Eof?)
      ensures r.Ok? && max > 0 && items == [] ==> old(items) != []
      ensures !eager && r.Ok? ==>
                data + Clear(items) == Clear(old(items)) && FirstFault(items) == FirstFault(old(items))
      ensures !eager && !r.Ok? ==> data == Clear(old(items)) == [] && r == Failed(FirstFault(old(items)))
    {
      if items == [] {
        return [], Failed(Eof);
      }
      var head := items[0];
      match head {
        case Fails(fault) =>
          Pop();
          return [], Failed(fault);
        case Data(bytes) =>
          if |bytes| > max {
            data, r := bytes[..max], Ok;
            items := [Data(bytes[max..])] + items[1..];
            assert items[1..] == old(items)[1..];
            assert bytes == data + bytes[max..];
            assert data + Flatten(items) == bytes + Flatten(old(items)[1..]);
            assert data + Clear(items) == bytes + Clear(old(items)[1..]);
          } else {
            data, r := bytes, Ok;
            Pop();
            if eager && items != [] && items[0].Fails? {
              r := Failed(items[0].fault);
              assert Flatten(items) == Flatten(items[1..]);
              Pop();
            }
          }
      }
    }

    method Write(data: seq<Byte>) returns (ok: bool)
      modifies this`written
      ensures ok == writable
      ensures written == old(written) + if ok then data else []
    {
      ok := writable;
      if ok {
        written := written + data;
      }
    }

    /** copy(buf[at:], data) */
    static method Copy(buf: array<Byte>, at: nat, data: seq<Byte>)
      requires at + |data| <= buf.Length
      modifies buf
      ensures buf[..at + |data|] == old(buf[..at]) + data
      ensures buf[at + |data|..] == old(buf[at + |data|..])
    {
      forall i | 0 <= i < |data| {
        buf[at + i] := data[i];
      }
    }

    /** io.ReadFull(c, buf[:n]) */
    method ReadFull(buf: array<Byte>, n: nat) returns (r: ReadResult)
      requires n <= buf.Length
      modifies this`items, buf
      ensures buf[n..] == old(buf[n..])
      ensures r.Ok? ==> buf[..n] + Rest() == old(Rest())
      ensures NoFaults(old(items)) ==> NoFaults(items)
      ensures NoFaults(old(items)) ==> (r.Ok? <==> n <= |old(Rest())|)
      ensures NoFaults(old(items)) && !r.Ok? ==>
                r == (if old(Rest()) == [] then Failed(Eof) else UnexpectedEof) && items == []
      ensures !eager ==> (r.Ok? <==> n <= |Clear(old(items))|)
      ensures !eager && r.Ok? ==> ClearFrom(buf[..n], old(items))
      ensures !eager && !r.Ok? ==> r == Short(Clear(old(items)), FirstFault(old(items)))
    {
      FillKeeps([], items, eager, n);
      if NoFaults(items) {
        FillFaultless([], items, eager, n);
      }
      if !eager {
        FillClear([], items, n);
      }
      ghost var f := Fill([], items, eager, n);
      assert [] + Rest() == Rest() && [] + Clear(items) == Clear(items);
      r := ReadUntilFull(buf, n);
      assert |f.data + Flatten(f.rest)| == |f.data| + |Flatten(f.rest)|;
      assert |f.data + Clear(f.rest)| == |f.data| + |Clear(f.rest)|;
      assert f.rest == [] ==> Flatten(f.rest) == [];
    }

    /** One read into buf[got:n]. */
    method ReadInto(buf: array<Byte>, got: nat, n: nat) returns (k: nat, r: ReadResult, ghost taken: seq<Byte>)
      requires got < n <= buf.Length
      modifies this`items, buf
      ensures got + k <= n && buf[..got + k] == taken && buf[n..] == old(buf[n..])
      ensures old(items) == [] ==> !r.Ok?
      ensures old(items) != [] ==> Size(items) < Size(old(items))
      ensures Fill(old(buf[..got]), old(items), eager, n)
              == if r.Ok? then Fill(taken, items, eager, n) else Taken(taken, Verdict(taken, n, r), items)
    {
      ghost var before, was := buf[..got], items;
      ghost var data;
      k, r, data := ReadSome(buf, got, n);
      taken := before + data;
      FillOnce(before, was, eager, n, Taken(data, r, items));
    }

    method ReadSome(buf: array<Byte>, got: nat, n: nat) returns (k: nat, r: ReadResult, ghost data: seq<Byte>)
      requires got < n <= buf.Length
      modifies this`items, buf
      ensures Taken(data, r, items) == Next(old(items), eager, n - got)
      ensures k == |data| && got + k <= n && buf[..got + k] == old(buf[..got]) + data && buf[n..] == old(buf[n..])
    {
      var bytes;
      bytes, r := Read(n - got);
      k, data := |bytes|, bytes;
      Copy(buf, got, bytes);
      assert buf[n..] == buf[got + k..][n - got - k..];
    }

    method ReadUntilFull(buf: array<Byte>, n: nat) returns (r: ReadResult)
      requires n <= buf.Length
      modifies this`items, buf
      ensures buf[n..] == old(buf[n..])
      ensures var f := Fill([], old(items), eager, n);
        |f.data| <= n && buf[..|f.data|] == f.data && r == f.r && items == f.rest
    {
      var got := 0;
      ghost var taken: seq<Byte> := [];
      FillKeeps([], items, eager, n);
      while got < n
        invariant got == |taken| <= n && buf[..got] == taken && buf[n..] == old(buf[n..])
        invariant Fill(taken, items, eager, n) == Fill([], old(items), eager, n)
        decreases Size(items)
      {
        var k;
        k, r, taken := ReadInto(buf, got, n);
        got := got + k;
        if !r.Ok? {
          return if got >= n then Ok else if r == Failed(Eof) && got > 0 then UnexpectedEof else r;
        }
      }
      return Ok;
    }

    /** These bytes, and what is still to come before the same fault, are what came before it. */
    predicate ClearFrom(taken: seq<Byte>, was: seq<Item>)
      reads this
    {
      taken + Clear(items) == Clear(was) && FirstFault(items) == FirstFault(was)
    }
  }

  // ---------------------------------------------------------------------------
  // Writers that may take only part of what they are given.

  datatype Taking = Taking(n: nat, fails: bool)

  /** A write after which writeAll goes on: no error, and some of the bytes taken. */
  predicate GoesOn(t: Taking) { !t.fails && t.n > 0 }

  /** Of the writes `was`, those before `now` have been made: each of them went on, apart from the
      last one if things ended there. */
  predicate Used(was: seq<Taking>, now: seq<Taking>, ok: bool)
  {
    && |now| <= |was| && now == was[|was| - |now|..] && (ok || |now| < |was|)
    && forall i | 0 <= i < |was| - |now| :: GoesOn(was[i]) <==> (ok || i < |was| - |now| - 1)
  }

  lemma UsedMore(was: seq<Taking>, mid: seq<Taking>, now: seq<Taking>, ok: bool)
    requires Used(was, mid, true) && Used(mid, now, ok)
    ensures Used(was, now, ok)
  {
    forall i | 0 <= i < |was| - |now|
      ensures GoesOn(was[i]) <==> (ok || i < |was| - |now| - 1)
    {
      if i >= |was| - |mid| {
        assert was[i] == mid[i - (|was| - |mid|)];
      }
    }
  }

  class Sink {
    var data: seq<Byte>
    var script: seq<Taking>

    constructor (script: seq<Taking>)
      ensures data == [] && this.script == script
    {
      data, this.script := [], script;
    }

    method Write(b: seq<Byte>) returns (n: nat, failed: bool)
      modifies this
      ensures n <= |b| && data == old(data) + b[..n]
      ensures old(script) == [] ==> n == |b| && !failed && script == []
      ensures old(script) != [] ==> script == old(script)[1..] && failed == old(script)[0].fails
      ensures old(script) != [] ==> n == if old(script)[0].n < |b| then old(script)[0].n else |b|
    {
      if script == [] {
        data := data + b;
        assert b[..|b|] == b;
        return |b|, false;
      }
      n, failed := if script[0].n < |b| then script[0].n else |b|, script[0].fails;
      data := data + b[..n];
      script := script[1..];
    }
  }

  /** writeAll: everything, in order, or exactly the prefix it reports; it gives up at the first write that
      fails or takes nothing, and not at one that is merely short. */
  method WriteAll(w: Sink, b: seq<Byte>) returns (total: nat, ok: bool)
    modifies w
    ensures total <= |b| && w.data == old(w.data) + b[..total]
    ensures ok ==> total == |b|
    ensures Used(old(w.script), w.script, ok)
  {
    var rest := b;
    total := 0;
    while |rest| > 0
      invariant total <= |b| && rest == b[total..]
      invariant w.data == old(w.data) + b[..total]
      invariant Used(old(w.script), w.script, true)
    {
      ghost var mid := w.script;
      var n, failed := w.Write(rest);
      UsedMore(old(w.script), mid, w.script, !failed && n > 0);
      assert b[..total] + rest[..n] == b[..total + n];
      assert rest[n..] == b[total + n..];
      total := total + n;
      rest := rest[n..];
      if failed {
        return total, false;
      }
      if n == 0 {
        return total, false;
      }
    }
    return total, true;
  }

  /** One direction of pipeBoth, with a buffer of `size` bytes: what arrives is what was read, in
      order and without a gap, and a direction that ends with the source has delivered all that came
      before the source's first fault. `sent` and `lost` name the bytes taken from the source that
      arrived and that did not. */
  method Pump(dst: Sink, src: Conn, size: nat) returns (ended: bool, ghost sent: seq<Byte>, ghost lost: seq<Byte>)
    requires size > 0
    modifies dst, src`items
    ensures dst.data == old(dst.data) + sent
    ensures sent + lost + src.Rest() == old(src.Rest())
    ensures ended ==> lost == []
    ensures ended && NoFaults(old(src.items)) ==> src.Rest() == []
    ensures ended ==> sent == Clear(old(src.items))
    ensures sent + lost <= Clear(old(src.items))
    ensures Used(old(dst.script), dst.script, ended)
  {
    sent, lost := [], [];
    while true
      invariant dst.data == old(dst.data) + sent
      invariant sent + src.Rest() == old(src.Rest())
      invariant NoFaults(old(src.items)) ==> NoFaults(src.items)
      invariant sent + Clear(src.items) == Clear(old(src.items))
      invariant Used(old(dst.script), dst.script, true)
      decreases Size(src.items)
    {
      ghost var rest, was, mid := src.Rest(), src.items, dst.script;
      var data, r := src.Read(size);
      ghost var clear := if r.Ok? then Clear(src.items) else [];
      NextSends(was, src.eager, size);
      var n, ok := |data|, true;
      if |data| > 0 {
        n, ok := WriteAll(dst, data);
      }
      AppendSent(old(dst.data), sent, data, n, rest, src.Rest());
      AppendSent(old(dst.data), sent, data, n, Clear(was), clear);
      UsedMore(old(dst.script), mid, dst.script, ok);
      sent := sent + data[..n];
      if !ok {
        lost := data[n..];
        assert sent + lost <= sent + lost + clear;
        return false, sent, lost;
      }
      assert data[n..] == [] && sent + [] == sent;
      if !r.Ok? {
        return true, sent, lost;
      }
    }
  }

  lemma NextSends(items: seq<Item>, eager: bool, max: nat)
    ensures var t := Next(items, eager, max);
      Clear(items) == t.data + if t.r.Ok? then Clear(t.rest) else []
  {
    NextClear(items, max);
    var t := Next(items, eager, max);
    if t.r.Ok? {
      assert t == Next(items, false, max);
    } else {
      assert t.data + [] == t.data;
      if items != [] && items[0].Data? {
        assert Clear(items[1..]) == [];
      }
    }
  }

  lemma AppendSent(base: seq<Byte>, sent: seq<Byte>, data: seq<Byte>, n: nat, rest: seq<Byte>, rest': seq<Byte>)
    requires n <= |data| && data + rest' == rest
    ensures (base + sent) + data[..n] == base + (sent + data[..n])
    ensures (sent + data[..n]) + data[n..] + rest' == sent + rest
  {
    assert data[..n] + data[n..] == data;
    assert (sent + data[..n]) + data[n..] == sent + data;
  }
}
