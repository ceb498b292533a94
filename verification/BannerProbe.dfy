/** Probing a transport for the SSH banner and replaying what the probe consumed. */
module BannerProbe {
  import opened Seqs
  import opened Streams

  const MARK: seq<Byte> := [83, 83, 72, 45]     // "SSH-"
  const MAX_BYTES: nat := 64 * 1024
  const CHUNK: nat := 2048

  predicate MarkAt(s: seq<Byte>, i: nat) { i + 4 <= |s| && s[i..i + 4] == MARK }

  /** strings.Index(s, "SSH-"), -1 if there is none. */
  function Index(s: seq<Byte>): (r: int)
    ensures -1 <= r && r + 4 <= |s| + 4
    ensures r >= 0 ==> MarkAt(s, r) && forall i | 0 <= i < r :: !MarkAt(s, i)
    ensures r < 0 ==> forall i: nat :: !MarkAt(s, i)
  {
    FirstMark(s, 0)
  }

  function FirstMark(s: seq<Byte>, from: nat): (r: int)
    requires forall i | 0 <= i < from :: !MarkAt(s, i)
    ensures -1 <= r <= |s|
    ensures r >= 0 ==> MarkAt(s, r) && forall i | 0 <= i < r :: !MarkAt(s, i)
    ensures r < 0 ==> forall i: nat :: !MarkAt(s, i)
    decreases |s| - from
  {
    if from + 4 > |s| then -1 else if MarkAt(s, from) then from else FirstMark(s, from + 1)
  }

  predicate Contains(s: seq<Byte>) { Index(s) >= 0 }

  /** What the whole stream shows first, a prefix that contains it shows at the same place. */
  lemma FirstInPrefix(a: seq<Byte>, b: seq<Byte>)
    requires Contains(a)
    ensures Index(a + b) == Index(a)
  {
    forall i: nat | i + 4 <= |a|
      ensures MarkAt(a + b, i) <==> MarkAt(a, i)
    {
      assert (a + b)[i..i + 4] == a[i..i + 4];
    }
    assert MarkAt(a + b, Index(a));
  }

  // ---------------------------------------------------------------------------

  datatype ProbeError = NoError | NothingReceived | ReadFailed

  datatype Probed = Probed(out: seq<Byte>, err: ProbeError, rest: seq<Item>)

  function Ending(out: seq<Byte>): ProbeError { if out == [] then NothingReceived else NoError }

  /** readProbe on what the connection delivers, with `out` read before: until the mark has been seen,
      the time is up, the peer has closed or enough has been read. */
  function Probe(out: seq<Byte>, items: seq<Item>, eager: bool): Probed
    decreases Size(items)
  {
    if |out| >= MAX_BYTES then Probed(out, Ending(out), items)
    else
      var t := Next(items, eager, CHUNK);
      var all := out + t.data;
      if t.data != [] && Contains(all) then Probed(all, NoError, t.rest)
      else if t.r.Ok? && items != [] then Probe(all, t.rest, eager)
      else if t.r == Failed(Timeout) || t.r == Failed(Eof) then Probed(all, Ending(all), t.rest)
      else Probed(all, ReadFailed, t.rest)
  }

  /** Nothing is dropped: the result and the rest make up the stream. */
  lemma {:induction false} ProbeKeepsStream(out: seq<Byte>, items: seq<Item>, eager: bool)
    ensures var p := Probe(out, items, eager); p.out + Flatten(p.rest) == out + Flatten(items)
    decreases Size(items)
  {
    if |out| < MAX_BYTES {
      var t := Next(items, eager, CHUNK);
      NextKeeps(items, eager, CHUNK);
      Regroup(out, t.data, Flatten(t.rest));
      if !(t.data != [] && Contains(out + t.data)) && t.r.Ok? && items != [] {
        ProbeKeepsStream(out + t.data, t.rest, eager);
      }
    }
  }

  lemma {:induction false} ProbeErrors(out: seq<Byte>, items: seq<Item>, eager: bool)
    requires !Contains(out) && |out| < MAX_BYTES + CHUNK
    ensures ErrorsFit(Probe(out, items, eager))
    decreases Size(items)
  {
    if |out| < MAX_BYTES {
      var t := Next(items, eager, CHUNK);
      NextKeeps(items, eager, CHUNK);
      var all := out + t.data;
      assert t.data == [] ==> all == out;
      assert |all| < MAX_BYTES + CHUNK;
      if !(t.data != [] && Contains(all)) && t.r.Ok? && items != [] {
        ProbeErrors(all, t.rest, eager);
      }
    }
  }

  predicate ErrorsFit(p: Probed)
  {
    (Contains(p.out) ==> p.err.NoError?) && (p.err.NoError? ==> p.out != []) && |p.out| < MAX_BYTES + CHUNK
  }

  /** Without faults only the mark, the size or the end of the stream ends the probe. */
  lemma {:induction false} ProbeEnds(out: seq<Byte>, items: seq<Item>, eager: bool)
    requires NoFaults(items)
    ensures var p := Probe(out, items, eager); Contains(p.out) || Flatten(p.rest) == [] || |p.out| >= MAX_BYTES
    decreases Size(items)
  {
    if |out| < MAX_BYTES {
      var t := Next(items, eager, CHUNK);
      NextKeeps(items, eager, CHUNK);
      if !(t.data != [] && Contains(out + t.data)) && t.r.Ok? && items != [] {
        ProbeEnds(out + t.data, t.rest, eager);
      }
    }
  }

  /** What is reported where a fault ends the probe: the time and the end of the stream are no failures of a read. */
  function AtFault(out: seq<Byte>, f: Fault): ProbeError
  {
    if f.Broken? then ReadFailed else if out == [] then NothingReceived else NoError
  }

  /** A stream without the mark, and not too long, is read up to its fault. */
  lemma {:induction false} ProbeToFault(out: seq<Byte>, items: seq<Item>)
    requires !Contains(out + Clear(items)) && |out + Clear(items)| < MAX_BYTES
    ensures var p := Probe(out, items, false);
      p.out == out + Clear(items) && p.err == AtFault(p.out, FirstFault(items))
    decreases Size(items)
  {
    var t := Next(items, false, CHUNK);
    NextClear(items, CHUNK);
    if t.r.Ok? {
      Regroup(out, t.data, Clear(t.rest));
      if Contains(out + t.data) {
        FirstInPrefix(out + t.data, Clear(t.rest));
        assert false;
      }
      assert items != [];
      ProbeToFault(out + t.data, t.rest);
    } else {
      assert out + [] == out;
    }
  }

  lemma NoEarlyMark()
    ensures !Contains([])
  {
  }

  method ReadProbe(c: Conn) returns (out: seq<Byte>, err: ProbeError)
    modifies c`items
    ensures Probed(out, err, c.items) == Probe([], old(c.items), c.eager)
    ensures out + c.Rest() == old(c.Rest())
    ensures Contains(out) ==> err.NoError?
    ensures err.NoError? ==> out != []
    ensures |out| < 67584
    ensures NoFaults(old(c.items)) && !Contains(out) ==> c.Rest() == [] || |out| >= 65536
    ensures !c.eager && !Contains(Clear(old(c.items))) && |Clear(old(c.items))| < 65536 ==>
              out == Clear(old(c.items)) && err == AtFault(out, FirstFault(old(c.items)))
  {
    NoEarlyMark();
    ProbeKeepsStream([], c.items, c.eager);
    ProbeErrors([], c.items, c.eager);
    if NoFaults(c.items) {
      ProbeEnds([], c.items, c.eager);
    }
    assert [] + Clear(c.items) == Clear(c.items);
    if !c.eager && !Contains(Clear(c.items)) && |Clear(c.items)| < MAX_BYTES {
      ProbeToFault([], c.items);
    }
    out, err := ReadUntilProbed(c);
  }

  method ReadUntilProbed(c: Conn) returns (out: seq<Byte>, err: ProbeError)
    modifies c`items
    ensures Probed(out, err, c.items) == Probe([], old(c.items), c.eager)
  {
    out := [];
    ghost var whole := Probe([], c.items, c.eager);
    while |out| < MAX_BYTES
      invariant Probe(out, c.items, c.eager) == whole
      decreases Size(c.items)
    {
      var data, r := c.Read(CHUNK);
      out := out + data;
      if |data| > 0 {
        if Contains(out) {
          return out, NoError;
        }
      }
      if r.Failed? {
        if r.fault.Timeout? || r.fault.Eof? {
          return out, if |out| == 0 then NothingReceived else NoError;
        }
        return out, ReadFailed;
      }
    }
    if |out| == 0 {
      return out, NothingReceived;
    }
    return out, NoError;
  }

  /** A first chunk without the mark, and then the time is up. */
  lemma ProbeCutShort(first: seq<Byte>, later: seq<Item>)
    requires 0 < |first| <= CHUNK && !Contains(first)
    ensures Probe([], [Data(first), Fails(Timeout)] + later, false) == Probed(first, NoError, later)
  {
    var items := [Data(first), Fails(Timeout)] + later;
    var t := Next(items, false, CHUNK);
    assert t == Taken(first, Ok, items[1..]);
    assert [] + first == first;
    var u := Next(items[1..], false, CHUNK);
    assert u == Taken([], Failed(Timeout), items[2..]) && items[2..] == later;
    assert first + [] == first;
    assert Probe(first, items[1..], false) == Probed(first, NoError, later);
  }

  // ---------------------------------------------------------------------------

  predicate IsSpace(b: Byte) { b == 32 || 9 <= b <= 13 }

  function TrimLeft(s: seq<Byte>): (r: seq<Byte>)
    ensures r != [] ==> !IsSpace(r[0])
  {
    if s != [] && IsSpace(s[0]) then TrimLeft(s[1..]) else s
  }

  function TrimRight(s: seq<Byte>): (r: seq<Byte>)
    ensures r != [] ==> s != [] && r[0] == s[0]
    ensures s != [] && !IsSpace(s[0]) ==> r != []
  {
    if s != [] && IsSpace(s[|s| - 1]) then TrimRight(s[..|s| - 1]) else s
  }

  function TrimSpace(s: seq<Byte>): seq<Byte> { TrimRight(TrimLeft(s)) }

  lemma TrimKeepsStart(s: seq<Byte>)
    requires s != [] && !IsSpace(s[0])
    ensures TrimSpace(s) != [] && TrimSpace(s)[0] == s[0]
  {
  }

  /** The first place where one of the line ends stands, or -1. */
  function LineEnd(s: seq<Byte>, crlf: bool, from: nat): (r: int)
    ensures r >= 0 ==> from <= r < |s| && (if crlf then s[r] == 13 else s[r] == 10)
    decreases |s| - from
  {
    if from >= |s| then -1
    else if if crlf then s[from] == 13 && from + 1 < |s| && s[from + 1] == 10 else s[from] == 10 then from
    else LineEnd(s, crlf, from + 1)
  }

  /** extractSSHBanner */
  function Banner(s: seq<Byte>): seq<Byte>
  {
    if Index(s) < 0 then []
    else
      var tail := s[Index(s)..];
      var crlf, lf := LineEnd(tail, true, 0), LineEnd(tail, false, 0);
      if crlf >= 0 then TrimSpace(tail[..crlf])
      else if lf >= 0 then TrimSpace(tail[..lf])
      else if |tail| > 120 then TrimSpace(tail[..120])
      else TrimSpace(tail)
  }

  // ------------------------------------------------------------ HTTP statuses

  const HTTP: seq<Byte> := [72, 84, 84, 80, 47]   // "HTTP/"
  const LF: Byte := 10

  /** The pieces between line feeds. */
  function Lines(s: seq<Byte>): seq<seq<Byte>>
  {
    var at := LineEnd(s, false, 0);
    if at < 0 then [s] else [s[..at]] + Lines(s[at + 1..])
  }

  /** The first run of non-space, and what follows it. */
  function Word(s: seq<Byte>): seq<Byte>
  {
    if s == [] || IsSpace(s[0]) then [] else [s[0]] + Word(s[1..])
  }

  function AfterWord(s: seq<Byte>): seq<Byte>
  {
    if s == [] || IsSpace(s[0]) then s else AfterWord(s[1..])
  }

  function Decimal(digits: seq<Byte>): Option<nat>
  {
    if digits == [] then Some(0)
    else
      var front, last := Decimal(digits[..|digits| - 1]), digits[|digits| - 1];
      if front.None? || !(48 <= last <= 57) then None else Some(front.value * 10 + (last - 48))
  }

  /** strconv.Atoi: an optional sign, at least one digit, within 64 bits. */
  function Atoi(word: seq<Byte>): Option<int>
  {
    var signed := word != [] && (word[0] == 43 || word[0] == 45);
    var digits := if signed then word[1..] else word;
    var n := Decimal(digits);
    if digits == [] || n.None? then None
    else
      var v := if signed && word[0] == 45 then 0 - n.value as int else n.value as int;
      if -0x8000_0000_0000_0000 <= v < 0x8000_0000_0000_0000 then Some(v) else None
  }

  /** The status that a line announces. A CR before the line feed goes with the trimming. */
  function StatusOf(line: seq<Byte>): Option<int>
  {
    var t := TrimSpace(line);
    if !(HTTP <= t) then None else Atoi(Word(TrimLeft(AfterWord(t))))
  }

  function StatusesOf(lines: seq<seq<Byte>>): seq<int>
  {
    if lines == [] then []
    else
      var front := StatusesOf(lines[..|lines| - 1]);
      var status := StatusOf(lines[|lines| - 1]);
      if status.Some? then front + [status.value] else front
  }

  function Statuses(s: seq<Byte>): seq<int> { StatusesOf(Lines(s)) }

  lemma NextStatus(lines: seq<seq<Byte>>, i: nat)
    requires i < |lines|
    ensures StatusesOf(lines[..i + 1])
            == match StatusOf(lines[i]) case Some(n) => StatusesOf(lines[..i]) + [n] case None => StatusesOf(lines[..i])
  {
    assert lines[..i + 1][..i] == lines[..i];
  }

  method ExtractHttpStatuses(s: seq<Byte>) returns (out: seq<int>)
    ensures out == Statuses(s)
  {
    var lines := Lines(s);
    out := [];
    var i := 0;
    while i < |lines|
      invariant 0 <= i <= |lines|
      invariant out == StatusesOf(lines[..i])
    {
      NextStatus(lines, i);
      match StatusOf(lines[i]) {
        case Some(n) => out := out + [n];
        case None =>
      }
      i := i + 1;
    }
    assert lines[..i] == lines;
  }

  /** An empty list allows everything. */
  method AllowedStatuses(got: seq<int>, allowed: seq<int>) returns (ok: bool)
    ensures ok <==> allowed == [] || forall i | 0 <= i < |got| :: got[i] in allowed
  {
    if |got| == 0 || |allowed| == 0 {
      return true;
    }
    var known: set<int> := {};
    var i := 0;
    while i < |allowed|
      invariant 0 <= i <= |allowed|
      invariant forall n :: n in known <==> n in allowed[..i]
    {
      known := known + {allowed[i]};
      i := i + 1;
    }
    assert allowed[..i] == allowed;
    assert forall n :: n in known <==> n in allowed;
    i := 0;
    while i < |got|
      invariant 0 <= i <= |got|
      invariant forall k | 0 <= k < i :: got[k] in allowed
    {
      if got[i] !in known {
        return false;
      }
      i := i + 1;
    }
    return true;
  }

  predicate Disallowed(probe: seq<Byte>, allowed: seq<int>)
  {
    allowed != [] && exists i | 0 <= i < |Statuses(probe)| :: Statuses(probe)[i] !in allowed
  }

  /** The two conditions for replaying are one: a banner is found exactly when the mark is there. */
  lemma BannerIffMark(s: seq<Byte>)
    ensures Banner(s) != [] <==> Contains(s)
  {
    if Contains(s) {
      var tail := s[Index(s)..];
      assert s[Index(s)..Index(s) + 4] == MARK;
      assert tail[..4] == MARK;
      assert tail[0] == 83 && tail[0] == tail[..4][0];
      var crlf, lf := LineEnd(tail, true, 0), LineEnd(tail, false, 0);
      if crlf >= 0 {
        TrimKeepsStart(tail[..crlf]);
      } else if lf >= 0 {
        TrimKeepsStart(tail[..lf]);
      } else if |tail| > 120 {
        TrimKeepsStart(tail[..120]);
      } else {
        TrimKeepsStart(tail);
      }
    }
  }

  // ---------------------------------------------------------------------------

  class PrefixConn {
    var prefix: seq<Byte>
    const conn: Conn

    constructor (conn: Conn, prefix: seq<Byte>)
      ensures this.conn == conn && this.prefix == prefix
    {
      this.conn, this.prefix := conn, prefix;
    }

    function Rest(): seq<Byte>
      reads this, conn
    {
      prefix + conn.Rest()
    }

    /** The reads that are left for a caller with room in its buffers, at most. */
    function Left(): nat
      reads this, conn
    {
      |prefix| + Size(conn.items)
    }

    method ReadPrefix(max: nat) returns (data: seq<Byte>)
      modifies this`prefix
      ensures data + prefix == old(prefix) && data + Rest() == old(Rest())
      ensures |data| == if max < |old(prefix)| then max else |old(prefix)|
    {
      var n := if |prefix| < max then |prefix| else max;
      data := prefix[..n];
      CutOff(prefix, n, conn.Rest());
      prefix := prefix[n..];
    }

    /** Never a byte lost, repeated or reordered, whatever the size of the caller's buffer: the prefix first, and
        behind it exactly what the connection itself would deliver. */
    method Read(max: nat) returns (data: seq<Byte>, r: ReadResult)
      modifies this`prefix, conn`items
      ensures |data| <= max && data + Rest() == old(Rest())
      ensures old(prefix) != [] ==>
                conn.items == old(conn.items) && r.Ok? && data + prefix == old(prefix)
                && |data| == if max < |old(prefix)| then max else |old(prefix)|
      ensures old(prefix) == [] ==> prefix == [] && Taken(data, r, conn.items) == Next(old(conn.items), conn.eager, max)
      ensures Left() <= old(Left()) && (max > 0 && old(Left()) > 0 ==> Left() < old(Left()))
    {
      if |prefix| > 0 {
        data := ReadPrefix(max);
        r := Ok;
      } else {
        NextShrinks(conn.items, conn.eager, max);
        data, r := conn.Read(max);
        assert prefix + conn.Rest() == conn.Rest();
      }
    }
  }

  lemma CutOff(prefix: seq<Byte>, n: nat, rest: seq<Byte>)
    requires n <= |prefix|
    ensures prefix[..n] + prefix[n..] == prefix && prefix[..n] + (prefix[n..] + rest) == prefix + rest
  {
  }

  lemma NextShrinks(items: seq<Item>, eager: bool, max: nat)
    ensures var t := Next(items, eager, max); |t.data| + Size(t.rest) <= Size(items)
  {
    if items != [] && items[0].Data? {
      var bytes := items[0].bytes;
      if |bytes| > max {
        var rest := [Data(bytes[max..])] + items[1..];
        assert rest[1..] == items[1..];
      } else if eager && |items| > 1 && items[1].Fails? {
        assert items[1..][1..] == items[2..];
      }
    }
  }

  lemma NothingLeft(items: seq<Item>)
    requires Size(items) == 0
    ensures Flatten(items) == []
  {
  }

  /** How the transport goes on after the probe: with the replay in front, as it is, or not at all. */
  datatype Prepared = Replaying(p: PrefixConn) | Plain | Rejected

  datatype Decision = Replay | GoOn | Reject

  /** The statuses are judged before the banner is looked at. */
  method Judge(probe: seq<Byte>, allowed: seq<int>) returns (d: Decision)
    ensures d.Replay? <==> !Disallowed(probe, allowed) && Contains(probe)
    ensures d.GoOn? <==> !Disallowed(probe, allowed) && !Contains(probe) && Statuses(probe) != []
  {
    var statuses := ExtractHttpStatuses(probe);
    var fine := AllowedStatuses(statuses, allowed);
    if |statuses| > 0 && !fine {
      return Reject;
    }
    BannerIffMark(probe);
    if Banner(probe) != [] && Index(probe) >= 0 {
      return Replay;
    }
    return if |statuses| > 0 then GoOn else Reject;
  }

  /** openPreparedSSHConn from the probe on. */
  method Prepare(c: Conn, allowed: seq<int>) returns (r: Prepared, ghost p: Probed)
    modifies c`items
    ensures p == Probe([], old(c.items), c.eager) && c.items == p.rest && p.out + c.Rest() == old(c.Rest())
    ensures r.Replaying? <==> p.err.NoError? && !Disallowed(p.out, allowed) && Contains(p.out)
    ensures r.Plain? <==> p.err.NoError? && !Disallowed(p.out, allowed) && !Contains(p.out) && Statuses(p.out) != []
    ensures r.Replaying? ==> fresh(r.p) && r.p.conn == c && Contains(old(c.Rest()))
                             && r.p.Rest() == old(c.Rest())[Index(old(c.Rest()))..]
  {
    var all, err := ReadProbe(c);
    p := Probed(all, err, c.items);
    if !err.NoError? {
      return Rejected, p;
    }
    var d := Judge(all, allowed);
    if d.Replay? {
      var idx := Index(all);
      FirstInPrefix(all, c.Rest());
      assert (all + c.Rest())[idx..] == all[idx..] + c.Rest();
      var q := new PrefixConn(c, all[idx..]);
      return Replaying(q), p;
    }
    return if d.GoOn? then Plain else Rejected, p;
  }

  predicate AllPositive(sizes: seq<nat>) { forall i | 0 <= i < |sizes| :: sizes[i] > 0 }

  /** Reads with buffers of the given sizes, one after another. */
  method ReadSizes(p: PrefixConn, sizes: seq<nat>) returns (got: seq<Byte>)
    modifies p`prefix, p.conn`items
    ensures got + p.Rest() == old(p.Rest())
    ensures AllPositive(sizes) && |sizes| >= old(p.Left()) ==> got == old(p.Rest()) && p.Rest() == []
  {
    got := [];
    for i := 0 to |sizes|
      invariant got + p.Rest() == old(p.Rest())
      invariant AllPositive(sizes) ==> p.Left() == 0 || p.Left() + i <= old(p.Left())
    {
      var data, e := p.Read(sizes[i]);
      Regroup(got, data, p.Rest());
      got := got + data;
    }
    if p.Left() == 0 {
      NothingLeft(p.conn.items);
      assert got + [] == got;
    }
  }

  lemma {:induction false} ProbeShrinks(out: seq<Byte>, items: seq<Item>, eager: bool)
    ensures var p := Probe(out, items, eager); |p.out| + Size(p.rest) <= |out| + Size(items)
    decreases Size(items)
  {
    if |out| < MAX_BYTES {
      var t := Next(items, eager, CHUNK);
      NextShrinks(items, eager, CHUNK);
      if !(t.data != [] && Contains(out + t.data)) && t.r.Ok? && items != [] {
        ProbeShrinks(out + t.data, t.rest, eager);
      }
    }
  }

  /** Banner replay loses nothing: whatever the chunks of the peer and the buffers of the reader, what is read after a
      probe that found the mark is the peer's stream from its first mark on, and all of it once the reads are as many
      as the chunks and bytes that the peer delivers. */
  method ProbeThenRead(c: Conn, allowed: seq<int>, sizes: seq<nat>) returns (r: Prepared, got: seq<Byte>)
    modifies c`items
    ensures r.Replaying? ==> Contains(old(c.Rest())) && r.p.conn == c
                             && got + r.p.Rest() == old(c.Rest())[Index(old(c.Rest()))..]
    ensures r.Replaying? && AllPositive(sizes) && |sizes| >= Size(old(c.items)) ==>
              got == old(c.Rest())[Index(old(c.Rest()))..]
  {
    ghost var p;
    ProbeShrinks([], c.items, c.eager);
    r, p := Prepare(c, allowed);
    got := [];
    if r.Replaying? {
      got := ReadSizes(r.p, sizes);
    }
  }

  // ---------------------------------------------------------------------------
  // The plain case: an allowed HTTP status and no mark within the probe.

  /** The probe ends in "S", "SS" or "SSH". */
  predicate EndsInMark(probe: seq<Byte>)
  {
    exists k | 1 <= k <= 3 :: |probe| >= k && probe[|probe| - k..] == MARK[..k]
  }

  lemma MarkWithin(probe: seq<Byte>, rest: seq<Byte>, i: nat)
    requires MarkAt(probe + rest, i)
    ensures i + 4 <= |probe| ==> MarkAt(probe, i)
    ensures i < |probe| < i + 4 ==> probe[i..] == MARK[..|probe| - i]
  {
    var s := probe + rest;
    if i + 4 <= |probe| {
      assert probe[i..i + 4] == s[i..i + 4];
    } else if i < |probe| {
      var k := |probe| - i;
      assert s[i..i + 4][..k] == s[i..i + k] == probe[i..];
    }
  }

  lemma EarlyMarkEnds(probe: seq<Byte>, rest: seq<Byte>, i: nat)
    requires !Contains(probe) && MarkAt(probe + rest, i) && i < |probe|
    ensures EndsInMark(probe)
  {
    MarkWithin(probe, rest, i);
    var k := |probe| - i;
    assert 1 <= k <= 3 && probe[|probe| - k..] == MARK[..k];
  }

  lemma EndCompletes(probe: seq<Byte>, k: nat)
    requires 1 <= k <= 3 && |probe| >= k && probe[|probe| - k..] == MARK[..k]
    ensures MarkAt(probe + MARK[k..], |probe| - k)
  {
    var j := |probe| - k;
    assert (probe + MARK[k..])[j..j + 4] == probe[j..] + MARK[k..];
    assert MARK == MARK[..k] + MARK[k..];
  }

  /** Whatever follows, going on without a replay keeps the first mark of the stream. */
  ghost predicate KeepsEveryMark(probe: seq<Byte>)
  {
    forall rest | Contains(probe + rest) :: Index(probe + rest) >= |probe|
  }

  lemma EndLosesMark(probe: seq<Byte>)
    requires EndsInMark(probe)
    ensures exists rest :: Contains(probe + rest) && Index(probe + rest) < |probe|
  {
    var k :| 1 <= k <= 3 && |probe| >= k && probe[|probe| - k..] == MARK[..k];
    var rest := MARK[k..];
    EndCompletes(probe, k);
    assert Contains(probe + rest) && Index(probe + rest) < |probe|;
  }

  lemma OtherEndKeepsMark(probe: seq<Byte>, rest: seq<Byte>)
    requires !Contains(probe) && !EndsInMark(probe) && Contains(probe + rest)
    ensures Index(probe + rest) >= |probe|
  {
    if Index(probe + rest) < |probe| {
      EarlyMarkEnds(probe, rest, Index(probe + rest));
    }
  }

  /** That holds exactly for the probes that do not end in a beginning of the mark. */
  lemma PlainKeepsMark(probe: seq<Byte>)
    requires !Contains(probe)
    ensures KeepsEveryMark(probe) <==> !EndsInMark(probe)
  {
    if EndsInMark(probe) {
      EndLosesMark(probe);
    } else {
      forall rest | Contains(probe + rest)
        ensures Index(probe + rest) >= |probe|
      {
        OtherEndKeepsMark(probe, rest);
      }
    }
  }

  // "HTTP/1.1 200 OK\r\n\r\nSS", and what the peer sends later, "H-2.0".
  const STATUS_LINE: seq<Byte> := [72, 84, 84, 80, 47, 49, 46, 49, 32, 50, 48, 48, 32, 79, 75, 13]
  const CUT: seq<Byte> := STATUS_LINE + [10] + ([13] + [10] + [83, 83])
  const LATER: seq<Byte> := [72, 45, 50, 46, 48]

  lemma NextLine(line: seq<Byte>, rest: seq<Byte>)
    requires LF !in line
    ensures Lines(line + [LF] + rest) == [line] + Lines(rest)
  {
    var s := line + [LF] + rest;
    FirstLineEnd(s, 0, |line|);
    assert s[..|line|] == line && s[|line| + 1..] == rest;
  }

  lemma {:induction false} FirstLineEnd(s: seq<Byte>, from: nat, at: nat)
    requires from <= at < |s| && s[at] == LF && LF !in s[from..at]
    ensures LineEnd(s, false, from) == at
    decreases at - from
  {
    if from < at {
      assert s[from] == s[from..at][0];
      assert forall b | b in s[from + 1..at] :: b in s[from..at];
      FirstLineEnd(s, from + 1, at);
    }
  }

  lemma {:induction false} NoLineEnd(s: seq<Byte>, from: nat)
    requires LF !in s
    ensures LineEnd(s, false, from) < 0
    decreases |s| - from
  {
    if from < |s| {
      assert s[from] in s;
      NoLineEnd(s, from + 1);
    }
  }

  // ------------------------------------------------------------ the loss happens

  lemma LastLine(line: seq<Byte>)
    requires LF !in line
    ensures Lines(line) == [line]
  {
    NoLineEnd(line, 0);
  }

  lemma CutLines()
    ensures Lines(CUT) == [STATUS_LINE, [13], [83, 83]]
  {
    var tail: seq<Byte> := [83, 83];
    var blank: seq<Byte> := [13];
    LastLine(tail);
    NextLine(blank, tail);
    NextLine(STATUS_LINE, blank + [LF] + tail);
    assert CUT == STATUS_LINE + [LF] + (blank + [LF] + tail);
  }

  lemma Trimmed(body: seq<Byte>)
    requires body != [] && !IsSpace(body[0]) && !IsSpace(body[|body| - 1])
    ensures TrimSpace(body + [13]) == body
  {
    var s := body + [13];
    assert TrimLeft(s) == s;
    assert s[..|s| - 1] == body;
    assert TrimRight(body) == body;
  }

  lemma {:induction false} WordBeforeSpace(word: seq<Byte>, rest: seq<Byte>)
    requires (forall b | b in word :: !IsSpace(b)) && rest != [] && IsSpace(rest[0])
    ensures Word(word + rest) == word && AfterWord(word + rest) == rest
  {
    if word == [] {
      assert word + rest == rest;
    } else {
      assert word[0] in word;
      assert (word + rest)[1..] == word[1..] + rest;
      WordBeforeSpace(word[1..], rest);
    }
  }

  lemma TwoHundred()
    ensures Atoi([50, 48, 48]) == Some(200)
  {
    var d: seq<Byte> := [50, 48, 48];
    assert d[..2] == [50, 48] && d[..2][..1] == [50] && d[..2][..1][..0] == [];
    assert Decimal([50]) == Some(2);
    assert Decimal([50, 48]) == Some(20);
  }

  /** "HTTP/1.1", "200" and " OK". */
  const VERSION: seq<Byte> := [72, 84, 84, 80, 47, 49, 46, 49]
  const CODE: seq<Byte> := [50, 48, 48]
  const REASON: seq<Byte> := [32, 79, 75]

  lemma AnnouncesStatus(version: seq<Byte>, code: seq<Byte>, reason: seq<Byte>)
    requires HTTP <= version && forall b | b in version :: !IsSpace(b)
    requires code != [] && forall b | b in code :: !IsSpace(b)
    requires reason != [] && IsSpace(reason[0]) && !IsSpace(reason[|reason| - 1])
    ensures StatusOf(version + ([32] + (code + reason)) + [13]) == Atoi(code)
  {
    var body := version + ([32] + (code + reason));
    assert version[0] in version && body[0] == version[0] && body[|body| - 1] == reason[|reason| - 1];
    Trimmed(body);
    assert HTTP <= body;
    WordBeforeSpace(version, [32] + (code + reason));
    AfterOneSpace(code + reason);
    WordBeforeSpace(code, reason);
  }

  lemma AfterOneSpace(s: seq<Byte>)
    requires s != [] && !IsSpace(s[0])
    ensures TrimLeft([32] + s) == s
  {
    assert ([32] + s)[1..] == s;
  }

  lemma StatusLineIs200()
    ensures StatusOf(STATUS_LINE) == Some(200)
  {
    assert HTTP <= VERSION by { assert VERSION[..5] == HTTP; }
    AnnouncesStatus(VERSION, CODE, REASON);
    assert STATUS_LINE == VERSION + ([32] + (CODE + REASON)) + [13];
    TwoHundred();
  }

  lemma {:induction false} TrimLeftShortens(s: seq<Byte>)
    ensures |TrimLeft(s)| <= |s|
  {
    if s != [] && IsSpace(s[0]) {
      TrimLeftShortens(s[1..]);
    }
  }

  lemma {:induction false} TrimRightShortens(s: seq<Byte>)
    ensures |TrimRight(s)| <= |s|
  {
    if s != [] && IsSpace(s[|s| - 1]) {
      TrimRightShortens(s[..|s| - 1]);
    }
  }

  lemma ShortHasNoStatus(line: seq<Byte>)
    requires |line| < |HTTP|
    ensures StatusOf(line) == None
  {
    TrimLeftShortens(line);
    TrimRightShortens(TrimLeft(line));
    assert |TrimSpace(line)| < |HTTP|;
  }

  lemma OneStatus(a: seq<Byte>, b: seq<Byte>, c: seq<Byte>)
    requires StatusOf(a).Some? && StatusOf(b) == None && StatusOf(c) == None
    ensures StatusesOf([a, b, c]) == [StatusOf(a).value]
  {
    var lines := [a, b, c];
    assert lines[..2] == [a, b] && [a, b][..1] == [a];
    assert StatusesOf([a]) == [StatusOf(a).value] by {
      assert [a][..0] == [];
    }
    assert StatusesOf([a, b]) == StatusesOf([a]);
  }

  lemma CutStatuses()
    ensures Statuses(CUT) == [200]
  {
    CutLines();
    StatusLineIs200();
    ShortHasNoStatus([13]);
    ShortHasNoStatus([83, 83]);
    OneStatus(STATUS_LINE, [13], [83, 83]);
  }

  lemma CutHasNoMark()
    ensures !Contains(CUT)
  {
    forall i: nat
      ensures !MarkAt(CUT, i)
    {
      if i + 4 <= |CUT| {
        assert CUT[i..i + 4][3] == CUT[i + 3] && CUT[i + 3] != 45;
      }
    }
  }

  lemma CutStreamHasMark()
    ensures MarkAt(CUT + LATER, |CUT| - 2)
  {
    assert |CUT| == 21;
    assert (CUT + LATER)[19..23] == MARK;
  }

  /** A response that the time limit cuts inside the mark: its status is allowed, the transport goes on
      as it is, and the first mark of the stream is never seen. */
  method LosesTheMark() returns (r: Prepared, c: Conn)
    ensures r.Plain? && c.Rest() == LATER && !KeepsEveryMark(CUT) && Contains(CUT + LATER)
  {
    c := new Conn([Data(CUT), Fails(Timeout), Data(LATER)], false, true);
    CutHasNoMark();
    ProbeCutShort(CUT, [Data(LATER)]);
    assert [Data(CUT), Fails(Timeout)] + [Data(LATER)] == c.items;
    CutStatuses();
    ghost var p;
    r, p := Prepare(c, [101, 200, 204, 302]);
    assert p.out == CUT && c.items == [Data(LATER)];
    assert Flatten([Data(LATER)][1..]) == [];
    assert c.Rest() == LATER + [] == LATER;
    CutStreamHasMark();
  }
}
