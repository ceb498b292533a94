/** The two SOCKS5 parties of the daemon: the server on its local port and the client it uses
    itself, as sections 3 to 6 of RFC 1928 describe them. */
module Socks5 {
  import opened Seqs
  import opened Streams
  import Udpgw

  datatype Host = Ipv4(four: seq<Byte>) | Domain(name: seq<Byte>) | Ipv6(sixteen: seq<Byte>)

  datatype Error =
    | ReadError(r: ReadResult)
    | WriteError
    | BadVersion(v: Byte)
    | NoMethods
    | BadCommand(c: Byte)
    | BadAddressType(t: Byte)
    | EmptyDomain
    | HostTooLong
    | AuthRejected
    | ConnectFailed(code: Byte)

  /** The target of a request, or why there is none. */
  datatype Outcome = Target(host: Host, port: nat) | Refused(e: Error)

  const NO_AUTH: seq<Byte> := [5, 0]

  function Reply(rep: Byte): seq<Byte> { [5, rep, 0, 1, 0, 0, 0, 0, 0, 0] }

  // ---------------------------------------------------------------------------
  // Reading at a position of a stream.

  /** How a stream ends: with its items, at a fault that comes alone, or in a way that depends on
      the reads, since an error that comes with the last byte asked for goes unnoticed. */
  datatype Kind = Whole | Cut(fault: Fault) | Eager

  function KindOf(c: Conn): Kind
    reads c
  {
    if NoFaults(c.items) then Whole else if c.eager then Eager else Cut(FirstFault(c.items))
  }

  /** The bytes that a connection can deliver: up to the fault where that can be told. */
  function StreamOf(c: Conn): seq<Byte>
    reads c
  {
    if KindOf(c).Cut? then Clear(c.items) else c.Rest()
  }

  ghost predicate At(c: Conn, s: seq<Byte>, at: nat, k: Kind)
    reads c
  {
    && at <= |s|
    && (k.Whole? ==> NoFaults(c.items))
    && (k.Cut? ==> !c.eager && FirstFault(c.items) == k.fault)
    && s[at..] == Left(c, k)
  }

  function Behind(k: Kind): Fault { if k.Cut? then k.fault else Eof }

  function Shortage(s: seq<Byte>, fault: Fault): Error { ReadError(Short(s, fault)) }

  lemma AtStart(c: Conn)
    ensures At(c, StreamOf(c), 0, KindOf(c))
  {
    assert StreamOf(c)[0..] == StreamOf(c);
  }

  /** What c can still deliver. */
  function Left(c: Conn, k: Kind): seq<Byte>
    reads c
  {
    if k.Cut? then Clear(c.items) else c.Rest()
  }

  lemma TooShort(s: seq<Byte>, at: nat, n: nat)
    requires at <= |s| && |s[at..]| < n
    ensures |s| < at + n && s[|s|..] == []
  {
  }

  /** ReadFull at position `at` of the stream s. */
  method Take(c: Conn, buf: array<Byte>, n: nat, ghost s: seq<Byte>, ghost at: nat, ghost k: Kind)
      returns (r: ReadResult)
    requires n <= buf.Length && At(c, s, at, k)
    modifies c`items, buf
    ensures r.Ok? ==> at + n <= |s| && buf[..n] == s[at..at + n] && At(c, s, at + n, k)
    ensures !k.Eager? && !r.Ok? ==> |s| < at + n && ReadError(r) == Shortage(s[at..], Behind(k))
    ensures k.Whole? && !r.Ok? ==> At(c, s, |s|, k)
  {
    ghost var before := Left(c, k);
    r := c.ReadFull(buf, n);
    if r.Ok? {
      assert buf[..n] + Left(c, k) == before;
      Advance(s, at, buf[..n], Left(c, k));
    } else if |before| < n {
      TooShort(s, at, n);
    }
  }

  lemma Advance(s: seq<Byte>, pos: nat, data: seq<Byte>, rest: seq<Byte>)
    requires pos <= |s| && data + rest == s[pos..]
    ensures pos + |data| <= |s| && data == s[pos..pos + |data|] && rest == s[pos + |data|..]
  {
    assert (data + rest)[|data|..] == rest && (data + rest)[..|data|] == data;
    assert s[pos..][|data|..] == s[pos + |data|..] && s[pos..][..|data|] == s[pos..pos + |data|];
  }

  // ---------------------------------------------------------------------------
  // The server.

  /** What the server makes of the client's bytes: the outcome, the number of bytes consumed and
      the bytes it writes. */
  datatype Served = Served(outcome: Outcome, used: nat, wrote: seq<Byte>)

  function AfterAddress(s: seq<Byte>, at: nat, host: Host, f: Fault): Served
    requires at <= |s|
  {
    if |s| < at + 2 then Served(Refused(Shortage(s[at..], f)), |s|, [])
    else Served(Target(host, Udpgw.Uint16(s[at], s[at + 1])), at + 2, [])
  }

  function HostOf(b: seq<Byte>, atyp: Byte): Host
  {
    if atyp == 1 then Ipv4(b) else if atyp == 3 then Domain(b) else Ipv6(b)
  }

  /** An address of n bytes. */
  function RawAddress(s: seq<Byte>, at: nat, n: nat, atyp: Byte, f: Fault): Served
    requires at <= |s|
  {
    if |s| < at + n then Served(Refused(Shortage(s[at..], f)), |s|, [])
    else AfterAddress(s, at + n, HostOf(s[at..at + n], atyp), f)
  }

  function DomainAddress(s: seq<Byte>, at: nat, f: Fault): Served
    requires at <= |s|
  {
    if |s| < at + 1 then Served(Refused(Shortage(s[at..], f)), |s|, [])
    else if s[at] == 0 then Served(Refused(EmptyDomain), at + 1, [])
    else RawAddress(s, at + 1, s[at], 3, f)
  }

  function AfterMethods(s: seq<Byte>, at: nat, f: Fault): Served
    requires at <= |s|
  {
    if |s| < at + 4 then Served(Refused(Shortage(s[at..], f)), |s|, [])
    else if s[at] != 5 then Served(Refused(BadVersion(s[at])), at + 4, [])
    else if s[at + 1] != 1 then Served(Refused(BadCommand(s[at + 1])), at + 4, Reply(7))
    else AddressOf(s, at + 4, s[at + 3], f)
  }

  function AddressOf(s: seq<Byte>, at: nat, atyp: Byte, f: Fault): Served
    requires at <= |s|
  {
    if atyp == 1 then RawAddress(s, at, 4, 1, f)
    else if atyp == 3 then DomainAddress(s, at, f)
    else if atyp == 4 then RawAddress(s, at, 16, 4, f)
    else Served(Refused(BadAddressType(atyp)), at, Reply(8))
  }

  /** `f` is the fault behind the bytes; `w`: the client takes what is written. */
  function Serve(s: seq<Byte>, f: Fault, w: bool): Served
  {
    if |s| < 2 then Served(Refused(Shortage(s, f)), |s|, [])
    else if s[0] != 5 then Served(Refused(BadVersion(s[0])), 2, [])
    else if s[1] == 0 then Served(Refused(NoMethods), 2, [])
    else if |s| < 2 + s[1] as nat then Served(Refused(Shortage(s[2..], f)), |s|, [])
    else if !w then Served(Refused(WriteError), 2 + s[1] as nat, [])
    else
      var v := AfterMethods(s, 2 + s[1] as nat, f);
      v.(wrote := NO_AUTH + v.wrote)
  }

  lemma RawStands(s: seq<Byte>, t: seq<Byte>, at: nat, n: nat, atyp: Byte, f: Fault, g: Fault)
    requires at <= |s| && RawAddress(s, at, n, atyp, f).outcome.Target?
    ensures RawAddress(s + t, at, n, atyp, g) == RawAddress(s, at, n, atyp, f)
  {
    assert (s + t)[at..at + n] == s[at..at + n];
  }

  lemma MethodsStand(s: seq<Byte>, t: seq<Byte>, at: nat, f: Fault, g: Fault)
    requires at <= |s| && AfterMethods(s, at, f).outcome.Target?
    ensures AfterMethods(s + t, at, g) == AfterMethods(s, at, f)
  {
    var atyp := s[at + 3];
    if atyp == 3 {
      RawStands(s, t, at + 5, s[at + 4], 3, f, g);
    } else {
      RawStands(s, t, at + 4, if atyp == 1 then 4 else 16, atyp, f, g);
    }
  }

  /** A target means that the whole request came before any fault and that the client takes what is
      written; what comes after it, a fault included, changes nothing. */
  lemma TargetStands(s: seq<Byte>, t: seq<Byte>, f: Fault, g: Fault, w: bool)
    requires Serve(s, f, w).outcome.Target?
    ensures w && Serve(s + t, g, w) == Serve(s, f, w) && Serve(s, f, w).used <= |s|
  {
    MethodsStand(s, t, 2 + s[1] as nat, f, g);
  }

  /** The outcome is that of `v` and the connection stands where `v` ends. Only an error of a read
      may differ where the stream does not tell, and only such an error loses the position. */
  ghost predicate Settled(c: Conn, s: seq<Byte>, k: Kind, v: Served, o: Outcome)
    reads c
  {
    var failed := o.Refused? && o.e.ReadError?;
    && (!failed || !k.Eager? ==> o == v.outcome)
    && (!failed || k.Whole? ==> At(c, s, v.used, k))
  }

  /** The bytes written are those of `v`, unless a read error comes where the stream does not tell. */
  ghost predicate Wrote(c: Conn, before: seq<Byte>, k: Kind, v: Served, o: Outcome)
    reads c
  {
    (k.Eager? && o.Refused? && o.e.ReadError?) || c.written == before + v.wrote
  }

  method ReadPort(c: Conn, buf: array<Byte>, host: Host, ghost s: seq<Byte>, ghost at: nat, ghost k: Kind)
      returns (o: Outcome)
    requires buf.Length == 262 && At(c, s, at, k)
    modifies c`items, buf
    ensures Settled(c, s, k, AfterAddress(s, at, host, Behind(k)), o)
  {
    var r := Take(c, buf, 2, s, at, k);
    if !r.Ok? {
      return Refused(ReadError(r));
    }
    Header(buf[..2], s, at, 2);
    assert buf[0] == buf[..2][0] && buf[1] == buf[..2][1];
    return Target(host, Udpgw.Uint16(buf[0], buf[1]));
  }

  method ReadRaw(c: Conn, buf: array<Byte>, n: nat, atyp: Byte, ghost s: seq<Byte>, ghost at: nat, ghost k: Kind)
      returns (o: Outcome)
    requires buf.Length == 262 && n <= 255 && At(c, s, at, k)
    modifies c`items, buf
    ensures Settled(c, s, k, RawAddress(s, at, n, atyp, Behind(k)), o)
  {
    var r := Take(c, buf, n, s, at, k);
    if !r.Ok? {
      return Refused(ReadError(r));
    }
    var b := buf[..n];
    RawRead(s, at, n, atyp, Behind(k), b);
    o := ReadPort(c, buf, HostOf(b, atyp), s, at + n, k);
  }

  lemma RawRead(s: seq<Byte>, at: nat, n: nat, atyp: Byte, f: Fault, b: seq<Byte>)
    requires at + n <= |s| && b == s[at..at + n]
    ensures RawAddress(s, at, n, atyp, f) == AfterAddress(s, at + n, HostOf(b, atyp), f)
  {
  }

  method ReadDomain(c: Conn, buf: array<Byte>, ghost s: seq<Byte>, ghost at: nat, ghost k: Kind) returns (o: Outcome)
    requires buf.Length == 262 && At(c, s, at, k)
    modifies c`items, buf
    ensures Settled(c, s, k, DomainAddress(s, at, Behind(k)), o)
  {
    var r := Take(c, buf, 1, s, at, k);
    if !r.Ok? {
      return Refused(ReadError(r));
    }
    assert buf[0] == buf[..1][0] == s[at..at + 1][0] == s[at];
    var l := buf[0];
    if l <= 0 {
      return Refused(EmptyDomain);
    }
    o := ReadRaw(c, buf, l, 3, s, at + 1, k);
  }

  method ReadAddress(c: Conn, buf: array<Byte>, atyp: Byte, ghost s: seq<Byte>, ghost at: nat, ghost k: Kind)
      returns (o: Outcome)
    requires buf.Length == 262 && At(c, s, at, k) && c.writable
    modifies c`items, c`written, buf
    ensures Settled(c, s, k, AddressOf(s, at, atyp, Behind(k)), o)
    ensures Wrote(c, old(c.written), k, AddressOf(s, at, atyp, Behind(k)), o)
  {
    match atyp {
      case 1 => o := ReadRaw(c, buf, 4, 1, s, at, k);
      case 3 => o := ReadDomain(c, buf, s, at, k);
      case 4 => o := ReadRaw(c, buf, 16, 4, s, at, k);
      case _ =>
        var _ := c.Write(Reply(8));
        o := Refused(BadAddressType(atyp));
    }
  }

  lemma Header(b: seq<Byte>, s: seq<Byte>, at: nat, n: nat)
    requires at + n <= |s| && b == s[at..at + n]
    ensures forall i | 0 <= i < n :: b[i] == s[at + i]
  {
  }

  /** From the request header on. */
  method ReadRequest(c: Conn, buf: array<Byte>, ghost s: seq<Byte>, ghost at: nat, ghost k: Kind) returns (o: Outcome)
    requires buf.Length == 262 && At(c, s, at, k) && c.writable
    modifies c`items, c`written, buf
    ensures Settled(c, s, k, AfterMethods(s, at, Behind(k)), o)
    ensures Wrote(c, old(c.written), k, AfterMethods(s, at, Behind(k)), o)
  {
    var r := Take(c, buf, 4, s, at, k);
    assert c.written + [] == c.written;
    if !r.Ok? {
      return Refused(ReadError(r));
    }
    Header(buf[..4], s, at, 4);
    assert buf[0] == buf[..4][0] && buf[1] == buf[..4][1] && buf[3] == buf[..4][3];
    var version, command, atyp := buf[0], buf[1], buf[3];
    if version != 5 {
      return Refused(BadVersion(version));
    }
    if command != 1 {
      var _ := c.Write(Reply(7));
      return Refused(BadCommand(command));
    }
    o := ReadAddress(c, buf, atyp, s, at + 4, k);
  }

  /** The greeting: whether it is refused, and how many bytes it has. */
  method ReadGreeting(c: Conn, buf: array<Byte>, ghost s: seq<Byte>, ghost k: Kind)
      returns (refused: Outcome, ghost at: nat)
    requires buf.Length == 262 && At(c, s, 0, k)
    modifies c`items, buf
    ensures refused.Target? ==> |s| >= 2 && s[0] == 5 && 0 < s[1] && at == 2 + s[1] as nat && At(c, s, at, k)
    ensures refused.Refused? ==> Settled(c, s, k, Serve(s, Behind(k), c.writable), refused)
    ensures refused.Refused? && !(k.Eager? && refused.e.ReadError?) ==> Serve(s, Behind(k), c.writable).wrote == []
  {
    at := 0;
    assert s[0..] == s;
    var r := Take(c, buf, 2, s, 0, k);
    if !r.Ok? {
      return Refused(ReadError(r)), at;
    }
    Header(buf[..2], s, 0, 2);
    assert buf[0] == buf[..2][0] && buf[1] == buf[..2][1];
    if buf[0] != 5 {
      return Refused(BadVersion(buf[0])), at;
    }
    var nmethods := buf[1];
    if nmethods < 1 {
      return Refused(NoMethods), at;
    }
    r := Take(c, buf, nmethods, s, 2, k);
    if !r.Ok? {
      return Refused(ReadError(r)), at;
    }
    return Target(Domain([]), 0), 2 + nmethods as nat;
  }

  /** socks5Handshake: one buffer of 262 bytes, reused for every field. The outcome, the bytes
      consumed and the bytes written are those of Serve, however the client's bytes are chunked,
      wherever a fault comes and whether or not the client can be written to. */
  method Handshake(c: Conn) returns (o: Outcome)
    modifies c`items, c`written
    ensures var s := old(StreamOf(c)); var k := old(KindOf(c)); var v := Serve(s, Behind(k), c.writable);
      Settled(c, s, k, v, o) && Wrote(c, old(c.written), k, v, o)
  {
    ghost var s, k := StreamOf(c), KindOf(c);
    AtStart(c);
    var buf := new Byte[262](_ => 0);
    ghost var at;
    o, at := ReadGreeting(c, buf, s, k);
    assert c.written + [] == c.written;
    if o.Refused? {
      return;
    }
    var ok := c.Write(NO_AUTH);
    if !ok {
      return Refused(WriteError);
    }
    o := ReadRequest(c, buf, s, at, k);
    Regroup(old(c.written), NO_AUTH, AfterMethods(s, at, Behind(k)).wrote);
  }

  // ---------------------------------------------------------------------------
  // The client.

  const GREETING: seq<Byte> := [5, 1, 0]

  ghost function Request(host: seq<Byte>, port: int): seq<Byte>
    requires |host| <= 255
  {
    [5, 1, 0, 3, |host|] + host + Udpgw.Big16(port)
  }

  /** How readSOCKS5ConnectReply reads the reply: an error, or the number of bytes consumed. */
  datatype Connected = Connected(used: nat) | Rejected(e: Error)

  function SkipReply(s: seq<Byte>, at: nat, skip: nat, f: Fault): Connected
    requires at <= |s|
  {
    if |s| < at + skip + 2 then Rejected(ReadError(Failed(f))) else Connected(at + skip + 2)
  }

  function ReadReply(s: seq<Byte>, at: nat, f: Fault): Connected
    requires at <= |s|
  {
    if |s| < at + 4 then Rejected(Shortage(s[at..], f))
    else if s[at] != 5 then Rejected(BadVersion(s[at]))
    else if s[at + 1] != 0 then Rejected(ConnectFailed(s[at + 1]))
    else SkipByType(s, at + 4, s[at + 3], f)
  }

  function SkipByType(s: seq<Byte>, at: nat, atyp: Byte, f: Fault): Connected
    requires at <= |s|
  {
    if atyp == 1 then SkipReply(s, at, 4, f)
    else if atyp == 3 then (if |s| < at + 1 then Rejected(Shortage([], f)) else SkipReply(s, at + 1, s[at], f))
    else if atyp == 4 then SkipReply(s, at, 16, f)
    else Rejected(BadAddressType(atyp))
  }

  /** What the client makes of the server's bytes before it sends its payload. */
  function Dial(host: seq<Byte>, s: seq<Byte>, f: Fault, w: bool): Connected
  {
    if !w then Rejected(WriteError)
    else if |s| < 2 then Rejected(Shortage(s, f))
    else if s[0] != 5 || s[1] != 0 then Rejected(AuthRejected)
    else if |host| > 255 then Rejected(HostTooLong)
    else ReadReply(s, 2, f)
  }

  /** No error where `d` connects, and the connection stands behind the reply; else the error of
      `d`. Only an error of a read may differ where the stream does not tell. */
  ghost predicate Replied(c: Conn, s: seq<Byte>, k: Kind, d: Connected, err: seq<Error>)
    reads c
  {
    && (!k.Eager? || err == [] || !err[0].ReadError? ==> err == if d.Rejected? then [d.e] else [])
    && (err == [] ==> d.Connected? && At(c, s, d.used, k))
  }

  /** io.CopyN to nowhere. */
  method Discard(c: Conn, n: nat, ghost s: seq<Byte>, ghost at: nat, ghost k: Kind) returns (r: ReadResult)
    requires At(c, s, at, k)
    modifies c`items
    ensures r.Ok? ==> At(c, s, at + n, k)
    ensures !k.Eager? && !r.Ok? ==> |s| < at + n && r == Failed(Behind(k))
  {
    var left: nat := n;
    ghost var pos: nat := at;
    r := Ok;
    while left > 0 && r.Ok?
      invariant pos + left == at + n
      invariant r.Ok? || left == 0 ==> At(c, s, pos, k)
      invariant !k.Eager? && !r.Ok? ==> left > 0 && pos == |s| && r == Failed(Behind(k))
      decreases Size(c.items), if r.Ok? then 1 else 0
    {
      var data;
      data, r := c.Read(left);
      SkipData(c, s, pos, data, k, r);
      pos := pos + |data|;
      left := left - |data|;
    }
    if left == 0 {
      r := Ok;
    }
  }

  lemma SkipData(c: Conn, s: seq<Byte>, pos: nat, data: seq<Byte>, k: Kind, r: ReadResult)
    requires pos <= |s|
    requires k.Cut? && !r.Ok? ==> data == [] && s[pos..] == []
    requires !(k.Cut? && !r.Ok?) ==> s[pos..] == data + Left(c, k)
    ensures pos + |data| <= |s|
    ensures !(k.Cut? && !r.Ok?) ==> s[pos + |data|..] == Left(c, k)
  {
    if !(k.Cut? && !r.Ok?) {
      Advance(s, pos, data, Left(c, k));
    }
  }

  /** readSOCKS5ConnectReply */
  method ReadConnectReply(c: Conn, ghost s: seq<Byte>, ghost at: nat, ghost k: Kind) returns (err: seq<Error>)
    requires At(c, s, at, k)
    modifies c`items
    ensures Replied(c, s, k, ReadReply(s, at, Behind(k)), err)
  {
    var head := new Byte[4](_ => 0);
    var r := Take(c, head, 4, s, at, k);
    if !r.Ok? {
      return [ReadError(r)];
    }
    Header(head[..4], s, at, 4);
    assert head[..4][0] == head[0] && head[..4][1] == head[1] && head[..4][3] == head[3];
    if head[0] != 5 {
      return [BadVersion(head[0])];
    }
    if head[1] != 0 {
      return [ConnectFailed(head[1])];
    }
    err := SkipBound(c, head[3], s, at + 4, k);
  }

  /** The address that the server was bound to, and its port. */
  method SkipBound(c: Conn, atyp: Byte, ghost s: seq<Byte>, ghost at: nat, ghost k: Kind) returns (err: seq<Error>)
    requires At(c, s, at, k)
    modifies c`items
    ensures Replied(c, s, k, SkipByType(s, at, atyp, Behind(k)), err)
  {
    var skip: nat := 0;
    ghost var from: nat := at;
    match atyp {
      case 1 => skip := 4;
      case 3 =>
        var l := new Byte[1](_ => 0);
        var r := Take(c, l, 1, s, at, k);
        if !r.Ok? {
          return [ReadError(r)];
        }
        assert l[..1][0] == s[at];
        skip, from := l[0], at + 1;
      case 4 => skip := 16;
      case _ => return [BadAddressType(atyp)];
    }
    err := SkipAddress(c, skip, s, from, k);
  }

  method SkipAddress(c: Conn, skip: nat, ghost s: seq<Byte>, ghost at: nat, ghost k: Kind) returns (err: seq<Error>)
    requires At(c, s, at, k)
    modifies c`items
    ensures Replied(c, s, k, SkipReply(s, at, skip, Behind(k)), err)
  {
    if skip > 0 {
      var r := Discard(c, skip, s, at, k);
      if !r.Ok? {
        return [ReadError(r)];
      }
    }
    assert SkipReply(s, at, skip, Behind(k)) == SkipReply(s, at + skip, 0, Behind(k));
    err := SkipPort(c, s, at + skip, k);
  }

  method SkipPort(c: Conn, ghost s: seq<Byte>, ghost at: nat, ghost k: Kind) returns (err: seq<Error>)
    requires At(c, s, at, k)
    modifies c`items
    ensures Replied(c, s, k, SkipReply(s, at, 0, Behind(k)), err)
  {
    var r := Discard(c, 2, s, at, k);
    return if r.Ok? then [] else [ReadError(r)];
  }

  /** The server's choice of a method. */
  method ReadChoice(c: Conn, ghost s: seq<Byte>, ghost k: Kind) returns (err: seq<Error>)
    requires At(c, s, 0, k)
    modifies c`items
    ensures err == [] ==> |s| >= 2 && s[0] == 5 && s[1] == 0 && At(c, s, 2, k)
    ensures err != [] ==> forall host :: Replied(c, s, k, Dial(host, s, Behind(k), true), err)
  {
    assert s[0..] == s;
    var reply := new Byte[2](_ => 0);
    var r := Take(c, reply, 2, s, 0, k);
    if !r.Ok? {
      return [ReadError(r)];
    }
    Header(reply[..2], s, 0, 2);
    assert reply[..2][0] == reply[0] && reply[..2][1] == reply[1];
    return if reply[0] != 5 || reply[1] != 0 then [AuthRejected] else [];
  }

  /** The SOCKS part of fetchHTTPViaLocalSOCKS. */
  method DialThrough(c: Conn, host: seq<Byte>, port: int) returns (err: seq<Error>)
    modifies c`items, c`written
    ensures var s := old(StreamOf(c)); var k := old(KindOf(c));
      Replied(c, s, k, Dial(host, s, Behind(k), c.writable), err)
    ensures err == [] ==> |host| <= 255 && c.written == old(c.written) + (GREETING + Request(host, port))
  {
    ghost var s, k := StreamOf(c), KindOf(c);
    AtStart(c);
    var ok := c.Write(GREETING);
    if !ok {
      return [WriteError];
    }
    err := ReadChoice(c, s, k);
    if err != [] {
      return;
    }
    if |host| > 255 {
      return [HostTooLong];
    }
    var hi, lo := Udpgw.PutUint16(port);
    ok := c.Write([5, 1, 0, 3, |host|] + host + [hi, lo]);
    Regroup(old(c.written), GREETING, Request(host, port));
    if !ok {
      return [WriteError];
    }
    err := ReadConnectReply(c, s, 2, k);
  }

  // ---------------------------------------------------------------------------
  // Both together.

  /** Whether the request format can carry a name and a port. */
  predicate Carried(host: seq<Byte>, port: int) { 1 <= |host| <= 255 && 0 <= port < 0x1_0000 }

  lemma ServeName(s: seq<Byte>, l: nat, f: Fault)
    requires 1 <= l <= 255 && |s| >= 10 + l
    requires s[0] == 5 && s[1] == 1 && s[3] == 5 && s[4] == 1 && s[6] == 3 && s[7] == l
    ensures Serve(s, f, true) == Served(Target(Domain(s[8..8 + l]), Udpgw.Uint16(s[8 + l], s[9 + l])), 10 + l, NO_AUTH)
  {
    assert AfterMethods(s, 3, f) == DomainAddress(s, 7, f) == RawAddress(s, 8, l, 3, f);
  }

  lemma RequestBytes(host: seq<Byte>, port: int, payload: seq<Byte>)
    requires |host| <= 255
    ensures var s := GREETING + Request(host, port) + payload; var l := |host|;
      && |s| == 10 + l + |payload| && s[0] == 5 && s[1] == 1 && s[3] == 5 && s[4] == 1 && s[6] == 3 && s[7] == l
      && s[8..8 + l] == host && [s[8 + l], s[9 + l]] == Udpgw.Big16(port) && s[10 + l..] == payload
  {
    var s := GREETING + Request(host, port) + payload;
    assert s[..3] == GREETING && s[3..8] == [5, 1, 0, 3, |host|];
    assert s[3] == s[3..8][0] && s[4] == s[3..8][1] && s[6] == s[3..8][3] && s[7] == s[3..8][4];
    assert s[8 + |host|..10 + |host|] == Udpgw.Big16(port);
  }

  lemma ServeRequest(host: seq<Byte>, port: int, payload: seq<Byte>, f: Fault)
    requires 1 <= |host| <= 255
    ensures Serve(GREETING + Request(host, port) + payload, f, true)
            == Served(Target(Domain(host), port % 0x1_0000), 10 + |host|, NO_AUTH)
  {
    RequestBytes(host, port, payload);
    ServeName(GREETING + Request(host, port) + payload, |host|, f);
  }

  /** The server recovers name and port exactly when the format can carry them; it consumes the
      handshake and nothing of what follows. */
  lemma ServerRoundTrip(host: seq<Byte>, port: int, payload: seq<Byte>, f: Fault)
    requires |host| <= 255
    ensures var v := Serve(GREETING + Request(host, port) + payload, f, true);
      && (0 <= port && v.outcome == Target(Domain(host), port) <==> Carried(host, port))
      && (Carried(host, port) ==> (GREETING + Request(host, port) + payload)[v.used..] == payload && v.wrote == NO_AUTH)
  {
    RequestBytes(host, port, payload);
    if |host| > 0 {
      ServeRequest(host, port, payload, f);
    }
  }

  /** The client accepts the server's answer exactly when the reply code is 0, and leaves the
      first byte behind the handshake for its payload. */
  lemma ClientRoundTrip(host: seq<Byte>, rep: Byte, payload: seq<Byte>, f: Fault)
    requires |host| <= 255
    ensures var s := NO_AUTH + Reply(rep) + payload; var d := Dial(host, s, f, true);
      && (d.Connected? <==> rep == 0)
      && (d.Connected? ==> s[d.used..] == payload)
  {
    var s := NO_AUTH + Reply(rep) + payload;
    assert s[2..] == Reply(rep) + payload;
    assert s[12..] == payload;
  }

  method ServerSide(server: Conn, host: seq<Byte>, port: int, up: seq<Byte>) returns (o: Outcome)
    requires Carried(host, port) && NoFaults(server.items) && server.writable
    requires server.Rest() == GREETING + Request(host, port) + up
    modifies server`items, server`written
    ensures o == Target(Domain(host), port) && server.Rest() == up && server.written == old(server.written) + NO_AUTH
  {
    ServerRoundTrip(host, port, up, Eof);
    o := Handshake(server);
  }

  method ClientSide(client: Conn, host: seq<Byte>, port: int, down: seq<Byte>) returns (err: seq<Error>)
    requires Carried(host, port) && NoFaults(client.items) && client.writable
    requires client.Rest() == NO_AUTH + Reply(0) + down
    modifies client`items, client`written
    ensures err == [] && client.Rest() == down
            && client.written == old(client.written) + (GREETING + Request(host, port))
  {
    ClientRoundTrip(host, 0, down, Eof);
    err := DialThrough(client, host, port);
  }

  /** Both parties on one connection: the server answers code 0 to what the client wrote, the
      client accepts it, and each leaves exactly the other's payload unread. */
  method TwoParties(client: Conn, server: Conn, host: seq<Byte>, port: int, up: seq<Byte>, down: seq<Byte>)
    returns (o: Outcome, err: seq<Error>)
    requires client != server && Carried(host, port)
    requires NoFaults(client.items) && client.writable && client.written == []
    requires NoFaults(server.items) && server.writable && server.written == []
    requires server.Rest() == GREETING + Request(host, port) + up
    requires client.Rest() == NO_AUTH + Reply(0) + down
    modifies client`items, client`written, server`items, server`written
    ensures o == Target(Domain(host), port) && err == []
    ensures server.Rest() == up && client.Rest() == down
    ensures server.written + Reply(0) == NO_AUTH + Reply(0) && client.written == GREETING + Request(host, port)
  {
    o := ServerSide(server, host, port, up);
    err := ClientSide(client, host, port, down);
    assert server.written == NO_AUTH;
  }
}
