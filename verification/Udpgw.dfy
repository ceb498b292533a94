/** BadVPN UDPGW frames: two bytes of length, one of address type, four of address, two of port,
    then the payload; the length counts everything after itself. */
module Udpgw {
  import opened Streams

  const TYPE_IPV4: Byte := 1
  const HEADER_SIZE: nat := 7
  const MAX_PAYLOAD: nat := 65507

  /** net.IP: an address with an IPv4 form, or one without. */
  datatype Ip = V4(a: Byte, b: Byte, c: Byte, d: Byte) | OtherIp

  datatype Datagram = Datagram(ip: Ip, port: int, payload: seq<Byte>)

  function Uint16(hi: Byte, lo: Byte): nat { hi * 256 + lo }

  lemma Uint16Splits(n: int)
    ensures Uint16(n % 0x1_0000 / 256, n % 256) == n % 0x1_0000
  {
    assert n % 0x1_0000 % 256 == n % 256;
  }

  /** The two bytes, high one first, whose value is n modulo 65536. */
  ghost function Big16(n: int): (b: seq<Byte>)
    ensures |b| == 2 && Uint16(b[0], b[1]) == n % 0x1_0000
  {
    Uint16Splits(n);
    var hi: Byte, lo: Byte :| Uint16(hi, lo) == n % 0x1_0000;
    [hi, lo]
  }

  /** byte(n >> 8) and byte(n) */
  method PutUint16(n: int) returns (hi: Byte, lo: Byte)
    ensures [hi, lo] == Big16(n)
  {
    Uint16Splits(n);
    hi, lo := n % 0x1_0000 / 256, n % 256;
  }

  /** To4, with the zero address for what has no IPv4 form. */
  function Four(ip: Ip): seq<Byte>
  {
    if ip.V4? then [ip.a, ip.b, ip.c, ip.d] else [0, 0, 0, 0]
  }

  ghost function Head(d: Datagram): seq<Byte>
  {
    Big16(HEADER_SIZE + |d.payload|) + [TYPE_IPV4] + Four(d.ip) + Big16(d.port)
  }

  ghost function Pack(d: Datagram): seq<Byte> { Head(d) + d.payload }

  /** packUDPGW: one buffer, filled in place. */
  method PackUdpgw(d: Datagram) returns (frame: array<Byte>)
    ensures fresh(frame) && frame[..] == Pack(d)
  {
    var dataLen := HEADER_SIZE + |d.payload|;
    frame := new Byte[2 + dataLen](_ => 0);
    frame[0], frame[1] := PutUint16(dataLen);
    frame[2] := TYPE_IPV4;
    var ip4 := Four(d.ip);
    forall i | 0 <= i < 4 {
      frame[3 + i] := ip4[i];
    }
    frame[7], frame[8] := PutUint16(d.port);
    forall i | 0 <= i < |d.payload| {
      frame[9 + i] := d.payload[i];
    }
    assert frame[..] == Pack(d);
  }

  // ---------------------------------------------------------------------------

  datatype Error = EndOfStream | Truncated | BadLength(n: nat) | BadType(t: Byte) | Network(f: Fault)

  datatype Frame = Frame(d: Datagram, rest: seq<Byte>) | Failure(e: Error)

  /** What readUDPGWFrame makes of a stream that ends after these bytes. */
  function Parse(s: seq<Byte>): Frame
  {
    if s == [] then Failure(EndOfStream)
    else if |s| < 2 then Failure(Truncated)
    else
      var n := Uint16(s[0], s[1]);
      if n < HEADER_SIZE || n > HEADER_SIZE + MAX_PAYLOAD then Failure(BadLength(n))
      else if |s| < 2 + n then Failure(if |s| == 2 then EndOfStream else Truncated)
      else if s[2] != TYPE_IPV4 then Failure(BadType(s[2]))
      else Frame(Datagram(V4(s[3], s[4], s[5], s[6]), Uint16(s[7], s[8]), s[9..2 + n]), s[2 + n..])
  }

  function ErrorOf(r: ReadResult): Error
    requires !r.Ok?
  {
    if r.UnexpectedEof? then Truncated else if r.fault.Eof? then EndOfStream else Network(r.fault)
  }

  /** readUDPGWFrame. On a connection that fails only at its end the outcome is that of Parse,
      however the bytes are chunked, and exactly the frame has been consumed. */
  method ReadUdpgwFrame(c: Conn) returns (d: Datagram, err: seq<Error>)
    modifies c`items
    ensures |err| <= 1
    ensures err == [] ==> Parse(old(c.Rest())) == Frame(d, c.Rest())
    ensures NoFaults(old(c.items)) ==> NoFaults(c.items)
    ensures NoFaults(old(c.items)) && err != [] ==> Parse(old(c.Rest())) == Failure(err[0])
  {
    d := Datagram(OtherIp, 0, []);
    ghost var s := c.Rest();
    var hdr := new Byte[2](_ => 0);
    var r := c.ReadFull(hdr, 2);
    if !r.Ok? {
      return d, [ErrorOf(r)];
    }
    ghost var s1 := c.Rest();
    assert hdr[..2] == [hdr[0], hdr[1]];
    assert s == [hdr[0], hdr[1]] + s1;
    var dataLen := Uint16(hdr[0], hdr[1]);
    if dataLen < HEADER_SIZE || dataLen > HEADER_SIZE + MAX_PAYLOAD {
      return d, [BadLength(dataLen)];
    }
    var frame := new Byte[dataLen](_ => 0);
    r := c.ReadFull(frame, dataLen);
    if !r.Ok? {
      return d, [ErrorOf(r)];
    }
    assert frame[..dataLen] == frame[..];
    assert s == [hdr[0], hdr[1]] + (frame[..] + c.Rest());
    if frame[0] != TYPE_IPV4 {
      return d, [BadType(frame[0])];
    }
    assert s[2 + dataLen..] == c.Rest();
    assert s[9..2 + dataLen] == frame[7..];
    return Datagram(V4(frame[1], frame[2], frame[3], frame[4]), Uint16(frame[5], frame[6]), frame[7..]), [];
  }

  // ---------------------------------------------------------------------------

  /** What the wire format can carry. */
  predicate Carried(d: Datagram)
  {
    d.ip.V4? && 0 <= d.port < 0x1_0000 && |d.payload| <= MAX_PAYLOAD
  }

  /** The 16-bit length is the true one exactly below 65536 bytes, so for every payload within the bound. */
  lemma PackLength(d: Datagram)
    ensures |Pack(d)| == 2 + HEADER_SIZE + |d.payload|
    ensures HEADER_SIZE + |d.payload| < 0x1_0000 <==> Uint16(Pack(d)[0], Pack(d)[1]) == HEADER_SIZE + |d.payload|
  {
    var b := Big16(HEADER_SIZE + |d.payload|);
    assert Pack(d)[0] == b[0] && Pack(d)[1] == b[1];
  }

  /** Whatever the parser accepts is a datagram that the format can carry. */
  lemma ParsedIsCarried(s: seq<Byte>)
    ensures Parse(s).Frame? ==> Carried(Parse(s).d)
  {
  }

  lemma ParseParts(h: seq<Byte>, payload: seq<Byte>, rest: seq<Byte>)
    requires |h| == 9 && h[2] == TYPE_IPV4 && Uint16(h[0], h[1]) == HEADER_SIZE + |payload| && |payload| <= MAX_PAYLOAD
    ensures Parse(h + payload + rest) == Frame(Datagram(V4(h[3], h[4], h[5], h[6]), Uint16(h[7], h[8]), payload), rest)
  {
    var s := h + payload + rest;
    assert s[9..9 + |payload|] == payload;
    assert s[9 + |payload|..] == rest;
  }

  lemma CarriedHead(d: Datagram)
    requires Carried(d)
    ensures var h := Head(d);
      && |h| == 9 && h[2] == TYPE_IPV4 && Uint16(h[0], h[1]) == HEADER_SIZE + |d.payload|
      && V4(h[3], h[4], h[5], h[6]) == d.ip && Uint16(h[7], h[8]) == d.port
  {
    var n, p := Big16(HEADER_SIZE + |d.payload|), Big16(d.port);
    assert Uint16(n[0], n[1]) == HEADER_SIZE + |d.payload| && Uint16(p[0], p[1]) == d.port;
  }

  /** A frame comes back as the datagram it was made of, with the stream left right behind it,
      exactly when the wire format can carry the datagram. */
  lemma FrameRoundTrip(d: Datagram, rest: seq<Byte>)
    ensures Parse(Pack(d) + rest) == Frame(d, rest) <==> Carried(d)
  {
    ParsedIsCarried(Pack(d) + rest);
    if Carried(d) {
      CarriedHead(d);
      ParseParts(Head(d), d.payload, rest);
    }
  }

  lemma BytesOf(n: int, hi: Byte, lo: Byte)
    requires n == 256 * hi + lo
    ensures Big16(n) == [hi, lo]
  {
    var b := Big16(n);
    assert Uint16(b[0], b[1]) == 256 * hi + lo;
    assert b == [b[0], b[1]];
  }

  /** The bytes on the wire: length, type 1, address, port, payload, high bytes first. */
  lemma WireFormat(hi: Byte, lo: Byte, a: seq<Byte>, ph: Byte, pl: Byte, payload: seq<Byte>)
    requires 256 * hi + lo == 7 + |payload| && |a| == 4
    ensures Pack(Datagram(V4(a[0], a[1], a[2], a[3]), 256 * ph + pl, payload))
            == [hi, lo, 1] + a + [ph, pl] + payload
    ensures Pack(Datagram(OtherIp, 256 * ph + pl, payload)) == [hi, lo, 1, 0, 0, 0, 0, ph, pl] + payload
  {
    BytesOf(7 + |payload|, hi, lo);
    BytesOf(256 * ph + pl, ph, pl);
    assert a == [a[0], a[1], a[2], a[3]];
  }

  lemma ParsedIsPacked(s: seq<Byte>)
    requires Parse(s).Frame?
    ensures s == Pack(Parse(s).d) + Parse(s).rest
  {
    var n, d := Uint16(s[0], s[1]), Parse(s).d;
    BytesOf(n, s[0], s[1]);
    BytesOf(d.port, s[7], s[8]);
    assert Head(d) == s[..9];
    assert s[..9] + s[9..2 + n] == s[..2 + n];
    assert s[..2 + n] + s[2 + n..] == s;
  }

  /** A stream is read as a datagram exactly if it starts with that datagram's frame, and no other. */
  lemma ParseInverts(s: seq<Byte>, d: Datagram, rest: seq<Byte>)
    ensures Parse(s) == Frame(d, rest) <==> (Carried(d) && s == Pack(d) + rest)
  {
    FrameRoundTrip(d, rest);
    ParsedIsCarried(s);
    if Parse(s).Frame? {
      ParsedIsPacked(s);
    }
  }

  /** Every refusal: the length stands outside 7 to 65514, the stream ends inside the frame, or the type is
      not 1; between frames and right behind a length it is a plain end. */
  lemma RefusedIff(s: seq<Byte>)
    ensures var n: int, e := if |s| < 2 then 7 else 256 * s[0] as int + s[1] as int, Parse(s);
      && (e.Frame? <==> 7 <= n <= 65514 && |s| >= 2 + n && s[2] == 1)
      && (e == Failure(EndOfStream) <==> s == [] || (|s| == 2 && 7 <= n <= 65514))
      && (e == Failure(Truncated) <==> |s| == 1 || (2 < |s| < 2 + n <= 65516 && 7 <= n))
      && (e == Failure(BadLength(n)) <==> n < 7 || n > 65514)
      && (|s| > 2 ==> (e == Failure(BadType(s[2])) <==> 7 <= n <= 65514 && |s| >= 2 + n && s[2] != 1))
  {
  }

  ghost function PackAll(ds: seq<Datagram>): seq<Byte>
  {
    if ds == [] then [] else Pack(ds[0]) + PackAll(ds[1..])
  }

  /** Reading frames until the first error, as the read loop does. */
  function ParseAll(s: seq<Byte>): (seq<Datagram>, Error)
    decreases |s|
  {
    match Parse(s)
    case Failure(e) => ([], e)
    case Frame(d, rest) => ([d] + ParseAll(rest).0, ParseAll(rest).1)
  }

  /** What a list read so far and the frames still in the stream make together. */
  function Joined(ds: seq<Datagram>, rest: (seq<Datagram>, Error)): (seq<Datagram>, Error)
  {
    (ds + rest.0, rest.1)
  }

  lemma JoinedNext(ds: seq<Datagram>, d: Datagram, rest: (seq<Datagram>, Error))
    ensures Joined(ds, ([d] + rest.0, rest.1)) == Joined(ds + [d], rest)
  {
    assert ds + ([d] + rest.0) == (ds + [d]) + rest.0;
  }

  lemma JoinedFrame(ds: seq<Datagram>, s: seq<Byte>)
    requires Parse(s).Frame?
    ensures Joined(ds, ParseAll(s)) == Joined(ds + [Parse(s).d], ParseAll(Parse(s).rest))
  {
    JoinedNext(ds, Parse(s).d, ParseAll(Parse(s).rest));
  }

  lemma JoinedFailure(ds: seq<Datagram>, s: seq<Byte>)
    requires Parse(s).Failure?
    ensures Joined(ds, ParseAll(s)) == (ds, Parse(s).e)
  {
    assert ds + [] == ds;
  }

  method ReadFrames(c: Conn) returns (ds: seq<Datagram>, e: Error)
    modifies c`items
    requires NoFaults(c.items)
    ensures (ds, e) == ParseAll(old(c.Rest()))
  {
    ds := [];
    ghost var whole := ParseAll(c.Rest());
    assert [] + whole.0 == whole.0;
    while true
      invariant NoFaults(c.items)
      invariant whole == Joined(ds, ParseAll(c.Rest()))
      decreases |c.Rest()|
    {
      ghost var s := c.Rest();
      var d, err := ReadUdpgwFrame(c);
      if err != [] {
        JoinedFailure(ds, s);
        return ds, err[0];
      }
      JoinedFrame(ds, s);
      ds := ds + [d];
    }
  }

  /** Every list of datagrams comes back in order, and the reader stops at the very end. */
  lemma {:induction false} StreamRoundTrip(ds: seq<Datagram>)
    requires forall d | d in ds :: Carried(d)
    ensures ParseAll(PackAll(ds)) == (ds, EndOfStream)
  {
    if ds != [] {
      FrameRoundTrip(ds[0], PackAll(ds[1..]));
      StreamRoundTrip(ds[1..]);
      assert [ds[0]] + ds[1..] == ds;
    }
  }

  /** The same over a connection, under any chunking. */
  method StreamOverChunks(ds: seq<Datagram>, items: seq<Item>, eager: bool) returns (got: seq<Datagram>)
    requires forall d | d in ds :: Carried(d)
    requires NoFaults(items) && Flatten(items) == PackAll(ds)
    ensures got == ds
  {
    var c := new Conn(items, eager, true);
    var e;
    got, e := ReadFrames(c);
    StreamRoundTrip(ds);
  }
}
