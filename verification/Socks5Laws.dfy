/** What the two SOCKS5 parties make of every form of request and reply. */
module Socks5Laws {
  import opened Seqs
  import opened Streams
  import opened Socks5
  import Udpgw

  // ------------------------------------------------------------ the server

  /** The version, the number of methods and the methods. */
  function Greeting(methods: seq<Byte>): seq<Byte>
    requires 1 <= |methods| <= 255
  {
    [5, |methods|] + methods
  }

  lemma ShiftedAddress(pre: seq<Byte>, t: seq<Byte>, at: nat, n: nat, atyp: Byte, f: Fault)
    requires at <= |t|
    ensures var v, w := RawAddress(t, at, n, atyp, f), RawAddress(pre + t, |pre| + at, n, atyp, f);
      w == v.(used := v.used + |pre|)
  {
    var s, o := pre + t, |pre| + at;
    assert s[o..] == t[at..];
    if at + n <= |t| {
      assert s[o..o + n] == t[at..at + n];
      assert s[o + n..] == t[at + n..];
    }
  }

  /** A request is read alike behind whatever came before it. */
  lemma ShiftedRequest(pre: seq<Byte>, t: seq<Byte>, f: Fault)
    ensures var v, w := AfterMethods(t, 0, f), AfterMethods(pre + t, |pre|, f); w == v.(used := v.used + |pre|)
  {
    var s, n := pre + t, |pre|;
    assert s[n..] == t[0..] == t;
    if |t| >= 4 {
      assert s[n] == t[0] && s[n + 1] == t[1] && s[n + 3] == t[3];
      if t[3] == 3 {
        assert s[n + 4..] == t[4..];
        if |t| >= 5 {
          assert s[n + 4] == t[4];
          ShiftedAddress(pre, t, 5, t[4], 3, f);
        }
      } else {
        ShiftedAddress(pre, t, 4, if t[3] == 1 then 4 else 16, t[3], f);
      }
    }
  }

  /** The methods that a client offers are skipped, whatever they are; then the request is read. */
  lemma ServeGreeted(methods: seq<Byte>, t: seq<Byte>, f: Fault)
    requires 1 <= |methods| <= 255
    ensures var v := AfterMethods(t, 0, f);
      Serve(Greeting(methods) + t, f, true) == Served(v.outcome, 2 + |methods| + v.used, NO_AUTH + v.wrote)
  {
    var s := Greeting(methods) + t;
    assert s[0] == 5 && s[1] == |methods|;
    ShiftedRequest(Greeting(methods), t, f);
  }

  /** The two bytes of a port below 65536. */
  lemma PortBytes(port: nat)
    requires port < 0x1_0000
    ensures |Udpgw.Big16(port)| == 2 && Udpgw.Uint16(Udpgw.Big16(port)[0], Udpgw.Big16(port)[1]) == port
  {
  }

  lemma RawRequest(a: seq<Byte>, v6: bool, port: nat, payload: seq<Byte>, f: Fault)
    requires |a| == (if v6 then 16 else 4) && port < 0x1_0000
    ensures var t := [5, 1, 0, if v6 then 4 else 1] + a + Udpgw.Big16(port) + payload;
      && AfterMethods(t, 0, f) == Served(Target(if v6 then Ipv6(a) else Ipv4(a), port), 6 + |a|, [])
      && t[6 + |a|..] == payload
  {
    var head: seq<Byte> := [5, 1, 0, if v6 then 4 else 1];
    var b := Udpgw.Big16(port);
    var t := head + a + b + payload;
    var n := |a|;
    PortBytes(port);
    assert t[..4] == head && t[0] == 5 && t[1] == 1 && t[3] == head[3];
    assert t[4..4 + n] == a && t[4 + n] == b[0] && t[4 + n + 1] == b[1];
  }

  /** An address of four bytes under type 1, or of sixteen under type 4, and every 16-bit port come back exactly,
      whatever methods were offered; what follows the request is left whole, and the greeting is answered. */
  lemma RawRoundTrip(methods: seq<Byte>, a: seq<Byte>, v6: bool, port: nat, payload: seq<Byte>, f: Fault)
    requires 1 <= |methods| <= 255 && |a| == (if v6 then 16 else 4) && port < 0x1_0000
    ensures var t := [5, 1, 0, if v6 then 4 else 1] + a + Udpgw.Big16(port) + payload;
      var s := Greeting(methods) + t; var v := Serve(s, f, true);
      && v.outcome == Target(if v6 then Ipv6(a) else Ipv4(a), port)
      && v.wrote == [5, 0] && v.used <= |s| && s[v.used..] == payload
  {
    var t := [5, 1, 0, if v6 then 4 else 1] + a + Udpgw.Big16(port) + payload;
    RawRequest(a, v6, port, payload, f);
    ServeGreeted(methods, t, f);
    var g := Greeting(methods);
    assert (g + t)[|g| + (6 + |a|)..] == t[6 + |a|..];
  }

  /** What is written back, for every complete request header: the code 7 for a command other than CONNECT, else the
      code 8 for a type that is none of the three, and nothing more in every other case. */
  lemma RefusalsIff(methods: seq<Byte>, t: seq<Byte>, f: Fault)
    requires 1 <= |methods| <= 255 && |t| >= 4 && t[0] == 5
    ensures var v := Serve(Greeting(methods) + t, f, true);
      && v.wrote == [5, 0] + (if t[1] != 1 then [5, 7, 0, 1, 0, 0, 0, 0, 0, 0]
                              else if t[3] !in {1, 3, 4} then [5, 8, 0, 1, 0, 0, 0, 0, 0, 0]
                              else [])
      && (t[1] != 1 ==> v.outcome == Refused(BadCommand(t[1])))
      && (t[1] == 1 && t[3] !in {1, 3, 4} ==> v.outcome == Refused(BadAddressType(t[3])))
  {
    ServeGreeted(methods, t, f);
  }

  /** And without a version 5, or without a method, nothing is written for the part that lacks it. */
  lemma BadVersions(methods: seq<Byte>, t: seq<Byte>, f: Fault)
    requires 1 <= |methods| <= 255 && |t| >= 4
    ensures t[0] != 5 ==> Serve(Greeting(methods) + t, f, true).outcome == Refused(BadVersion(t[0]))
    ensures t[0] != 5 ==> Serve(Greeting(methods) + t, f, true).wrote == [5, 0]
    ensures t[0] != 5 ==> Serve(t, f, true).outcome == Refused(BadVersion(t[0])) && Serve(t, f, true).wrote == []
    ensures t[0] == 5 && t[1] == 0 ==> Serve(t, f, true).outcome == Refused(NoMethods) && Serve(t, f, true).wrote == []
  {
    ServeGreeted(methods, t, f);
  }

  // ------------------------------------------------------------ the client

  /** A bound address with its type, as a reply carries it. */
  predicate BoundAddress(atyp: Byte, bound: seq<Byte>)
  {
    || (atyp == 1 && |bound| == 4)
    || (atyp == 4 && |bound| == 16)
    || (atyp == 3 && bound != [] && |bound| == 1 + bound[0] as nat)
  }

  /** The client accepts code 0 with a bound address of every form, and reads exactly up to the payload. */
  lemma AnyBoundAddress(host: seq<Byte>, rep: Byte, atyp: Byte, bound: seq<Byte>, port: seq<Byte>,
                        payload: seq<Byte>, f: Fault)
    requires |host| <= 255 && BoundAddress(atyp, bound) && |port| == 2
    ensures var s := [5, 0] + ([5, rep, 0, atyp] + bound + port + payload); var d := Dial(host, s, f, true);
      && (d.Connected? <==> rep == 0)
      && (d.Connected? ==> d.used <= |s| && s[d.used..] == payload)
      && (rep != 0 ==> d == Rejected(ConnectFailed(rep)))
  {
    var head: seq<Byte> := [5, rep, 0, atyp];
    var s := [5, 0] + (head + bound + port + payload);
    assert s[..2] == [5, 0] && s[2..6] == head;
    assert s[0] == 5 && s[1] == 0 && s[2] == head[0] && s[3] == head[1] && s[5] == head[3];
    assert s[6..6 + |bound|] == bound;
    assert atyp == 3 ==> s[6] == bound[0];
    assert s[6 + |bound| + 2..] == payload;
  }

  /** It refuses every method but "none", and a host that the format cannot carry, before it reads any reply. */
  lemma DialRefuses(host: seq<Byte>, v: Byte, m: Byte, rest: seq<Byte>, f: Fault)
    ensures v != 5 || m != 0 ==> Dial(host, [v, m] + rest, f, true) == Rejected(AuthRejected)
    ensures v == 5 && m == 0 && |host| > 255 ==> Dial(host, [v, m] + rest, f, true) == Rejected(HostTooLong)
    ensures Dial(host, [v, m] + rest, f, false) == Rejected(WriteError)
  {
  }
}
