/** What a rendered payload says, for templates put together from text and placeholders. */
module PayloadLaws {
  import opened Seqs
  import opened Text
  import opened TextLaws
  import opened Payload

  datatype Piece =
    | Words(text: string)
    | Crlf | Lf | Host | Port | SshHost | SshPort | Sni | ProxyHost | ProxyPort

  /** How a piece is written in a template. */
  function Written(x: Piece): string
  {
    match x
    case Words(text) => text
    case Crlf => "[crlf]"
    case Lf => "[lf]"
    case Host => "[host]"
    case Port => "[port]"
    case SshHost => "[ssh_host]"
    case SshPort => "[ssh_port]"
    case Sni => "[sni]"
    case ProxyHost => "[proxy_host]"
    case ProxyPort => "[proxy_port]"
  }

  /** What it says for a profile. */
  function Said(x: Piece, p: Profile): string
  {
    match x
    case Words(text) => text
    case Crlf => [13 as char, 10 as char]
    case Lf => [10 as char]
    case Host => p.host
    case Port => Decimal(p.port)
    case SshHost => p.host
    case SshPort => Decimal(p.port)
    case Sni => (match p.sni case Some(name) => name case None => "")
    case ProxyHost => (match p.proxy case Some(proxy) => proxy.0 case None => "")
    case ProxyPort => (match p.proxy case Some(proxy) => Decimal(proxy.1) case None => "")
  }

  function Template(xs: seq<Piece>): string { if xs == [] then "" else Written(xs[0]) + Template(xs[1..]) }

  function Rendered(xs: seq<Piece>, p: Profile): string
  {
    if xs == [] then "" else Said(xs[0], p) + Rendered(xs[1..], p)
  }

  ghost predicate PlainWords(xs: seq<Piece>)
  {
    forall i | 0 <= i < |xs| && xs[i].Words? :: NoBrackets(xs[i].text)
  }

  lemma CleanBehindText(text: string, rest: string)
    requires NoBrackets(text) && CleanTemplate(rest)
    ensures CleanTemplate(text + rest)
  {
    var t := text + rest;
    assert forall i | 0 <= i < |text| :: t[i] == text[i] && text[i] in text;
    forall i | 0 <= i < |t| && Token(t[i..]) != ""
      ensures '[' !in Token(t[i..])[1..]
    {
      assert t[i..][0] == t[i];
      assert t[i..] == rest[i - |text|..];
    }
  }

  lemma CleanBehindKey(key: string, rest: string)
    requires IsPlaceholder(key) && CleanTemplate(rest)
    ensures CleanTemplate(key + rest)
  {
    var t := key + rest;
    NoOpenInside(key);
    assert forall i | 1 <= i < |key| :: t[i] == key[1..][i - 1] && key[1..][i - 1] in key[1..];
    forall i | 0 <= i < |t| && Token(t[i..]) != ""
      ensures '[' !in Token(t[i..])[1..]
    {
      if i == 0 {
        assert t[0..] == t;
        TokenOfPlaceholder(key, rest);
      } else {
        assert t[i..][0] == t[i] == '[';
        assert t[i..] == rest[i - |key|..];
      }
    }
  }

  lemma WrittenIsKey(x: Piece, p: Profile)
    requires !x.Words?
    ensures IsPlaceholder(Written(x)) && Written(x) in Values(p)
  {
    ValuesArePlaceholders(p);
  }

  lemma ServerIsSaid(x: Piece, p: Profile)
    requires x.Host? || x.Port? || x.SshHost? || x.SshPort?
    ensures Values(p)[Written(x)] == Said(x, p)
  {
  }

  lemma OtherIsSaid(x: Piece, p: Profile)
    requires x.Crlf? || x.Lf? || x.Sni? || x.ProxyHost? || x.ProxyPort?
    ensures Values(p)[Written(x)] == Said(x, p)
  {
  }

  lemma {:induction false} SubstSays(xs: seq<Piece>, p: Profile)
    requires PlainWords(xs)
    ensures CleanTemplate(Template(xs)) && Subst(Values(p), Template(xs)) == Rendered(xs, p)
  {
    if xs != [] {
      var x, rest := xs[0], Template(xs[1..]);
      SubstSays(xs[1..], p);
      if x.Words? {
        CleanBehindText(x.text, rest);
        SubstSkips(Values(p), x.text, rest);
      } else {
        WrittenIsKey(x, p);
        CleanBehindKey(Written(x), rest);
        if x.Host? || x.Port? || x.SshHost? || x.SshPort? {
          ServerIsSaid(x, p);
        } else {
          OtherIsSaid(x, p);
        }
        TokenOfPlaceholder(Written(x), rest);
        assert (Written(x) + rest)[|Written(x)|..] == rest;
      }
    }
  }

  /** In whatever order the map is walked, a template says its text and, at each placeholder, the SSH server's host and
      port, the TLS server name, the proxy's host and port, or a line end; nothing where the profile has no such part.
      That is for profiles without brackets in their names. */
  lemma PayloadSays(xs: seq<Piece>, p: Profile, order: seq<string>)
    requires PlainWords(xs) && OrderOf(Values(p), order)
    requires NoBrackets(p.host) && (p.sni.Some? ==> NoBrackets(p.sni.value))
    requires p.proxy.Some? ==> NoBrackets(p.proxy.value.0)
    ensures ReplaceInOrder(Values(p), order, Template(xs)) == Rendered(xs, p)
  {
    ValuesArePlaceholders(p);
    SubstSays(xs, p);
    ProfileOrderIsIrrelevant(p, order, Template(xs));
  }

  /** A port is written in decimal notation. */
  lemma DecimalValue(n: nat)
    ensures Value(Decimal(n)) == n && (Decimal(n)[0] == '0' <==> n == 0)
    ensures n > 0 ==> Decimal(0 - n) == "-" + Decimal(n)
  {
    ItoaValue(n);
  }
}
