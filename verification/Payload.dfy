/** The payload template: placeholders replaced one after another, in the order of a map. */
module Payload {
  import opened Seqs
  import opened Text

  /** strings.ReplaceAll for a non-empty key. */
  function ReplaceAll(t: string, key: string, value: string): string
    requires key != ""
  {
    if |t| < |key| then t
    else if t[..|key|] == key then value + ReplaceAll(t[|key|..], key, value)
    else [t[0]] + ReplaceAll(t[1..], key, value)
  }

  function FirstClose(t: string): (i: nat)
    requires ']' in t
    ensures i < |t| && t[i] == ']' && forall k | 0 <= k < i :: t[k] != ']'
  {
    if t[0] == ']' then 0 else 1 + FirstClose(t[1..])
  }

  /** The bracket pair that t begins with, if any. */
  function Token(t: string): (r: string)
    ensures r != "" ==> |r| >= 2 && r <= t && r[0] == '[' && r[|r| - 1] == ']'
    ensures forall k | 0 <= k < |r| - 1 :: r[k] != ']'
  {
    if t != "" && t[0] == '[' && ']' in t then t[..FirstClose(t) + 1] else ""
  }

  /** Every placeholder of t replaced at once, from left to right. */
  function Subst(m: map<string, string>, t: string): string
  {
    if t == "" then ""
    else if Token(t) != "" && Token(t) in m then m[Token(t)] + Subst(m, t[|Token(t)|..])
    else [t[0]] + Subst(m, t[1..])
  }

  predicate NoBrackets(s: string) { '[' !in s && ']' !in s }

  predicate IsPlaceholder(key: string)
  {
    |key| >= 2 && key[0] == '[' && key[|key| - 1] == ']' && NoBrackets(key[1..|key| - 1])
  }

  ghost predicate Placeholders(m: map<string, string>)
  {
    forall key | key in m :: IsPlaceholder(key)
  }

  /** The values of the placeholders that the template uses have no brackets. */
  ghost predicate PlainWhereUsed(m: map<string, string>, t: string)
  {
    forall i | 0 <= i < |t| && Token(t[i..]) in m :: NoBrackets(m[Token(t[i..])])
  }

  /** No bracket opens inside a bracket pair. */
  ghost predicate CleanTemplate(t: string)
  {
    forall i | 0 <= i < |t| && Token(t[i..]) != "" :: '[' !in Token(t[i..])[1..]
  }

  // ------------------------------------------------------------ one replacement

  lemma ReplaceStep(s: string, key: string, value: string)
    requires s != "" && key != "" && !(key <= s)
    ensures ReplaceAll(s, key, value) == [s[0]] + ReplaceAll(s[1..], key, value)
  {
    if |s| < |key| {
      assert s == [s[0]] + s[1..];
    } else {
      assert s[..|key|] != key;
    }
  }

  lemma SubstStep(m: map<string, string>, t: string)
    requires t != "" && Token(t) !in m
    ensures Subst(m, t) == [t[0]] + Subst(m, t[1..])
  {
  }

  lemma SubstPlain(m: map<string, string>, t: string)
    requires t != "" && t[0] != '['
    ensures Subst(m, t) == [t[0]] + Subst(m, t[1..])
  {
  }

  lemma HeadAndTail(c: string, y: string)
    requires c != ""
    ensures (c + y)[0] == c[0] && (c + y)[1..] == c[1..] + y && [c[0]] + (c[1..] + y) == c + y
  {
    assert [c[0]] + c[1..] == c;
  }

  lemma {:induction false} ReplaceSkips(p: string, x: string, key: string, value: string)
    requires '[' !in p && key != "" && key[0] == '['
    ensures ReplaceAll(p + x, key, value) == p + ReplaceAll(x, key, value)
  {
    if p == "" {
      assert p + x == x;
    } else {
      ReplaceSkips(p[1..], x, key, value);
      HeadAndTail(p, x);
      ReplaceStep(p + x, key, value);
      HeadAndTail(p, ReplaceAll(x, key, value));
    }
  }

  lemma {:induction false} NothingToReplace(t: string, key: string, value: string)
    requires IsPlaceholder(key) && ']' !in t
    ensures ReplaceAll(t, key, value) == t
  {
    if |t| >= |key| {
      assert t[..|key|][|key| - 1] == t[|key| - 1];
      NothingToReplace(t[1..], key, value);
    }
  }

  lemma {:induction false} NothingToSubst(m: map<string, string>, t: string)
    requires '[' !in t || ']' !in t
    ensures Subst(m, t) == t
  {
    if t != "" {
      NothingToSubst(m, t[1..]);
    }
  }

  lemma {:induction false} SubstSkips(m: map<string, string>, p: string, x: string)
    requires '[' !in p
    ensures Subst(m, p + x) == p + Subst(m, x)
  {
    if p == "" {
      assert p + x == x;
    } else {
      SubstSkips(m, p[1..], x);
      HeadAndTail(p, x);
      SubstPlain(m, p + x);
      HeadAndTail(p, Subst(m, x));
    }
  }

  lemma TokenEndsAt(t: string, n: nat)
    requires 0 < n < |t| && t[0] == '[' && t[n] == ']' && forall k | 0 <= k < n :: t[k] != ']'
    ensures Token(t) == t[..n + 1]
  {
    assert FirstClose(t) == n;
  }

  /** A clean token is kept whole when it is not a placeholder of the map. */
  lemma SubstKeepsToken(m: map<string, string>, c: string, x: string)
    requires c != "" && Token(c + x) == c && c !in m && '[' !in c[1..]
    ensures Subst(m, c + x) == c + Subst(m, x)
  {
    SubstSkips(m, c[1..], x);
    HeadAndTail(c, x);
    SubstStep(m, c + x);
    HeadAndTail(c, Subst(m, x));
  }

  lemma TokenOfPlaceholder(key: string, x: string)
    requires IsPlaceholder(key)
    ensures Token(key + x) == key
  {
    var t := key + x;
    assert forall i | 0 < i < |key| - 1 :: t[i] == key[1..|key| - 1][i - 1];
    TokenEndsAt(t, |key| - 1);
  }

  lemma TokenOfPrefix(c: string, x: string, y: string)
    requires c != "" && Token(c + x) == c
    ensures Token(c + y) == c
  {
    TokenEndsAt(c + y, |c| - 1);
  }

  lemma OtherPlaceholderDiffers(c: string, x: string, key: string)
    requires c != "" && Token(c + x) == c && IsPlaceholder(key) && c != key
    ensures !(key <= c + x)
  {
    var s := c + x;
    if key <= s {
      assert s == key + s[|key|..];
      TokenOfPlaceholder(key, s[|key|..]);
      assert false;
    }
  }

  lemma ReplaceKeepsToken(c: string, x: string, key: string, value: string)
    requires c != "" && Token(c + x) == c && '[' !in c[1..] && IsPlaceholder(key) && c != key
    ensures ReplaceAll(c + x, key, value) == c + ReplaceAll(x, key, value)
  {
    OtherPlaceholderDiffers(c, x, key);
    ReplaceSkips(c[1..], x, key, value);
    HeadAndTail(c, x);
    ReplaceStep(c + x, key, value);
    HeadAndTail(c, ReplaceAll(x, key, value));
  }

  lemma CleanSuffix(t: string, n: nat)
    requires CleanTemplate(t) && n <= |t|
    ensures CleanTemplate(t[n..])
  {
    forall i | 0 <= i < |t[n..]| && Token(t[n..][i..]) != ""
      ensures '[' !in Token(t[n..][i..])[1..]
    {
      assert t[n..][i..] == t[n + i..];
    }
  }

  lemma PlainSuffix(m: map<string, string>, t: string, n: nat)
    requires PlainWhereUsed(m, t) && n <= |t|
    ensures PlainWhereUsed(m, t[n..])
  {
    forall i | 0 <= i < |t[n..]| && Token(t[n..][i..]) in m
      ensures NoBrackets(m[Token(t[n..][i..])])
    {
      assert t[n..][i..] == t[n + i..];
    }
  }

  /** One replacement extends the simultaneous substitution by one placeholder. */
  lemma {:induction false} ReplaceExtendsSubst(m: map<string, string>, t: string, key: string, value: string)
    requires CleanTemplate(t) && PlainWhereUsed(m, t) && IsPlaceholder(key) && key !in m
    ensures ReplaceAll(Subst(m, t), key, value) == Subst(m[key := value], t)
    decreases |t|
  {
    if t == "" {
    } else if t[0] != '[' {
      CleanSuffix(t, 1);
      PlainSuffix(m, t, 1);
      ReplaceExtendsSubst(m, t[1..], key, value);
      ReplaceSkips([t[0]], Subst(m, t[1..]), key, value);
    } else if ']' !in t {
      NothingToSubst(m, t);
      NothingToSubst(m[key := value], t);
      NothingToReplace(t, key, value);
    } else {
      ReplaceAtToken(m, t, key, value) by {
        var c := Token(t);
        CleanSuffix(t, |c|);
        PlainSuffix(m, t, |c|);
        ReplaceExtendsSubst(m, t[|c|..], key, value);
      }
    }
  }

  /** At a token: one that is replaced already, the one to replace, and any other. */
  lemma ReplaceAtKnown(m: map<string, string>, c: string, rest: string, key: string, value: string)
    requires Token(c + rest) == c && c in m && '[' !in m[c] && IsPlaceholder(key) && key !in m && c != ""
    requires ReplaceAll(Subst(m, rest), key, value) == Subst(m[key := value], rest)
    ensures ReplaceAll(Subst(m, c + rest), key, value) == Subst(m[key := value], c + rest)
  {
    assert (c + rest)[|c|..] == rest;
    ReplaceSkips(m[c], Subst(m, rest), key, value);
  }

  lemma ReplaceAtKey(m: map<string, string>, c: string, rest: string, value: string)
    requires Token(c + rest) == c && IsPlaceholder(c) && '[' !in c[1..] && c !in m
    requires ReplaceAll(Subst(m, rest), c, value) == Subst(m[c := value], rest)
    ensures ReplaceAll(Subst(m, c + rest), c, value) == Subst(m[c := value], c + rest)
  {
    var x := Subst(m, rest);
    TokenOfPrefix(c, rest, x);
    SubstKeepsToken(m, c, rest);
    assert (c + rest)[|c|..] == rest;
    assert (c + x)[..|c|] == c && (c + x)[|c|..] == x;
  }

  lemma ReplaceAtOther(m: map<string, string>, c: string, rest: string, key: string, value: string)
    requires Token(c + rest) == c != "" && '[' !in c[1..] && IsPlaceholder(key) && key !in m && c !in m && c != key
    requires ReplaceAll(Subst(m, rest), key, value) == Subst(m[key := value], rest)
    ensures ReplaceAll(Subst(m, c + rest), key, value) == Subst(m[key := value], c + rest)
  {
    TokenOfPrefix(c, rest, Subst(m, rest));
    SubstKeepsToken(m, c, rest);
    ReplaceKeepsToken(c, Subst(m, rest), key, value);
    SubstKeepsToken(m[key := value], c, rest);
  }

  lemma TokenInFront(m: map<string, string>, t: string)
    requires CleanTemplate(t) && PlainWhereUsed(m, t) && Token(t) != ""
    ensures var c := Token(t);
      && t == c + t[|c|..] && Token(c + t[|c|..]) == c && '[' !in c[1..]
      && (c in m ==> '[' !in m[c])
  {
    assert t[0..] == t;
  }

  lemma ReplaceAtToken(m: map<string, string>, t: string, key: string, value: string)
    requires CleanTemplate(t) && PlainWhereUsed(m, t) && IsPlaceholder(key) && key !in m && Token(t) != ""
    requires ReplaceAll(Subst(m, t[|Token(t)|..]), key, value) == Subst(m[key := value], t[|Token(t)|..])
    ensures ReplaceAll(Subst(m, t), key, value) == Subst(m[key := value], t)
  {
    TokenInFront(m, t);
    var c := Token(t);
    if c in m {
      ReplaceAtKnown(m, c, t[|c|..], key, value);
    } else if c == key {
      ReplaceAtKey(m, c, t[|c|..], value);
    } else {
      ReplaceAtOther(m, c, t[|c|..], key, value);
    }
  }

  // ------------------------------------------------------------ all of them, in any order

  function ReplaceInOrder(m: map<string, string>, order: seq<string>, t: string): string
    requires forall key | key in order :: key in m && key != ""
  {
    if order == [] then t
    else ReplaceAll(ReplaceInOrder(m, order[..|order| - 1], t), order[|order| - 1], m[order[|order| - 1]])
  }

  ghost predicate OrderOf(m: map<string, string>, order: seq<string>)
  {
    Distinct(order) && forall key :: key in order <==> key in m
  }

  function Only(m: map<string, string>, keys: seq<string>): map<string, string>
  {
    map key | key in m && key in keys :: m[key]
  }

  lemma OnlyKeepsPlain(m: map<string, string>, keys: seq<string>, t: string)
    requires PlainWhereUsed(m, t)
    ensures PlainWhereUsed(Only(m, keys), t)
  {
    var some := Only(m, keys);
    forall i | 0 <= i < |t| && Token(t[i..]) in some
      ensures NoBrackets(some[Token(t[i..])])
    {
    }
  }

  lemma {:induction false} PrefixIsSubst(m: map<string, string>, order: seq<string>, t: string)
    requires CleanTemplate(t) && Placeholders(m) && PlainWhereUsed(m, t)
    requires Distinct(order) && forall key | key in order :: key in m
    ensures ReplaceInOrder(m, order, t) == Subst(Only(m, order), t)
  {
    if order == [] {
      SubstOfNone(Only(m, order), t);
    } else {
      var front, last := order[..|order| - 1], order[|order| - 1];
      PrefixIsSubst(m, front, t);
      OnlyKeepsPlain(m, front, t);
      ReplaceExtendsSubst(Only(m, front), t, last, m[last]);
      assert order == front + [last];
      assert Only(m, order) == Only(m, front)[last := m[last]];
    }
  }

  lemma {:induction false} SubstOfNone(m: map<string, string>, t: string)
    requires m.Keys == {}
    ensures Subst(m, t) == t
  {
    if t != "" {
      SubstStep(m, t);
      SubstOfNone(m, t[1..]);
      assert t == [t[0]] + t[1..];
    }
  }

  /** For a clean template, and values without brackets for the placeholders that it uses, every order
      gives the simultaneous substitution. */
  lemma OrderIsIrrelevant(m: map<string, string>, order: seq<string>, t: string)
    requires CleanTemplate(t) && Placeholders(m) && PlainWhereUsed(m, t) && OrderOf(m, order)
    ensures ReplaceInOrder(m, order, t) == Subst(m, t)
  {
    PrefixIsSubst(m, order, t);
    assert Only(m, order) == m;
  }

  /** What the substitution means: text without brackets stays, a placeholder becomes its value. */
  lemma SubstMeaning(m: map<string, string>, text: string, key: string, rest: string)
    requires '[' !in text && IsPlaceholder(key) && key in m
    ensures Subst(m, text + key + rest) == text + m[key] + Subst(m, rest)
  {
    assert text + key + rest == text + (key + rest);
    SubstSkips(m, text, key + rest);
    TokenOfPlaceholder(key, rest);
    assert (key + rest)[|key|..] == rest;
  }

  // ------------------------------------------------------------ the profile's placeholders

  /** What a template can name: the SSH server, the TLS server name and the HTTP proxy. */
  datatype Profile = Profile(host: string, port: int, sni: Option<string>, proxy: Option<(string, int)>)

  /** strconv.Itoa */
  function Decimal(n: int): (r: string)
    ensures NoBrackets(r)
  {
    if n < 0 then "-" + Itoa(-n) else Itoa(n)
  }

  function Values(p: Profile): map<string, string>
  {
    map[
      "[crlf]" := "\r\n",
      "[lf]" := "\n",
      "[host]" := p.host,
      "[port]" := Decimal(p.port),
      "[ssh_host]" := p.host,
      "[ssh_port]" := Decimal(p.port),
      "[sni]" := if p.sni.Some? then p.sni.value else "",
      "[proxy_host]" := if p.proxy.Some? then p.proxy.value.0 else "",
      "[proxy_port]" := if p.proxy.Some? then Decimal(p.proxy.value.1) else ""]
  }

  lemma TextKeys(key: string)
    requires key in {"[crlf]", "[lf]", "[sni]"}
    ensures IsPlaceholder(key)
  {
  }

  lemma ServerKeys(key: string)
    requires key in {"[host]", "[port]", "[ssh_host]", "[ssh_port]"}
    ensures IsPlaceholder(key)
  {
  }

  lemma ProxyKeys(key: string)
    requires key in {"[proxy_host]", "[proxy_port]"}
    ensures IsPlaceholder(key)
  {
  }

  lemma ValuesArePlaceholders(p: Profile)
    ensures Placeholders(Values(p))
  {
    forall key | key in Values(p)
      ensures IsPlaceholder(key)
    {
      if key in {"[crlf]", "[lf]", "[sni]"} {
        TextKeys(key);
      } else if key in {"[proxy_host]", "[proxy_port]"} {
        ProxyKeys(key);
      } else {
        ServerKeys(key);
      }
    }
  }

  lemma Named(key: string, name: string)
    requires key == "[" + name + "]" && NoBrackets(name)
    ensures IsPlaceholder(key)
  {
    assert key[1..|key| - 1] == name;
  }

  lemma PlainProfile(p: Profile, t: string)
    requires NoBrackets(p.host)
    requires p.sni.Some? ==> NoBrackets(p.sni.value)
    requires p.proxy.Some? ==> NoBrackets(p.proxy.value.0)
    ensures PlainWhereUsed(Values(p), t)
  {
    assert forall key | key in Values(p) :: NoBrackets(Values(p)[key]);
  }

  /** For a profile whose hosts and server name have no brackets, and a clean template, the order of the
      map is irrelevant. */
  lemma ProfileOrderIsIrrelevant(p: Profile, order: seq<string>, t: string)
    requires NoBrackets(p.host) && (p.sni.Some? ==> NoBrackets(p.sni.value))
            && (p.proxy.Some? ==> NoBrackets(p.proxy.value.0))
    requires CleanTemplate(t) && OrderOf(Values(p), order)
    ensures ReplaceInOrder(Values(p), order, t) == Subst(Values(p), t)
  {
    ValuesArePlaceholders(p);
    PlainProfile(p, t);
    OrderIsIrrelevant(Values(p), order, t);
  }

  /** The map's keys come in any order; `order` is the one that they came in. */
  method RenderPayload(t: string, p: Profile) returns (out: string, ghost order: seq<string>)
    ensures OrderOf(Values(p), order) && out == ReplaceInOrder(Values(p), order, t)
    ensures CleanTemplate(t) && PlainWhereUsed(Values(p), t) ==> out == Subst(Values(p), t)
  {
    var repl := Values(p);
    ValuesArePlaceholders(p);
    out, order := t, [];
    var keys := repl.Keys;
    while keys != {}
      invariant keys <= repl.Keys && Distinct(order)
      invariant forall key :: key in order <==> key in repl && key !in keys
      invariant out == ReplaceInOrder(repl, order, t)
    {
      var key :| key in keys;
      keys := keys - {key};
      assert (order + [key])[..|order|] == order;
      order := order + [key];
      out := ReplaceAll(out, key, repl[key]);
    }
    if CleanTemplate(t) && PlainWhereUsed(repl, t) {
      OrderIsIrrelevant(repl, order, t);
    }
  }

  // ------------------------------------------------------------ where the order matters

  lemma {:induction false} AnOrder(keys: set<string>) returns (order: seq<string>)
    ensures Distinct(order) && forall key :: key in order <==> key in keys
  {
    if keys == {} {
      order := [];
    } else {
      var key :| key in keys;
      var rest := AnOrder(keys - {key});
      order := rest + [key];
    }
  }

  /** Every order of the map renders the template alike. */
  ghost predicate OrdersAgree(m: map<string, string>, t: string)
    requires Placeholders(m)
  {
    forall a, b | OrderOf(m, a) && OrderOf(m, b) :: ReplaceInOrder(m, a, t) == ReplaceInOrder(m, b, t)
  }

  /** Nothing to replace in a placeholder but itself. */
  lemma ReplaceOther(w: string, key: string, value: string)
    requires IsPlaceholder(w) && IsPlaceholder(key) && w != key
    ensures ReplaceAll(w, key, value) == w
  {
    assert w + "" == w;
    TokenOfPlaceholder(w, "");
    NoOpenInside(w);
    ReplaceKeepsToken(w, "", key, value);
  }

  lemma NoOpenInside(w: string)
    requires IsPlaceholder(w)
    ensures '[' !in w[1..]
  {
    var inner := w[1..|w| - 1];
    assert forall i | 1 <= i < |w| - 1 :: w[i] == inner[i - 1];
  }

  /** A template in which the map can replace one placeholder only, and which that turns into another
      placeholder w. */
  ghost predicate Turns(m: map<string, string>, t: string, key: string, w: string)
    requires Placeholders(m)
  {
    && key in m && IsPlaceholder(w) && t != w
    && ReplaceAll(t, key, m[key]) == w
    && forall other | other in m && other != key :: ReplaceAll(t, other, m[other]) == t
  }

  /** What the orders make of it while w stays: t before the key's turn, w after it. */
  lemma {:induction false} TurnsOnce(m: map<string, string>, order: seq<string>, t: string, key: string, w: string)
    requires Placeholders(m) && Turns(m, t, key, w) && Distinct(order) && forall k | k in order :: k in m
    requires w in m && w != key ==> m[w] == w || w !in order
    ensures ReplaceInOrder(m, order, t) == if key in order then w else t
  {
    if order != [] {
      var front, last := order[..|order| - 1], order[|order| - 1];
      assert order == front + [last];
      TurnsOnce(m, front, t, key, w);
      if key in front {
        if last == w {
          ReplaceWhole(w, m[w]);
        } else {
          ReplaceOther(w, last, m[last]);
        }
      }
    }
  }

  lemma SelfOrOnce(m: map<string, string>, t: string, key: string, w: string, order: seq<string>)
    requires Placeholders(m) && Turns(m, t, key, w) && OrderOf(m, order)
    requires w !in m || w == key || m[w] == w
    ensures ReplaceInOrder(m, order, t) == w
  {
    TurnsOnce(m, order, t, key, w);
  }

  lemma InOrderStep(m: map<string, string>, front: seq<string>, last: string, t: string)
    requires (forall k | k in front :: k in m && k != "") && last in m && last != ""
    ensures ReplaceInOrder(m, front + [last], t) == ReplaceAll(ReplaceInOrder(m, front, t), last, m[last])
  {
    assert (front + [last])[..|front|] == front;
  }

  lemma KeyFirst(m: map<string, string>, t: string, key: string, w: string, rest: seq<string>)
    requires Placeholders(m) && Turns(m, t, key, w) && w in m && w != key
    requires Distinct([key] + rest) && w !in rest && forall k | k in rest :: k in m
    ensures ReplaceInOrder(m, ([key] + rest) + [w], t) == m[w]
  {
    TurnsOnce(m, [key] + rest, t, key, w);
    InOrderStep(m, [key] + rest, w, t);
    ReplaceWhole(w, m[w]);
  }

  lemma KeyLast(m: map<string, string>, t: string, key: string, w: string, rest: seq<string>)
    requires Placeholders(m) && Turns(m, t, key, w) && w in m && w != key
    requires key !in rest && forall k | k in rest :: k in m
    ensures ReplaceInOrder(m, ([w] + rest) + [key], t) == w
  {
    StaysBefore(m, [w] + rest, t, key, w);
    InOrderStep(m, [w] + rest, key, t);
  }

  lemma Surround(m: map<string, string>, first: string, rest: seq<string>, last: string)
    requires first in m && last in m && first != last
    requires Distinct(rest) && forall k :: k in rest <==> k in m.Keys - {first, last}
    ensures OrderOf(m, ([first] + rest) + [last]) && Distinct([first] + rest)
  {
    var order := ([first] + rest) + [last];
    forall i, j | 0 <= i < j < |order|
      ensures order[i] != order[j]
    {
      assert 0 < i ==> i - 1 < |rest| && order[i] == rest[i - 1] && rest[i - 1] in rest;
      assert j <= |rest| ==> order[j] == rest[j - 1] && rest[j - 1] in rest;
    }
    assert forall i | 0 <= i <= |rest| :: ([first] + rest)[i] == order[i];
  }

  /** The key first and w last gives w's value; w first and the key last gives w. */
  lemma TwoOrders(m: map<string, string>, t: string, key: string, w: string)
    requires Placeholders(m) && Turns(m, t, key, w) && w in m && w != key
    ensures exists a, b :: OrderOf(m, a) && OrderOf(m, b)
                           && ReplaceInOrder(m, a, t) == m[w] && ReplaceInOrder(m, b, t) == w
  {
    var rest := AnOrder(m.Keys - {key, w});
    Surround(m, key, rest, w);
    Surround(m, w, rest, key);
    KeyFirst(m, t, key, w, rest);
    KeyLast(m, t, key, w, rest);
    assert OrderOf(m, ([key] + rest) + [w]) && OrderOf(m, ([w] + rest) + [key]);
  }

  lemma {:induction false} StaysBefore(m: map<string, string>, order: seq<string>, t: string, key: string, w: string)
    requires Placeholders(m) && Turns(m, t, key, w) && key !in order && forall k | k in order :: k in m
    ensures ReplaceInOrder(m, order, t) == t
  {
    if order != [] {
      var front, last := order[..|order| - 1], order[|order| - 1];
      assert order == front + [last];
      StaysBefore(m, front, t, key, w);
    }
  }

  /** The orders agree exactly when what the one placeholder turns into is not replaced in its turn. */
  lemma OrdersAgreeIff(m: map<string, string>, t: string, key: string, w: string)
    requires Placeholders(m) && Turns(m, t, key, w)
    ensures OrdersAgree(m, t) <==> w !in m || w == key || m[w] == w
  {
    if w !in m || w == key || m[w] == w {
      forall a, b | OrderOf(m, a) && OrderOf(m, b)
        ensures ReplaceInOrder(m, a, t) == ReplaceInOrder(m, b, t)
      {
        SelfOrOnce(m, t, key, w, a);
        SelfOrOnce(m, t, key, w, b);
      }
    } else {
      TwoOrders(m, t, key, w);
    }
  }

  lemma NestedStep(a: string, key: string, value: string)
    requires NoBrackets(a) && IsPlaceholder(key)
    ensures ReplaceAll("[[" + a + "]]", key, value) == "[" + ReplaceAll("[" + a + "]" + "]", key, value)
  {
    var t := "[[" + a + "]]";
    assert key[1] == if |key| == 2 then ']' else key[1..|key| - 1][0];
    assert t[1] == '[' && key[1] != '[';
    assert !(key <= t);
    ReplaceStep(t, key, value);
    assert t[1..] == "[" + a + "]" + "]";
  }

  lemma ReplaceNestedSelf(a: string, value: string)
    requires NoBrackets(a)
    ensures ReplaceAll("[[" + a + "]]", "[" + a + "]", value) == "[" + value + "]"
  {
    var key := "[" + a + "]";
    Named(key, a);
    NestedStep(a, key, value);
    NothingToReplaceInClose(key, value);
    assert (key + "]")[..|key|] == key && (key + "]")[|key|..] == "]";
  }

  lemma ReplaceNestedOther(a: string, c: string, value: string)
    requires NoBrackets(a) && NoBrackets(c) && a != c
    ensures ReplaceAll("[[" + a + "]]", "[" + c + "]", value) == "[[" + a + "]]"
  {
    var ka, kc := "[" + a + "]", "[" + c + "]";
    Named(ka, a);
    Named(kc, c);
    KeysDiffer(a, c);
    NestedStep(a, kc, value);
    NothingToReplaceInClose(kc, value);
    TokenOfPlaceholder(ka, "]");
    ReplaceKeepsToken(ka, "]", kc, value);
    NestedShape(a);
  }

  lemma NestedShape(a: string)
    ensures "[" + ("[" + a + "]" + "]") == "[[" + a + "]]"
  {
  }

  lemma KeysDiffer(a: string, b: string)
    requires a != b
    ensures "[" + a + "]" != "[" + b + "]"
  {
    var ka, kb := "[" + a + "]", "[" + b + "]";
    assert ka[1..|ka| - 1] == a && kb[1..|kb| - 1] == b;
  }

  lemma NothingToReplaceInClose(key: string, value: string)
    requires IsPlaceholder(key)
    ensures ReplaceAll("]", key, value) == "]"
  {
  }

  lemma ReplaceWhole(key: string, value: string)
    requires key != ""
    ensures ReplaceAll(key, key, value) == value
  {
    assert key[..|key|] == key && value + "" == value;
  }

  /** A bracket pair inside a bracket pair, around any placeholder of the map with a bracket-free value. */
  lemma NestedTurns(m: map<string, string>, name: string)
    requires Placeholders(m) && NoBrackets(name) && "[" + name + "]" in m && NoBrackets(m["[" + name + "]"])
    ensures Turns(m, "[[" + name + "]]", "[" + name + "]", "[" + m["[" + name + "]"] + "]")
  {
    var key := "[" + name + "]";
    var t, w := "[[" + name + "]]", "[" + m[key] + "]";
    Named(w, m[key]);
    assert t[1] == '[' && (|w| == 2 ==> w[1] == ']') && (|w| > 2 ==> w[1] == m[key][0]);
    ReplaceNestedSelf(name, m[key]);
    forall other | other in m && other != key
      ensures ReplaceAll(t, other, m[other]) == t
    {
      var inner := other[1..|other| - 1];
      assert other == "[" + inner + "]";
      ReplaceNestedOther(name, inner, m[other]);
    }
  }

  /** The template "[[host]]": the orders of a profile's map agree exactly when the host, in brackets, is
      no other placeholder, or one that stands for itself. */
  lemma NestedPairDependsOnOrder(p: Profile)
    requires NoBrackets(p.host) && Placeholders(Values(p))
    ensures var w := "[" + p.host + "]";
      OrdersAgree(Values(p), "[[host]]") <==> w !in Values(p) || w == "[host]" || Values(p)[w] == w
  {
    var t := "[[host]]";
    assert t == "[[" + "host" + "]]" && "[host]" == "[" + "host" + "]";
    NestedTurns(Values(p), "host");
    OrdersAgreeIff(Values(p), t, "[host]", "[" + p.host + "]");
  }

  lemma WholeTurns(m: map<string, string>, key: string)
    requires Placeholders(m) && key in m && IsPlaceholder(m[key]) && m[key] != key
    ensures Turns(m, key, key, m[key])
  {
    ReplaceWhole(key, m[key]);
    forall other | other in m && other != key
      ensures ReplaceAll(key, other, m[other]) == key
    {
      ReplaceOther(key, other, m[other]);
    }
  }

  /** The template "[host]" and a host in brackets: likewise. */
  lemma BracketedValueDependsOnOrder(p: Profile)
    requires IsPlaceholder(p.host) && p.host != "[host]" && Placeholders(Values(p))
    ensures OrdersAgree(Values(p), "[host]") <==> p.host !in Values(p) || Values(p)[p.host] == p.host
  {
    WholeTurns(Values(p), "[host]");
    OrdersAgreeIff(Values(p), "[host]", "[host]", p.host);
  }

  /** A host that is the name of a placeholder, and one that is a placeholder. */
  lemma OrdersCanDisagree(p: Profile, q: Profile)
    requires p.host == "lf" && q.host == "[lf]"
    ensures Placeholders(Values(p)) && !OrdersAgree(Values(p), "[[host]]")
    ensures Placeholders(Values(q)) && !OrdersAgree(Values(q), "[host]")
  {
    ValuesArePlaceholders(p);
    ValuesArePlaceholders(q);
    assert "[" + "lf" + "]" == "[lf]";
    assert Values(p)["[lf]"] == "\n" && Values(q)["[lf]"] == "\n";
    NestedPairDependsOnOrder(p);
    Named("[lf]", "lf");
    BracketedValueDependsOnOrder(q);
  }
}
