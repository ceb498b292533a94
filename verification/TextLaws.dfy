/** What the string functions of the stores mean, on texts put together from their parts. */
module TextLaws {
  import opened Seqs
  import opened Text

  // ------------------------------------------------------------ letters and numbers

  /** The Latin capitals become their small letters, the dotted I and the Kelvin sign i and k, and every other
      character stays. */
  lemma LowerCase(i: nat, c: char)
    requires i < 26
    ensures Lower(('A' as int + i) as char) == ('a' as int + i) as char
    ensures Lower('\U{130}') == 'i' && Lower('\U{212A}') == 'k'
    ensures !('A' <= c <= 'Z') && c != '\U{130}' && c != '\U{212A}' ==> Lower(c) == c
  {
  }

  /** The number that a string of digits stands for. */
  function Value(s: string): nat
    requires forall i | 0 <= i < |s| :: '0' <= s[i] <= '9'
  {
    if s == "" then 0 else 10 * Value(s[..|s| - 1]) + (s[|s| - 1] as int - '0' as int)
  }

  /** Itoa writes the number itself, without leading zeros. */
  lemma {:induction false} ItoaValue(n: nat)
    ensures Value(Itoa(n)) == n && (Itoa(n)[0] == '0' <==> n == 0)
  {
    var s := Itoa(n);
    if n < 10 {
      assert s[..0] == "";
    } else {
      ItoaValue(n / 10);
      assert s[..|s| - 1] == Itoa(n / 10) && s[0] == Itoa(n / 10)[0];
    }
  }

  // ------------------------------------------------------------ trimming

  predicate Spaces(s: string) { forall c | c in s :: IsSpace(c) }

  predicate Dashes(s: string) { forall c | c in s :: c == '-' }

  predicate NoSpaceEnds(s: string) { s != "" ==> !IsSpace(s[0]) && !IsSpace(s[|s| - 1]) }

  predicate NoDashEnds(s: string) { s != "" ==> s[0] != '-' && s[|s| - 1] != '-' }

  lemma {:induction false} SpacesLeft(a: string, s: string)
    requires Spaces(a) && (s != "" ==> !IsSpace(s[0]))
    ensures TrimSpaceLeft(a + s) == s
  {
    if a == "" {
      assert a + s == s;
    } else {
      assert a[0] in a && (a + s)[1..] == a[1..] + s && forall c | c in a[1..] :: c in a;
      SpacesLeft(a[1..], s);
    }
  }

  lemma {:induction false} SpacesRight(s: string, a: string)
    requires Spaces(a) && (s != "" ==> !IsSpace(s[|s| - 1]))
    ensures TrimSpaceRight(s + a) == s
  {
    if a == "" {
      assert s + a == s;
    } else {
      var n := |a| - 1;
      assert a[n] in a && (s + a)[..|s| + n] == s + a[..n] && forall c | c in a[..n] :: c in a;
      SpacesRight(s, a[..n]);
    }
  }

  /** TrimSpace takes the spaces around a text off and nothing else. */
  lemma TrimSpaceCuts(a: string, s: string, b: string)
    requires Spaces(a) && Spaces(b) && NoSpaceEnds(s)
    ensures TrimSpace(a + s + b) == s
  {
    if s == "" {
      SpacesLeft(a + s + b, "");
      assert (a + s + b) + "" == a + s + b;
    } else {
      Regroup(a, s, b);
      assert (s + b)[0] == s[0];
      SpacesLeft(a, s + b);
      SpacesRight(s, b);
    }
  }

  lemma {:induction false} SplitSpaces(s: string) returns (a: string, b: string)
    ensures Spaces(a) && Spaces(b) && s == a + TrimSpace(s) + b
  {
    a := LeadingSpaces(s);
    var t := TrimSpaceLeft(s);
    b := TrailingSpaces(t);
    Regroup(a, TrimSpace(s), b);
  }

  lemma SpaceInFront(c: char, more: string, rest: string)
    requires IsSpace(c) && Spaces(more)
    ensures Spaces([c] + more) && ([c] + more) + rest == [c] + (more + rest)
  {
  }

  lemma SpaceBehind(rest: string, more: string, c: char)
    requires IsSpace(c) && Spaces(more)
    ensures Spaces(more + [c]) && rest + (more + [c]) == (rest + more) + [c]
  {
  }

  lemma {:induction false} LeadingSpaces(s: string) returns (a: string)
    ensures Spaces(a) && s == a + TrimSpaceLeft(s)
  {
    if s != "" && IsSpace(s[0]) {
      var more := LeadingSpaces(s[1..]);
      a := [s[0]] + more;
      SpaceInFront(s[0], more, TrimSpaceLeft(s[1..]));
      assert s == [s[0]] + s[1..];
    } else {
      a := "";
    }
  }

  lemma {:induction false} TrailingSpaces(s: string) returns (b: string)
    ensures Spaces(b) && s == TrimSpaceRight(s) + b
  {
    if s != "" && IsSpace(s[|s| - 1]) {
      var n := |s| - 1;
      var more := TrailingSpaces(s[..n]);
      b := more + [s[n]];
      SpaceBehind(TrimSpaceRight(s[..n]), more, s[n]);
      assert s == s[..n] + [s[n]];
    } else {
      b := "";
    }
  }

  lemma {:induction false} DashesLeft(a: string, s: string)
    requires Dashes(a) && (s != "" ==> s[0] != '-')
    ensures TrimDashLeft(a + s) == s
  {
    if a == "" {
      assert a + s == s;
    } else {
      assert a[0] in a && (a + s)[1..] == a[1..] + s && forall c | c in a[1..] :: c in a;
      DashesLeft(a[1..], s);
    }
  }

  lemma {:induction false} DashesRight(s: string, a: string)
    requires Dashes(a) && (s != "" ==> s[|s| - 1] != '-')
    ensures TrimDashRight(s + a) == s
  {
    if a == "" {
      assert s + a == s;
    } else {
      var n := |a| - 1;
      assert a[n] in a && (s + a)[..|s| + n] == s + a[..n] && forall c | c in a[..n] :: c in a;
      DashesRight(s, a[..n]);
    }
  }

  /** TrimDash takes the dashes around a text off and nothing else. */
  lemma TrimDashCuts(a: string, s: string, b: string)
    requires Dashes(a) && Dashes(b) && NoDashEnds(s)
    ensures TrimDash(a + s + b) == s
  {
    if s == "" {
      DashesLeft(a + s + b, "");
      assert (a + s + b) + "" == a + s + b;
    } else {
      Regroup(a, s, b);
      assert (s + b)[0] == s[0];
      DashesLeft(a, s + b);
      DashesRight(s, b);
    }
  }

  lemma {:induction false} LeadingDashes(s: string) returns (a: string)
    ensures Dashes(a) && s == a + TrimDashLeft(s)
    ensures TrimDashLeft(s) != "" ==> TrimDashLeft(s)[0] != '-'
  {
    if s != "" && s[0] == '-' {
      var more := LeadingDashes(s[1..]);
      a := [s[0]] + more;
      assert s == [s[0]] + s[1..];
    } else {
      a := "";
    }
  }

  lemma {:induction false} TrailingDashes(s: string) returns (b: string)
    ensures Dashes(b) && s == TrimDashRight(s) + b
    ensures TrimDashRight(s) != "" ==> TrimDashRight(s)[|TrimDashRight(s)| - 1] != '-'
  {
    if s != "" && s[|s| - 1] == '-' {
      var n := |s| - 1;
      var more := TrailingDashes(s[..n]);
      b := more + [s[n]];
      assert s == s[..n] + [s[n]];
    } else {
      b := "";
    }
  }

  lemma SplitDashes(s: string) returns (a: string, b: string)
    ensures Dashes(a) && Dashes(b) && s == a + TrimDash(s) + b && NoDashEnds(TrimDash(s))
  {
    a := LeadingDashes(s);
    var t := TrimDashLeft(s);
    b := TrailingDashes(t);
    Regroup(a, TrimDash(s), b);
    assert TrimDash(s) != "" ==> TrimDash(s)[0] == t[0];
  }

  // ------------------------------------------------------------ slugs

  predicate AllPlain(s: string) { forall i | 0 <= i < |s| :: Plain(s[i]) }

  predicate NonePlain(s: string) { forall i | 0 <= i < |s| :: !Plain(s[i]) }

  /** Whether a dash has just been written behind s. */
  predicate EndsOther(s: string, before: bool) { if s == "" then before else !Plain(s[|s| - 1]) }

  lemma {:induction false} DashedParts(s: string, t: string, lastDash: bool)
    ensures Dashed(s + t, lastDash) == Dashed(s, lastDash) + Dashed(t, EndsOther(s, lastDash))
  {
    if s == "" {
      assert s + t == t;
    } else {
      assert (s + t)[1..] == s[1..] + t;
      DashedParts(s[1..], t, !Plain(s[0]));
      assert EndsOther(s[1..], !Plain(s[0])) == EndsOther(s, lastDash);
    }
  }

  lemma {:induction false} DashedGap(gap: string, lastDash: bool)
    requires NonePlain(gap)
    ensures Dashed(gap, lastDash) == if gap == "" || lastDash then "" else "-"
  {
    if gap != "" {
      DashedGap(gap[1..], true);
    }
  }

  lemma {:induction false} DashedWord(word: string, lastDash: bool)
    requires AllPlain(word)
    ensures Dashed(word, lastDash) == word
  {
    if word != "" {
      DashedWord(word[1..], false);
      assert word == [word[0]] + word[1..];
    }
  }

  lemma {:induction false} DashedEnd(s: string, lastDash: bool)
    ensures s != "" && Plain(s[|s| - 1]) ==>
              Dashed(s, lastDash) != "" && Dashed(s, lastDash)[|Dashed(s, lastDash)| - 1] != '-'
    ensures s != "" && !Plain(s[|s| - 1]) && !lastDash ==>
              Dashed(s, lastDash) != "" && Dashed(s, lastDash)[|Dashed(s, lastDash)| - 1] == '-'
    decreases |s|
  {
    if s != "" {
      var front, last := s[..|s| - 1], s[|s| - 1..];
      assert s == front + last;
      DashedParts(front, last, lastDash);
      assert last[1..] == "";
      if !Plain(last[0]) && EndsOther(front, lastDash) && front != "" {
        DashedEnd(front, lastDash);
        assert Dashed(last, true) == "";
        assert Dashed(front, lastDash) + "" == Dashed(front, lastDash);
      }
    }
  }

  function Core(t: string): string { TrimDash(Dashed(t, false)) }

  /** Behind a gap the dash at the front has been written already. */
  lemma CoreBehindGap(t: string)
    ensures TrimDash(Dashed(t, true)) == Core(t)
  {
    DashedIsTight(t, true);
    if t != "" && !Plain(t[0]) {
      var rest := Dashed(t[1..], true);
      var a, b := SplitDashes(rest);
      assert "-" + rest == ("-" + a) + TrimDash(rest) + b;
      TrimDashCuts("-" + a, TrimDash(rest), b);
    }
  }

  /** The pieces on both sides of a gap, with a single dash between them. */
  function Between(a: string, b: string): string
  {
    if a == "" then b else if b == "" then a else a + "-" + b
  }

  lemma OneDashAtMost(s: string, a: string, core: string, b: string)
    requires Tight(s) && s == a + core + b && Dashes(a) && Dashes(b) && core != "" && NoDashEnds(core)
    ensures b == if s[|s| - 1] == '-' then "-" else ""
  {
    var k := |a| + |core|;
    assert k < |s| - 1 ==> s[k] != '-' || s[k + 1] != '-';
    forall j | k <= j < |s|
      ensures s[j] == '-'
    {
      assert s[j] == b[j - k] && b[j - k] in b;
    }
    if |b| == 1 {
      assert s[|s| - 1] == b[0] && b[0] in b;
    } else {
      assert s[|s| - 1] == core[|core| - 1];
    }
  }

  lemma TrimsBetween(a: string, p: string, mid: string, q: string, d: string)
    requires Dashes(a) && Dashes(mid) && Dashes(d) && NoDashEnds(p) && NoDashEnds(q)
    requires p != "" && q != "" ==> mid == "-"
    ensures TrimDash(a + (p + (mid + (q + d)))) == Between(p, q)
  {
    if p == "" {
      assert a + (p + (mid + (q + d))) == (a + mid) + q + d;
      TrimDashCuts(a + mid, q, d);
    } else if q == "" {
      assert a + (p + (mid + (q + d))) == a + p + (mid + d);
      TrimDashCuts(a, p, mid + d);
    } else {
      assert a + (p + ("-" + (q + d))) == a + (p + "-" + q) + d;
      TrimDashCuts(a, p + "-" + q, d);
    }
  }

  lemma Reassociate(a: string, p: string, b: string, e: string, c: string, q: string, d: string)
    ensures (a + p + b) + (e + (c + q + d)) == a + (p + ((b + e + c) + (q + d)))
  {
  }

  /** What is written up to the end of a gap behind s, without its dashes at both ends. */
  lemma LeftSide(s: string, e: string) returns (a: string, b: string)
    requires e == if EndsOther(s, false) then "" else "-"
    ensures Dashes(a) && Dashes(b) && Dashed(s, false) == a + Core(s) + b && NoDashEnds(Core(s))
    ensures Core(s) != "" ==> b + e == "-"
  {
    var left := Dashed(s, false);
    a, b := SplitDashes(left);
    if Core(s) != "" {
      DashedIsTight(s, false);
      OneDashAtMost(left, a, Core(s), b);
      DashedEnd(s, false);
    }
  }

  lemma RightSide(t: string) returns (c: string, d: string)
    ensures Dashes(c) && Dashes(d) && Dashed(t, true) == c + Core(t) + d && NoDashEnds(Core(t)) && c == ""
  {
    var right := Dashed(t, true);
    CoreBehindGap(t);
    DashedIsTight(t, true);
    if right == "" || right[0] != '-' {
      assert TrimDashLeft(right) == right;
      c := "";
      d := TrailingDashes(right);
    }
  }

  lemma CoreParts(s: string, gap: string, t: string)
    requires gap != "" && NonePlain(gap)
    ensures Core(s + (gap + t)) == Between(Core(s), Core(t))
  {
    var e := if EndsOther(s, false) then "" else "-";
    DashedParts(s, gap + t, false);
    DashedParts(gap, t, EndsOther(s, false));
    DashedGap(gap, EndsOther(s, false));
    var a, b := LeftSide(s, e);
    var c, d := RightSide(t);
    Reassociate(a, Core(s), b, e, c, Core(t), d);
    assert b + e + c == b + e;
    TrimsBetween(a, Core(s), b + e + c, Core(t), d);
  }

  lemma LowerParts(s: string, t: string)
    ensures ToLower(s + t) == ToLower(s) + ToLower(t)
  {
  }

  lemma GapBehind(s: string, gap: string)
    requires NonePlain(gap)
    ensures Core(s + gap) == Core(s)
  {
    if gap == "" {
      assert s + gap == s;
    } else {
      CoreParts(s, gap, "");
      assert gap + "" == gap;
    }
  }

  lemma GapBefore(gap: string, t: string)
    requires NonePlain(gap)
    ensures Core(gap + t) == Core(t)
  {
    if gap == "" {
      assert gap + t == t;
    } else {
      CoreParts("", gap, t);
      assert "" + (gap + t) == gap + t;
    }
  }

  /** Trimming the spaces first makes no difference to a slug. */
  lemma SlugIsCore(s: string)
    ensures Slug(s) == Core(ToLower(s))
  {
    var a, b := SplitSpaces(s);
    Regroup(a, TrimSpace(s), b);
    LowerParts(a, TrimSpace(s) + b);
    LowerParts(TrimSpace(s), b);
    SpacesAreOther(a);
    SpacesAreOther(b);
    GapBehind(ToLower(TrimSpace(s)), ToLower(b));
    GapBefore(ToLower(a), ToLower(TrimSpace(s)) + ToLower(b));
  }

  lemma SpacesAreOther(a: string)
    requires Spaces(a)
    ensures NonePlain(ToLower(a))
  {
    forall i | 0 <= i < |a|
      ensures !Plain(ToLower(a)[i])
    {
      assert a[i] in a;
    }
  }

  /** A word of letters and digits is its own slug but for its capitals. */
  lemma SlugOfWord(word: string)
    requires AllPlain(ToLower(word))
    ensures Slug(word) == ToLower(word)
  {
    SlugIsCore(word);
    DashedWord(ToLower(word), false);
    assert "" + ToLower(word) + "" == ToLower(word);
    TrimDashCuts("", ToLower(word), "");
  }

  /** And a gap between two texts, of whatever else and however long, makes one dash between their slugs, or none
      where one of them is empty. Together with the words that says what the slug of any text is. */
  lemma SlugOfParts(s: string, gap: string, t: string)
    requires gap != "" && NonePlain(ToLower(gap))
    ensures Slug(s + (gap + t)) == Between(Slug(s), Slug(t))
  {
    SlugIsCore(s);
    SlugIsCore(t);
    SlugIsCore(s + (gap + t));
    LowerParts(s, gap + t);
    LowerParts(gap, t);
    CoreParts(ToLower(s), ToLower(gap), ToLower(t));
  }
}
