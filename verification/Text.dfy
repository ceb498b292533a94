/** The string functions that the stores rely on. */
module Text {

  /** unicode.IsSpace */
  predicate IsSpace(c: char)
  {
    || '\t' <= c <= '\r' || c == ' ' || c == '\U{85}' || c == '\U{A0}' || c == '\U{1680}'
    || '\U{2000}' <= c <= '\U{200A}' || c == '\U{2028}' || c == '\U{2029}' || c == '\U{202F}'
    || c == '\U{205F}' || c == '\U{3000}'
  }

  function TrimSpaceLeft(s: string): (r: string)
    ensures r != "" ==> !IsSpace(r[0])
    ensures (s != "" ==> !IsSpace(s[0])) ==> r == s
    ensures r != "" ==> s != "" && r[|r| - 1] == s[|s| - 1]
  {
    if s != "" && IsSpace(s[0]) then TrimSpaceLeft(s[1..]) else s
  }

  function TrimSpaceRight(s: string): (r: string)
    ensures r != "" ==> s != "" && r[0] == s[0] && !IsSpace(r[|r| - 1])
    ensures (s != "" ==> !IsSpace(s[|s| - 1])) ==> r == s
  {
    if s != "" && IsSpace(s[|s| - 1]) then TrimSpaceRight(s[..|s| - 1]) else s
  }

  /** strings.TrimSpace */
  function TrimSpace(s: string): (r: string)
    ensures r != "" ==> !IsSpace(r[0]) && !IsSpace(r[|r| - 1])
    ensures (s != "" ==> !IsSpace(s[0]) && !IsSpace(s[|s| - 1])) ==> r == s
  {
    TrimSpaceRight(TrimSpaceLeft(s))
  }

  function TrimDashLeft(s: string): string
  {
    if s != "" && s[0] == '-' then TrimDashLeft(s[1..]) else s
  }

  function TrimDashRight(s: string): string
  {
    if s != "" && s[|s| - 1] == '-' then TrimDashRight(s[..|s| - 1]) else s
  }

  /** strings.Trim(s, "-") */
  function TrimDash(s: string): string
  {
    TrimDashRight(TrimDashLeft(s))
  }

  /** unicode.ToLower as far as it yields an ASCII character: the Latin capitals, the capital I with
      a dot above and the Kelvin sign. */
  function Lower(c: char): char
  {
    if 'A' <= c <= 'Z' then (c as int + 32) as char
    else if c == '\U{130}' then 'i'
    else if c == '\U{212A}' then 'k'
    else c
  }

  function ToLower(s: string): (r: string)
    ensures |r| == |s| && forall i | 0 <= i < |s| :: r[i] == Lower(s[i])
  {
    seq(|s|, i requires 0 <= i < |s| => Lower(s[i]))
  }

  // ---------------------------------------------------------------------------

  predicate Plain(c: char) { 'a' <= c <= 'z' || '0' <= c <= '9' }

  /** The loop of slugify: runs of other characters become one dash. */
  function Dashed(s: string, lastDash: bool): string
  {
    if s == "" then ""
    else if Plain(s[0]) then [s[0]] + Dashed(s[1..], false)
    else if lastDash then Dashed(s[1..], true)
    else "-" + Dashed(s[1..], true)
  }

  function Slug(s: string): string
  {
    TrimDash(Dashed(ToLower(TrimSpace(s)), false))
  }

  lemma DashedFrom(t: string, i: nat, lastDash: bool, b: string)
    requires i < |t|
    ensures var rest := Dashed(t[i + 1..], !Plain(t[i]));
            b + Dashed(t[i..], lastDash) ==
            (if Plain(t[i]) then b + [t[i]] else if lastDash then b else b + "-") + rest
  {
    var rest := Dashed(t[i + 1..], !Plain(t[i]));
    assert t[i..][1..] == t[i + 1..];
    assert (b + [t[i]]) + rest == b + ([t[i]] + rest);
    assert (b + "-") + rest == b + ("-" + rest);
  }

  method Slugify(s: string) returns (r: string)
    ensures r == Slug(s)
  {
    var t := ToLower(TrimSpace(s));
    var b := "";
    var lastDash := false;
    var i := 0;
    ghost var whole := Dashed(t, false);
    assert t[0..] == t && "" + whole == whole;
    while i < |t|
      invariant 0 <= i <= |t|
      invariant b + Dashed(t[i..], lastDash) == whole
    {
      DashedFrom(t, i, lastDash, b);
      if Plain(t[i]) {
        b := b + [t[i]];
        lastDash := false;
      } else if !lastDash {
        b := b + "-";
        lastDash := true;
      }
      i := i + 1;
    }
    assert b + "" == b;
    r := TrimDash(b);
  }

  /** Letters, digits and dashes, never two dashes in a row. */
  predicate Tight(s: string)
  {
    && (forall i | 0 <= i < |s| :: Plain(s[i]) || s[i] == '-')
    && (forall i | 0 <= i < |s| - 1 :: s[i] != '-' || s[i + 1] != '-')
  }

  predicate IsSlug(s: string)
  {
    Tight(s) && (s != "" ==> s[0] != '-' && s[|s| - 1] != '-')
  }

  lemma {:induction false} DashedIsTight(s: string, lastDash: bool)
    ensures Tight(Dashed(s, lastDash))
    ensures lastDash && Dashed(s, lastDash) != "" ==> Dashed(s, lastDash)[0] != '-'
  {
    if s != "" {
      DashedIsTight(s[1..], !Plain(s[0]));
    }
  }

  lemma {:induction false} TrimDashLeftIsTight(s: string)
    requires Tight(s)
    ensures Tight(TrimDashLeft(s)) && (TrimDashLeft(s) != "" ==> TrimDashLeft(s)[0] != '-')
  {
    if s != "" && s[0] == '-' {
      TrimDashLeftIsTight(s[1..]);
    }
  }

  lemma {:induction false} TrimDashRightIsSlug(s: string)
    requires Tight(s) && (s != "" ==> s[0] != '-')
    ensures IsSlug(TrimDashRight(s))
  {
    if s != "" && s[|s| - 1] == '-' {
      TrimDashRightIsSlug(s[..|s| - 1]);
    }
  }

  lemma SlugIsSlug(s: string)
    ensures IsSlug(Slug(s))
  {
    DashedIsTight(ToLower(TrimSpace(s)), false);
    var dashed := Dashed(ToLower(TrimSpace(s)), false);
    TrimDashLeftIsTight(dashed);
    TrimDashRightIsSlug(TrimDashLeft(dashed));
  }

  lemma {:induction false} DashedOfTight(s: string, lastDash: bool)
    requires Tight(s) && (lastDash && s != "" ==> s[0] != '-')
    ensures Dashed(s, lastDash) == s
  {
    if s != "" {
      DashedOfTight(s[1..], s[0] == '-');
      assert s == [s[0]] + s[1..];
    }
  }

  lemma SlugOfSlug(s: string)
    requires IsSlug(s)
    ensures Slug(s) == s && TrimSpace(s) == s && TrimDash(s) == s
  {
    assert TrimSpace(s) == s;
    assert ToLower(s) == s;
    DashedOfTight(s, false);
  }

  /** slugify is idempotent. */
  lemma SlugTwice(s: string)
    ensures Slug(Slug(s)) == Slug(s)
  {
    SlugIsSlug(s);
    SlugOfSlug(Slug(s));
  }

  // ---------------------------------------------------------------------------

  function Digit(n: nat): char
    requires n < 10
  {
    ('0' as int + n) as char
  }

  /** %d */
  function Itoa(n: nat): (r: string)
    ensures r != "" && forall i | 0 <= i < |r| :: '0' <= r[i] <= '9'
  {
    if n < 10 then [Digit(n)] else Itoa(n / 10) + [Digit(n % 10)]
  }

  lemma {:induction false} ItoaInjective(a: nat, b: nat)
    requires Itoa(a) == Itoa(b)
    ensures a == b
  {
    var s, t := Itoa(a), Itoa(b);
    assert s[|s| - 1] == Digit(a % 10) && t[|t| - 1] == Digit(b % 10);
    assert a >= 10 ==> |s| > 1;
    assert b >= 10 ==> |t| > 1;
    if a >= 10 && b >= 10 {
      assert s[..|s| - 1] == Itoa(a / 10) && t[..|t| - 1] == Itoa(b / 10);
      ItoaInjective(a / 10, b / 10);
    }
  }
}
