/** What the probe's text functions mean, on lines and numbers put together from their parts. */
module BannerLaws {
  import opened Seqs
  import opened Streams
  import opened BannerProbe

  predicate Spaces(s: seq<Byte>) { forall b | b in s :: IsSpace(b) }

  predicate NoSpace(s: seq<Byte>) { forall b | b in s :: !IsSpace(b) }

  /** Starts and ends with something else than a space. */
  predicate Tight(s: seq<Byte>) { s != [] && !IsSpace(s[0]) && !IsSpace(s[|s| - 1]) }

  // ------------------------------------------------------------ trimming

  lemma {:induction false} TrimsLeft(a: seq<Byte>, s: seq<Byte>)
    requires Spaces(a) && (s != [] ==> !IsSpace(s[0]))
    ensures TrimLeft(a + s) == s
  {
    if a == [] {
      assert a + s == s;
    } else {
      assert a[0] in a && (a + s)[1..] == a[1..] + s;
      assert forall b | b in a[1..] :: b in a;
      TrimsLeft(a[1..], s);
    }
  }

  lemma {:induction false} TrimsRight(s: seq<Byte>, a: seq<Byte>)
    requires Spaces(a) && (s != [] ==> !IsSpace(s[|s| - 1]))
    ensures TrimRight(s + a) == s
  {
    if a == [] {
      assert s + a == s;
    } else {
      var n := |a| - 1;
      assert a[n] in a && (s + a)[..|s| + n] == s + a[..n];
      assert forall b | b in a[..n] :: b in a;
      TrimsRight(s, a[..n]);
    }
  }

  lemma TrimsTo(a: seq<Byte>, s: seq<Byte>, b: seq<Byte>)
    requires Spaces(a) && Spaces(b) && Tight(s)
    ensures TrimSpace(a + s + b) == s
  {
    Regroup(a, s, b);
    assert (s + b)[0] == s[0];
    TrimsLeft(a, s + b);
    TrimsRight(s, b);
  }

  lemma {:induction false} SpacesTrimAway(a: seq<Byte>)
    requires Spaces(a)
    ensures TrimSpace(a) == []
  {
    TrimsLeft(a, []);
    assert a + [] == a;
  }

  // ------------------------------------------------------------ numbers

  /** The decimal digits of n. */
  function Digits(n: nat): (r: seq<Byte>)
    ensures r != [] && forall b | b in r :: 48 <= b <= 57
  {
    if n < 10 then [48 + n] else Digits(n / 10) + [48 + n % 10]
  }

  lemma {:induction false} DecimalOfDigits(n: nat)
    ensures Decimal(Digits(n)) == Some(n)
  {
    var s := Digits(n);
    if n < 10 {
      assert s[..0] == [] && Decimal(s[..0]) == Some(0);
    } else {
      DecimalOfDigits(n / 10);
      assert s[..|s| - 1] == Digits(n / 10);
    }
  }

  lemma {:induction false} DecimalIffDigits(s: seq<Byte>)
    ensures Decimal(s).Some? <==> forall b | b in s :: 48 <= b <= 57
  {
    if s != [] {
      var front, last := s[..|s| - 1], s[|s| - 1];
      DecimalIffDigits(front);
      assert s == front + [last];
      assert last in s && forall b | b in front :: b in s;
    }
  }

  lemma SignedDigits(sign: Byte, d: seq<Byte>)
    requires sign == 43 || sign == 45
    ensures Atoi([sign] + d)
            == if d == [] || Decimal(d).None? then None else Within(if sign == 45 then 0 - Decimal(d).value
                                                                    else Decimal(d).value)
  {
    assert ([sign] + d)[1..] == d;
  }

  lemma UnsignedDigits(d: seq<Byte>)
    requires d != [] && d[0] != 43 && d[0] != 45
    ensures Atoi(d) == if Decimal(d).None? then None else Within(Decimal(d).value)
  {
  }

  /** The numbers of 64 bits with a sign. */
  function Within(v: int): Option<int>
  {
    if -9_223_372_036_854_775_808 <= v < 9_223_372_036_854_775_808 then Some(v) else None
  }

  /** Atoi inverts the decimal notation, with either sign, as far as 64 bits go. */
  lemma AtoiInverts(n: nat)
    ensures Atoi(Digits(n)) == Atoi([43] + Digits(n)) == Within(n) && Atoi([45] + Digits(n)) == Within(0 - n)
  {
    var d := Digits(n);
    DecimalOfDigits(n);
    assert d[0] in d;
    AtoiOfDigits(d, n);
  }

  lemma AtoiOfDigits(d: seq<Byte>, n: nat)
    requires d != [] && d[0] != 43 && d[0] != 45 && Decimal(d) == Some(n)
    ensures Atoi(d) == Atoi([43] + d) == Within(n) && Atoi([45] + d) == Within(0 - n)
  {
    UnsignedDigits(d);
    SignedDigits(43, d);
    SignedDigits(45, d);
  }

  /** And it takes nothing but digits behind one sign. */
  lemma AtoiTakesDigits(word: seq<Byte>)
    requires Atoi(word).Some?
    ensures var d := if word != [] && word[0] in [43, 45] then word[1..] else word;
      d != [] && forall b | b in d :: 48 <= b <= 57
  {
    DecimalIffDigits(word);
    DecimalIffDigits(word[1..]);
  }

  // ------------------------------------------------------------ status lines

  lemma WholeWord(word: seq<Byte>, rest: seq<Byte>)
    requires NoSpace(word) && (rest != [] ==> IsSpace(rest[0]))
    ensures Word(word + rest) == word && AfterWord(word + rest) == rest
  {
    if rest == [] {
      OneWord(word);
      assert word + rest == word;
    } else {
      WordBeforeSpace(word, rest);
    }
  }

  lemma {:induction false} OneWord(word: seq<Byte>)
    requires NoSpace(word)
    ensures Word(word) == word && AfterWord(word) == []
  {
    if word != [] {
      assert word[0] in word && forall b | b in word[1..] :: b in word;
      OneWord(word[1..]);
    }
  }

  /** The announced number is the second word of a line whose first one begins with HTTP/, whatever the spaces are. */
  lemma StatusIsSecondWord(a: seq<Byte>, version: seq<Byte>, sp: seq<Byte>, code: seq<Byte>, reason: seq<Byte>,
                           b: seq<Byte>)
    requires Spaces(a) && Spaces(b) && Spaces(sp) && sp != []
    requires NoSpace(version) && version != [] && NoSpace(code) && code != []
    requires reason != [] ==> IsSpace(reason[0]) && !IsSpace(reason[|reason| - 1])
    ensures StatusOf(a + (version + (sp + (code + reason))) + b)
            == if [72, 84, 84, 80, 47] <= version then Atoi(code) else None
  {
    var rest := sp + (code + reason);
    var body := version + rest;
    assert version[0] in version && code[|code| - 1] in code && code[0] in code && sp[0] in sp;
    assert body[0] == version[0];
    assert body[|body| - 1] == if reason == [] then code[|code| - 1] else reason[|reason| - 1];
    TrimsTo(a, body, b);
    PrefixOfWord(version, rest);
    WholeWord(version, rest);
    TrimsLeft(sp, code + reason);
    WholeWord(code, reason);
  }

  lemma PrefixOfWord(version: seq<Byte>, rest: seq<Byte>)
    requires rest != [] ==> IsSpace(rest[0])
    ensures HTTP <= version + rest <==> HTTP <= version
  {
    var s := version + rest;
    assert |version| < |s| ==> IsSpace(s[|version|]);
    if HTTP <= s {
      assert forall i | 0 <= i < 5 :: s[i] == HTTP[i] && !IsSpace(HTTP[i]);
    }
  }

  /** A line of no words or of one announces nothing. */
  lemma ShortLinesAnnounceNothing(a: seq<Byte>, word: seq<Byte>, b: seq<Byte>)
    requires Spaces(a) && Spaces(b) && NoSpace(word)
    ensures StatusOf(a + word + b) == None
  {
    if word == [] {
      assert Spaces(a + word + b);
      SpacesTrimAway(a + word + b);
    } else {
      assert word[0] in word && word[|word| - 1] in word;
      TrimsTo(a, word, b);
      OneWord(word);
    }
  }

  // ------------------------------------------------------------ lines

  function Joined(lines: seq<seq<Byte>>): seq<Byte>
    requires lines != []
  {
    if |lines| == 1 then lines[0] else lines[0] + [10] + Joined(lines[1..])
  }

  lemma {:induction false} LineEndIsFirst(s: seq<Byte>, from: nat)
    ensures var r := LineEnd(s, false, from);
      if r < 0 then forall i | from <= i < |s| :: s[i] != 10 else forall i | from <= i < r :: s[i] != 10
    decreases |s| - from
  {
    if from < |s| && s[from] != 10 {
      LineEndIsFirst(s, from + 1);
    }
  }

  /** The lines are the pieces without a line feed which, with line feeds between them, make up the text. */
  lemma {:induction false} LinesSplit(s: seq<Byte>)
    ensures Lines(s) != [] && Joined(Lines(s)) == s && forall line | line in Lines(s) :: 10 !in line
  {
    var at := LineEnd(s, false, 0);
    LineEndIsFirst(s, 0);
    if at >= 0 {
      LinesSplit(s[at + 1..]);
      assert Lines(s)[1..] == Lines(s[at + 1..]);
      assert s == s[..at] + [10] + s[at + 1..];
    }
  }

  lemma {:induction false} StatusesFirst(line: seq<Byte>, lines: seq<seq<Byte>>)
    ensures StatusesOf([line] + lines) == Announced(line) + StatusesOf(lines)
  {
    var all := [line] + lines;
    if lines == [] {
      assert all[..0] == [] && all[0] == line;
    } else {
      var n := |lines| - 1;
      assert all[..|all| - 1] == [line] + lines[..n];
      StatusesFirst(line, lines[..n]);
      Regroup(Announced(line), StatusesOf(lines[..n]), Announced(lines[n]));
    }
  }

  function Announced(line: seq<Byte>): seq<int>
  {
    if StatusOf(line).Some? then [StatusOf(line).value] else []
  }

  /** What a text announces is what its first line does, followed by what the rest does. */
  lemma StatusesLineByLine(line: seq<Byte>, rest: seq<Byte>)
    requires 10 !in line
    ensures Statuses(line + [10] + rest) == Announced(line) + Statuses(rest)
    ensures Statuses(line) == Announced(line)
  {
    NextLine(line, rest);
    StatusesFirst(line, Lines(rest));
    LastLine(line);
    StatusesFirst(line, []);
    assert [line] + [] == [line];
  }

  // ------------------------------------------------------------ the banner

  lemma {:induction false} FirstEnd(s: seq<Byte>, crlf: bool, from: nat, at: nat)
    requires from <= at < |s| && forall i | from <= i < at :: s[i] != 13 && s[i] != 10
    requires if crlf then at + 1 < |s| && s[at] == 13 && s[at + 1] == 10 else s[at] == 10
    ensures LineEnd(s, crlf, from) == at
    decreases at - from
  {
    if from < at {
      FirstEnd(s, crlf, from + 1, at);
    }
  }

  lemma {:induction false} NoEnd(s: seq<Byte>, crlf: bool, from: nat)
    requires forall i | from <= i < |s| :: s[i] != 10
    ensures LineEnd(s, crlf, from) < 0
    decreases |s| - from
  {
    if from < |s| {
      NoEnd(s, crlf, from + 1);
    }
  }

  /** The banner is the line that begins with the first mark, and without a line end at most 120 bytes of it. */
  lemma BannerIsTheLine(before: seq<Byte>, text: seq<Byte>, rest: seq<Byte>)
    requires Tight(text) && 10 !in text && 13 !in text
    ensures Index(before + (text + ([13, 10] + rest))) == |before| ==>
              Banner(before + (text + ([13, 10] + rest))) == text
    ensures Index(before + (text + ([10] + rest))) == |before| && 13 !in rest ==>
              Banner(before + (text + ([10] + rest))) == text
    ensures Index(before + text) == |before| && |text| <= 120 ==> Banner(before + text) == text
    ensures Index(before + text) == |before| && |text| > 120 && Tight(text[..120]) ==>
              Banner(before + text) == text[..120]
  {
    if Index(before + (text + ([13, 10] + rest))) == |before| {
      CrlfBanner(before, text, rest);
    }
    if Index(before + (text + ([10] + rest))) == |before| && 13 !in rest {
      LfBanner(before, text, rest);
    }
    if Index(before + text) == |before| {
      OpenBanner(before, text);
    }
  }

  lemma TrimKeeps(s: seq<Byte>)
    requires Tight(s)
    ensures TrimSpace(s) == s
  {
    TrimsTo([], s, []);
    assert [] + s + [] == s;
  }

  lemma CrlfBanner(before: seq<Byte>, text: seq<Byte>, rest: seq<Byte>)
    requires Tight(text) && 10 !in text && 13 !in text
    requires Index(before + (text + ([13, 10] + rest))) == |before|
    ensures Banner(before + (text + ([13, 10] + rest))) == text
  {
    var tail := text + ([13, 10] + rest);
    assert (before + tail)[|before|..] == tail && tail[..|text|] == text;
    FirstEnd(tail, true, 0, |text|);
    TrimKeeps(text);
  }

  lemma LfBanner(before: seq<Byte>, text: seq<Byte>, rest: seq<Byte>)
    requires Tight(text) && 10 !in text && 13 !in text && 13 !in rest
    requires Index(before + (text + ([10] + rest))) == |before|
    ensures Banner(before + (text + ([10] + rest))) == text
  {
    var tail := text + ([10] + rest);
    assert (before + tail)[|before|..] == tail && tail[..|text|] == text;
    FirstEnd(tail, false, 0, |text|);
    NoReturn(tail, 0);
    TrimKeeps(text);
  }

  lemma {:induction false} NoReturn(s: seq<Byte>, from: nat)
    requires 13 !in s
    ensures LineEnd(s, true, from) < 0
    decreases |s| - from
  {
    if from < |s| {
      assert s[from] in s;
      NoReturn(s, from + 1);
    }
  }

  lemma OpenBanner(before: seq<Byte>, text: seq<Byte>)
    requires Tight(text) && 10 !in text && 13 !in text && Index(before + text) == |before|
    ensures |text| <= 120 ==> Banner(before + text) == text
    ensures |text| > 120 && Tight(text[..120]) ==> Banner(before + text) == text[..120]
  {
    assert (before + text)[|before|..] == text;
    NoReturn(text, 0);
    NoEnd(text, false, 0);
    TrimKeeps(text);
    if |text| > 120 && Tight(text[..120]) {
      TrimKeeps(text[..120]);
    }
  }
}
