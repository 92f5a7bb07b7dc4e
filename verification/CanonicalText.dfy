/** The normal form of field texts, and the texts it identifies. */
module CanonicalText {
  // Blank characters in the sense of the outer strip.
  predicate Space(c: char) {
    var n := c as int;
    || 9 <= n <= 13 || 28 <= n <= 32 || n == 0x85 || n == 0xA0 || n == 0x1680 || 0x2000 <= n <= 0x200A
    || n == 0x2028 || n == 0x2029 || n == 0x202F || n == 0x205F || n == 0x3000
  }

  predicate Blank(c: char) { c == ' ' || c == '\t' }

  function TrimRight(s: string, drop: char -> bool): string {
    if s != "" && drop(s[|s| - 1]) then TrimRight(s[..|s| - 1], drop) else s
  }

  function TrimLeft(s: string, drop: char -> bool): string {
    if s != "" && drop(s[0]) then TrimLeft(s[1..], drop) else s
  }

  function Strip(s: string): string { TrimLeft(TrimRight(s, Space), Space) }

  // ---------- line breaks ----------

  function ReplaceCrLf(s: string): string {
    if s == "" then ""
    else if |s| >= 2 && s[0] == '\r' && s[1] == '\n' then ['\n'] + ReplaceCrLf(s[2..])
    else [s[0]] + ReplaceCrLf(s[1..])
  }

  function ReplaceCr(s: string): string {
    if s == "" then "" else [if s[0] == '\r' then '\n' else s[0]] + ReplaceCr(s[1..])
  }

  function UnifyBreaks(s: string): string { ReplaceCr(ReplaceCrLf(s)) }

  function Lines(s: string): (r: seq<string>)
    ensures r != []
  {
    if s == "" then [""]
    else if s[0] == '\n' then [""] + Lines(s[1..])
    else var rest := Lines(s[1..]); [[s[0]] + rest[0]] + rest[1..]
  }

  function Join(lines: seq<string>): string
    requires lines != []
  {
    if |lines| == 1 then lines[0] else lines[0] + "\n" + Join(lines[1..])
  }

  function TrimLines(lines: seq<string>): (r: seq<string>)
    ensures |r| == |lines|
  {
    if lines == [] then [] else [TrimRight(lines[0], Blank)] + TrimLines(lines[1..])
  }

  function Canonicalize(s: string, nfc: string -> string): string {
    Strip(Join(TrimLines(Lines(nfc(UnifyBreaks(s))))))
  }

  /** What is used of Unicode normalisation form C (section 1.4 of Unicode Standard Annex #15):
      it is idempotent, every part of a normalised text is normalised, a line feed combines
      with nothing, and no carriage return is made up. */
  ghost predicate Normalizer(nfc: string -> string) {
    && (forall s :: nfc(nfc(s)) == nfc(s))
    && (forall s, i, j :: 0 <= i <= j <= |s| && nfc(s) == s ==> nfc(s[i..j]) == s[i..j])
    && (forall a, b :: nfc(a) == a && nfc(b) == b ==> nfc(a + "\n" + b) == a + "\n" + b)
    && (forall s :: '\r' !in s ==> '\r' !in nfc(s))
  }

  // ---------- the normal form ----------

  // No blank or tab ends a line.
  predicate NoTrailingBlank(s: string) {
    forall i :: 0 <= i < |s| && Blank(s[i]) ==> i + 1 < |s| && s[i + 1] != '\n'
  }

  predicate NoOuterSpace(s: string) {
    s != "" ==> !Space(s[0]) && !Space(s[|s| - 1])
  }

  predicate Canonical(s: string, nfc: string -> string) {
    '\r' !in s && NoTrailingBlank(s) && NoOuterSpace(s) && nfc(s) == s
  }

  lemma {:induction false} TrimRightIsPrefix(s: string, drop: char -> bool)
    ensures |TrimRight(s, drop)| <= |s| && TrimRight(s, drop) == s[..|TrimRight(s, drop)|]
    ensures TrimRight(s, drop) != "" ==> !drop(TrimRight(s, drop)[|TrimRight(s, drop)| - 1])
  {
    if s != "" && drop(s[|s| - 1]) { TrimRightIsPrefix(s[..|s| - 1], drop); }
  }

  lemma {:induction false} TrimLeftIsSuffix(s: string, drop: char -> bool)
    ensures |TrimLeft(s, drop)| <= |s| && TrimLeft(s, drop) == s[|s| - |TrimLeft(s, drop)|..]
    ensures TrimLeft(s, drop) != "" ==> !drop(TrimLeft(s, drop)[0])
  {
    if s != "" && drop(s[0]) { TrimLeftIsSuffix(s[1..], drop); }
  }

  lemma StripIsPart(s: string)
    ensures exists i, j :: 0 <= i <= j <= |s| && Strip(s) == s[i..j]
    ensures NoOuterSpace(Strip(s))
  {
    var t := TrimRight(s, Space);
    TrimRightIsPrefix(s, Space);
    TrimLeftIsSuffix(t, Space);
    var i := |t| - |Strip(s)|;
    assert Strip(s) == s[i..|t|];
  }

  lemma StripKeeps(s: string)
    requires NoOuterSpace(s)
    ensures Strip(s) == s
  {}

  lemma PartKeepsTrailing(s: string, i: nat, j: nat)
    requires i <= j <= |s| && NoTrailingBlank(s) && NoOuterSpace(s[i..j])
    ensures NoTrailingBlank(s[i..j])
  {
    var t := s[i..j];
    forall k | 0 <= k < |t| && Blank(t[k]) ensures k + 1 < |t| && t[k + 1] != '\n' {
      assert s[i + k] == t[k];
      if k + 1 == |t| { assert Space(t[|t| - 1]); }
    }
  }

  predicate Plain(line: string) { '\n' !in line && '\r' !in line }

  predicate Neat(line: string, nfc: string -> string) {
    Plain(line) && (line != "" ==> !Blank(line[|line| - 1])) && nfc(line) == line
  }

  lemma {:induction false} FirstLineIsPrefix(s: string)
    ensures var l := Lines(s)[0]; |l| <= |s| && l == s[..|l|] && '\n' !in l
  {
    if s != "" && s[0] != '\n' {
      FirstLineIsPrefix(s[1..]);
      var l := Lines(s[1..])[0];
      assert [s[0]] + s[1..][..|l|] == s[..|l| + 1];
    }
  }

  lemma PartIsNormal(s: string, j: nat, nfc: string -> string)
    requires Normalizer(nfc) && j <= |s| && nfc(s) == s
    ensures nfc(s[..j]) == s[..j] && nfc(s[j..]) == s[j..]
  {
    assert s[..j] == s[0..j] && s[j..] == s[j..|s|];
  }

  lemma {:induction false} LinesAreParts(s: string, nfc: string -> string)
    requires Normalizer(nfc) && nfc(s) == s && '\r' !in s
    ensures forall l :: l in Lines(s) ==> Plain(l) && nfc(l) == l
  {
    FirstLineIsPrefix(s);
    var first := Lines(s)[0];
    PartIsNormal(s, |first|, nfc);
    assert Plain(first);
    if s != "" {
      PartIsNormal(s, 1, nfc);
      LinesAreParts(s[1..], nfc);
      forall l | l in Lines(s)[1..] ensures Plain(l) && nfc(l) == l { assert l in Lines(s[1..]); }
    }
    assert Lines(s) == [first] + Lines(s)[1..];
  }

  lemma {:induction false} TrimmedLinesAreNeat(lines: seq<string>, nfc: string -> string)
    requires Normalizer(nfc) && forall l :: l in lines ==> Plain(l) && nfc(l) == l
    ensures forall l :: l in TrimLines(lines) ==> Neat(l, nfc)
  {
    if lines != [] {
      var l, t := lines[0], TrimRight(lines[0], Blank);
      TrimRightIsPrefix(l, Blank);
      assert l in lines && t == l[0..|t|];
      TrimmedLinesAreNeat(lines[1..], nfc);
    }
  }

  lemma {:induction false} JoinedNeatLines(lines: seq<string>, nfc: string -> string)
    requires Normalizer(nfc) && lines != [] && forall l :: l in lines ==> Neat(l, nfc)
    ensures '\r' !in Join(lines) && NoTrailingBlank(Join(lines)) && nfc(Join(lines)) == Join(lines)
  {
    assert lines[0] in lines;
    if |lines| > 1 {
      JoinedNeatLines(lines[1..], nfc);
      var a, b := lines[0], Join(lines[1..]);
      var s := a + "\n" + b;
      forall i | 0 <= i < |s| && Blank(s[i]) ensures i + 1 < |s| && s[i + 1] != '\n' {
        if i < |a| { assert s[i] == a[i] && s[i + 1] == (a + "\n")[i + 1]; } else { assert s[i] == ("\n" + b)[i - |a|]; assert s[i] == b[i - |a| - 1]; }
      }
    }
  }

  /** Every canonical text is in normal form: no carriage return, no line ending in a blank or
      tab, no outer whitespace, composed. */
  lemma CanonicalizeIsCanonical(s: string, nfc: string -> string)
    requires Normalizer(nfc)
    ensures Canonical(Canonicalize(s, nfc), nfc)
  {
    var u := nfc(UnifyBreaks(s));
    NoReturnLeft(ReplaceCrLf(s));
    LinesAreParts(u, nfc);
    TrimmedLinesAreNeat(Lines(u), nfc);
    var joined := Join(TrimLines(Lines(u)));
    JoinedNeatLines(TrimLines(Lines(u)), nfc);
    StripIsPart(joined);
    var i, j :| 0 <= i <= j <= |joined| && Strip(joined) == joined[i..j];
    PartKeepsTrailing(joined, i, j);
  }

  lemma {:induction false} NoReturnLeft(s: string)
    ensures '\r' !in ReplaceCr(s)
  {
    if s != "" { NoReturnLeft(s[1..]); }
  }

  lemma {:induction false} UnifyKeeps(s: string)
    requires '\r' !in s
    ensures ReplaceCrLf(s) == s && ReplaceCr(s) == s
  {
    if s != "" { UnifyKeeps(s[1..]); }
  }

  lemma {:induction false} JoinLines(s: string)
    ensures Join(Lines(s)) == s
  {
    if s != "" {
      JoinLines(s[1..]);
      var rest := Lines(s[1..]);
      if s[0] == '\n' {
        assert ([""] + rest)[1..] == rest;
      } else if |rest| > 1 {
        assert ([[s[0]] + rest[0]] + rest[1..])[1..] == rest[1..];
      }
    }
  }

  lemma {:induction false} TrimKeepsLines(s: string)
    requires NoTrailingBlank(s)
    ensures TrimLines(Lines(s)) == Lines(s)
  {
    if s != "" {
      assert forall i :: 0 <= i < |s[1..]| ==> s[1..][i] == s[i + 1];
      TrimKeepsLines(s[1..]);
      var rest := Lines(s[1..]);
      assert TrimLines(rest)[0] == TrimRight(rest[0], Blank) && TrimLines(rest)[1..] == TrimLines(rest[1..]);
      if s[0] != '\n' {
        TrimRightIsPrefix(rest[0], Blank);
        TrimKeepsFirst(s);
      }
    }
  }

  lemma {:induction false} TrimKeepsFirst(s: string)
    requires NoTrailingBlank(s)
    ensures TrimRight(Lines(s)[0], Blank) == Lines(s)[0]
    ensures Lines(s)[0] == "" <==> s == "" || s[0] == '\n'
  {
    if s != "" && s[0] != '\n' {
      assert forall i :: 0 <= i < |s[1..]| ==> s[1..][i] == s[i + 1];
      TrimKeepsFirst(s[1..]);
      var l, m := Lines(s)[0], Lines(s[1..])[0];
      TrimRightIsPrefix(m, Blank);
      if m != "" { assert l[|l| - 1] == m[|m| - 1]; }
    }
  }

  /** The fixed points are exactly the texts in normal form. */
  lemma FixedExactly(s: string, nfc: string -> string)
    requires Normalizer(nfc)
    ensures Canonicalize(s, nfc) == s <==> Canonical(s, nfc)
  {
    CanonicalizeIsCanonical(s, nfc);
    if Canonical(s, nfc) {
      UnifyKeeps(s);
      TrimKeepsLines(s);
      JoinLines(s);
      StripKeeps(s);
    }
  }

  /** Canonicalising twice changes nothing, so the hash taken from a raw value is the hash of
      the stored canonical value. */
  lemma CanonicalizeIdempotent(s: string, nfc: string -> string)
    requires Normalizer(nfc)
    ensures Canonicalize(Canonicalize(s, nfc), nfc) == Canonicalize(s, nfc)
  {
    CanonicalizeIsCanonical(s, nfc);
    FixedExactly(Canonicalize(s, nfc), nfc);
  }

  // ---------- what is kept ----------

  function Visible(s: string): string {
    if s == "" then "" else (if Space(s[0]) then "" else [s[0]]) + Visible(s[1..])
  }

  lemma {:induction false} VisibleConcat(a: string, b: string)
    ensures Visible(a + b) == Visible(a) + Visible(b)
  {
    if a == "" {
      assert a + b == b;
    } else {
      assert (a + b)[1..] == a[1..] + b;
      VisibleConcat(a[1..], b);
    }
  }

  lemma {:induction false} TrimRightKeepsVisible(s: string, drop: char -> bool)
    requires forall c :: drop(c) ==> Space(c)
    ensures Visible(TrimRight(s, drop)) == Visible(s)
  {
    if s != "" && drop(s[|s| - 1]) {
      TrimRightKeepsVisible(s[..|s| - 1], drop);
      assert s == s[..|s| - 1] + [s[|s| - 1]];
      VisibleConcat(s[..|s| - 1], [s[|s| - 1]]);
    }
  }

  lemma {:induction false} TrimLeftKeepsVisible(s: string, drop: char -> bool)
    requires forall c :: drop(c) ==> Space(c)
    ensures Visible(TrimLeft(s, drop)) == Visible(s)
  {
    if s != "" && drop(s[0]) { TrimLeftKeepsVisible(s[1..], drop); }
  }

  lemma {:induction false} TrimLinesKeepsVisible(lines: seq<string>)
    requires lines != []
    ensures Visible(Join(TrimLines(lines))) == Visible(Join(lines))
  {
    var a, t := lines[0], TrimRight(lines[0], Blank);
    TrimRightKeepsVisible(a, Blank);
    if |lines| > 1 {
      var b, u := Join(lines[1..]), Join(TrimLines(lines[1..]));
      TrimLinesKeepsVisible(lines[1..]);
      assert TrimLines(lines)[1..] == TrimLines(lines[1..]);
      VisibleConcat(t + "\n", u);
      VisibleConcat(t, "\n");
      VisibleConcat(a + "\n", b);
      VisibleConcat(a, "\n");
    }
  }

  lemma {:induction false} UnifyKeepsVisible(s: string)
    ensures Visible(ReplaceCr(s)) == Visible(s) && Visible(ReplaceCrLf(s)) == Visible(s)
    decreases |s|
  {
    if s != "" {
      UnifyKeepsVisible(s[1..]);
      if |s| >= 2 { UnifyKeepsVisible(s[2..]); }
    }
  }

  /** Nothing but whitespace is lost: the visible characters are those of the composed text. */
  lemma VisibleTextKept(s: string, nfc: string -> string)
    ensures Visible(Canonicalize(s, nfc)) == Visible(nfc(UnifyBreaks(s))) && Visible(UnifyBreaks(s)) == Visible(s)
  {
    var u := nfc(UnifyBreaks(s));
    var joined := Join(TrimLines(Lines(u)));
    UnifyKeepsVisible(s);
    UnifyKeepsVisible(ReplaceCrLf(s));
    JoinLines(u);
    TrimLinesKeepsVisible(Lines(u));
    TrimRightKeepsVisible(joined, Space);
    TrimLeftKeepsVisible(TrimRight(joined, Space), Space);
  }

  // ---------- which line break styles are identified ----------

  datatype Break = Lf | CrLf | Cr

  function Chars(b: Break): string {
    match b
    case Lf => "\n"
    case CrLf => "\r\n"
    case Cr => "\r"
  }

  // Lines written with a break style of their own after each.
  function Styled(lines: seq<string>, breaks: seq<Break>): string
    requires |lines| == |breaks| + 1
  {
    if breaks == [] then lines[0] else lines[0] + Chars(breaks[0]) + Styled(lines[1..], breaks[1..])
  }

  // A bare carriage return and the line feed after an empty line read as one break.
  predicate Clash(lines: seq<string>, breaks: seq<Break>, i: nat)
    requires |lines| == |breaks| + 1
  {
    i + 1 < |breaks| && breaks[i] == Cr && lines[i + 1] == "" && breaks[i + 1] == Lf
  }

  function Clashes(lines: seq<string>, breaks: seq<Break>): nat
    requires |lines| == |breaks| + 1
  {
    if breaks == [] then 0
    else (if Clash(lines, breaks, 0) then 1 else 0) + Clashes(lines[1..], breaks[1..])
  }

  lemma CrLfHead(c: char, rest: string)
    requires c != '\r'
    ensures ReplaceCrLf([c] + rest) == [c] + ReplaceCrLf(rest)
  {
    assert ([c] + rest)[1..] == rest;
  }

  lemma CrHead(c: char, rest: string)
    ensures ReplaceCr([c] + rest) == [if c == '\r' then '\n' else c] + ReplaceCr(rest)
  {
    assert ([c] + rest)[1..] == rest;
  }

  lemma UnifyHead(c: char, rest: string)
    requires c != '\r'
    ensures UnifyBreaks([c] + rest) == [c] + UnifyBreaks(rest)
  {
    CrLfHead(c, rest);
    CrHead(c, ReplaceCrLf(rest));
  }

  lemma {:induction false} UnifyLine(line: string, rest: string)
    requires Plain(line)
    ensures UnifyBreaks(line + rest) == line + UnifyBreaks(rest)
  {
    if line == "" {
      assert line + rest == rest && line + UnifyBreaks(rest) == UnifyBreaks(rest);
    } else {
      UnifyLine(line[1..], rest);
      UnifyHead(line[0], line[1..] + rest);
      assert line + rest == [line[0]] + (line[1..] + rest);
      assert line + UnifyBreaks(rest) == [line[0]] + (line[1..] + UnifyBreaks(rest));
    }
  }

  predicate Feeds(rest: string) { rest != "" && rest[0] == '\n' }

  lemma UnifyReturn(rest: string)
    ensures UnifyBreaks("\r\n" + rest) == "\n" + UnifyBreaks(rest)
    ensures UnifyBreaks("\r" + rest) == if Feeds(rest) then UnifyBreaks(rest) else "\n" + UnifyBreaks(rest)
  {
    assert ("\r\n" + rest)[2..] == rest;
    CrHead('\n', ReplaceCrLf(rest));
    if Feeds(rest) {
      assert "\r" + rest == "\r\n" + rest[1..] && rest == "\n" + rest[1..];
      assert ("\r\n" + rest[1..])[2..] == rest[1..];
      CrHead('\n', ReplaceCrLf(rest[1..]));
      UnifyHead('\n', rest[1..]);
    } else {
      assert ("\r" + rest)[1..] == rest;
      CrHead('\r', ReplaceCrLf(rest));
    }
  }

  lemma UnifyStep(line: string, b: Break, rest: string)
    requires Plain(line)
    ensures UnifyBreaks(line + Chars(b) + rest)
      == line + if b == Cr && Feeds(rest) then UnifyBreaks(rest) else "\n" + UnifyBreaks(rest)
  {
    UnifyLine(line, Chars(b) + rest);
    assert line + Chars(b) + rest == line + (Chars(b) + rest);
    UnifyReturn(rest);
    UnifyHead('\n', rest);
  }

  lemma StyledStart(lines: seq<string>, breaks: seq<Break>)
    requires |lines| == |breaks| + 1 && forall l :: l in lines ==> Plain(l)
    ensures Feeds(Styled(lines, breaks)) <==> breaks != [] && lines[0] == "" && breaks[0] == Lf
  {
    assert lines[0] in lines;
    if lines[0] != "" { assert Styled(lines, breaks)[0] == lines[0][0]; }
  }

  lemma {:induction false} UnifiedLength(lines: seq<string>, breaks: seq<Break>)
    requires |lines| == |breaks| + 1 && forall l :: l in lines ==> Plain(l)
    ensures |UnifyBreaks(Styled(lines, breaks))| + Clashes(lines, breaks) == |Join(lines)|
    ensures Clashes(lines, breaks) == 0 ==> UnifyBreaks(Styled(lines, breaks)) == Join(lines)
    decreases |breaks|
  {
    assert lines[0] in lines;
    if breaks == [] {
      UnifyLine(lines[0], "");
      assert lines[0] + "" == lines[0];
    } else {
      UnifiedLength(lines[1..], breaks[1..]);
      StyledStart(lines[1..], breaks[1..]);
      var line, rest, tail := lines[0], Styled(lines[1..], breaks[1..]), Join(lines[1..]);
      UnifyStep(line, breaks[0], rest);
      var u := UnifyBreaks(rest);
      assert Clash(lines, breaks, 0) <==> breaks[0] == Cr && Feeds(rest);
      if Clash(lines, breaks, 0) {
        assert |line + u| == |line| + |u|;
      } else if u == tail {
        assert line + ("\n" + u) == line + "\n" + tail;
      } else {
        assert |line + ("\n" + u)| == |line| + 1 + |u|;
      }
      assert |line + "\n" + tail| == |line| + 1 + |tail|;
    }
  }

  lemma {:induction false} ClashesExactly(lines: seq<string>, breaks: seq<Break>)
    requires |lines| == |breaks| + 1
    ensures Clashes(lines, breaks) == 0 <==> forall i: nat :: !Clash(lines, breaks, i)
  {
    if breaks != [] {
      ClashesExactly(lines[1..], breaks[1..]);
      forall i: nat | i > 0 ensures Clash(lines, breaks, i) <==> Clash(lines[1..], breaks[1..], i - 1) {}
      assert forall i: nat :: Clash(lines[1..], breaks[1..], i) ==> Clash(lines, breaks, i + 1);
    }
  }

  /** However each line break is written, the lines read the same - exactly unless a bare
      carriage return is followed by an empty line that ends in a bare line feed. */
  lemma BreakStyleIrrelevant(lines: seq<string>, breaks: seq<Break>)
    requires |lines| == |breaks| + 1 && forall l :: l in lines ==> Plain(l)
    ensures UnifyBreaks(Styled(lines, breaks)) == Join(lines) <==> forall i: nat :: !Clash(lines, breaks, i)
  {
    UnifiedLength(lines, breaks);
    ClashesExactly(lines, breaks);
  }

  /** So texts that differ only in the style of their breaks have one canonical form. */
  lemma OneFormForAllStyles(lines: seq<string>, a: seq<Break>, b: seq<Break>, nfc: string -> string)
    requires |lines| == |a| + 1 == |b| + 1 && forall l :: l in lines ==> Plain(l)
    requires (forall i: nat :: !Clash(lines, a, i)) && (forall i: nat :: !Clash(lines, b, i))
    ensures Canonicalize(Styled(lines, a), nfc) == Canonicalize(Styled(lines, b), nfc)
  {
    BreakStyleIrrelevant(lines, a);
    BreakStyleIrrelevant(lines, b);
  }
}
