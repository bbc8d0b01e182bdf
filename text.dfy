/**
 * The Python string operations the advisor relies on: `str.strip()`,
 * `str.split(sep)`, `sep.join(...)`, `in` on strings and `f"{i}"` for a
 * non-negative integer.
 */
module Text {

  /** Python's `str.isspace()` for one character: the characters `str.strip()` removes. */
  predicate IsWhitespace(c: char) {
    || ('\t' <= c <= '\r')
    || ('\U{1C}' <= c <= '\U{1F}')
    || c == ' ' || c == '\U{85}' || c == '\U{A0}' || c == '\U{1680}'
    || ('\U{2000}' <= c <= '\U{200A}')
    || c == '\U{2028}' || c == '\U{2029}' || c == '\U{202F}' || c == '\U{205F}' || c == '\U{3000}'
  }

  predicate AllWhitespace(s: string) {
    forall i :: 0 <= i < |s| ==> IsWhitespace(s[i])
  }

  /** Neither end of `s` is whitespace. */
  predicate IsStripped(s: string) {
    s == [] || (!IsWhitespace(s[0]) && !IsWhitespace(s[|s| - 1]))
  }

  /** The number of whitespace characters `s` starts with. */
  function LeadingWhitespace(s: string): (n: nat)
    ensures n <= |s| && AllWhitespace(s[..n])
    ensures n == |s| || !IsWhitespace(s[n])
  {
    if |s| > 0 && IsWhitespace(s[0]) then
      var k := LeadingWhitespace(s[1..]);
      assert s[1..][..k] == s[1..k + 1];
      1 + k
    else 0
  }

  /** The length of `s` once its trailing whitespace is removed. */
  function KeptLength(s: string): (n: nat)
    ensures n <= |s| && AllWhitespace(s[n..])
    ensures n == 0 || !IsWhitespace(s[n - 1])
  {
    if |s| > 0 && IsWhitespace(s[|s| - 1]) then
      var k := KeptLength(s[..|s| - 1]);
      assert s[k..] == s[..|s| - 1][k..] + [s[|s| - 1]];
      k
    else |s|
  }

  /** `s.strip()`: the result neither starts nor ends with whitespace. */
  function Strip(s: string): (r: string)
    ensures IsStripped(r) && |r| <= |s|
  {
    var lo := LeadingWhitespace(s);
    var rest := s[lo..];
    rest[..KeptLength(rest)]
  }

  /** `s` is the result of `s.strip()` surrounded by whitespace only. */
  lemma StripShape(s: string)
    ensures
      var lo := LeadingWhitespace(s);
      var r := Strip(s);
      && lo + |r| <= |s|
      && r == s[lo..lo + |r|]
      && AllWhitespace(s[..lo]) && AllWhitespace(s[lo + |r|..])
  {
    var lo := LeadingWhitespace(s);
    var rest := s[lo..];
    var n := KeptLength(rest);
    assert rest[n..] == s[lo + n..];
  }

  /** A stripped string is its own strip, so `Strip` is idempotent. */
  lemma StripStripped(s: string)
    requires IsStripped(s)
    ensures Strip(s) == s
  {
    StripShape(s);
  }

  lemma StripIdempotent(s: string)
    ensures Strip(Strip(s)) == Strip(s)
  {
    StripStripped(Strip(s));
  }

  /** A string is blank (strips to "") exactly when it is all whitespace. */
  lemma StripBlank(s: string)
    ensures Strip(s) == "" <==> AllWhitespace(s)
  {
    var lo := LeadingWhitespace(s);
    StripShape(s);
    if Strip(s) == "" {
      assert s == s[..lo] + s[lo..];
    }
  }

  predicate IsPrefix(p: string, s: string) {
    |p| <= |s| && s[..|p|] == p
  }

  /** Python's `p in s` for strings: `p` occurs somewhere in `s`. */
  predicate IsSubstring(p: string, s: string) {
    exists i :: 0 <= i <= |s| && IsPrefix(p, s[i..])
  }

  /** `s.split(sep)`: pieces between leftmost, non-overlapping occurrences of `sep`. */
  function Split(s: string, sep: string): (r: seq<string>)
    requires |sep| > 0
    ensures |r| >= 1
    decreases |s|
  {
    if |s| < |sep| then [s]
    else if s[..|sep|] == sep then [""] + Split(s[|sep|..], sep)
    else
      var rest := Split(s[1..], sep);
      [[s[0]] + rest[0]] + rest[1..]
  }

  /** `sep.join(pieces)`. */
  function Join(pieces: seq<string>, sep: string): string {
    if |pieces| == 0 then ""
    else if |pieces| == 1 then pieces[0]
    else pieces[0] + sep + Join(pieces[1..], sep)
  }

  /** The number of leftmost, non-overlapping occurrences of `sep` in `s`. */
  function Occurrences(s: string, sep: string): nat
    requires |sep| > 0
    decreases |s|
  {
    if |s| < |sep| then 0
    else if s[..|sep|] == sep then 1 + Occurrences(s[|sep|..], sep)
    else Occurrences(s[1..], sep)
  }

  lemma JoinConsChar(c: char, pieces: seq<string>, sep: string)
    requires |pieces| >= 1
    ensures Join([[c] + pieces[0]] + pieces[1..], sep) == [c] + Join(pieces, sep)
  {
    var ps := [[c] + pieces[0]] + pieces[1..];
    if |pieces| > 1 {
      assert ps[1..] == pieces[1..];
    }
  }

  /** Joining the pieces of a split with the same separator gives back the original string. */
  lemma {:induction false} JoinSplit(s: string, sep: string)
    requires |sep| > 0
    ensures Join(Split(s, sep), sep) == s
    decreases |s|
  {
    if |s| < |sep| {
    } else if s[..|sep|] == sep {
      var rest := Split(s[|sep|..], sep);
      JoinSplit(s[|sep|..], sep);
      assert ([""] + rest)[1..] == rest;
      assert s == s[..|sep|] + s[|sep|..];
    } else {
      var rest := Split(s[1..], sep);
      JoinSplit(s[1..], sep);
      JoinConsChar(s[0], rest, sep);
      assert s == [s[0]] + s[1..];
    }
  }

  /** A split yields one piece more than there are separator occurrences. */
  lemma {:induction false} SplitCount(s: string, sep: string)
    requires |sep| > 0
    ensures |Split(s, sep)| == Occurrences(s, sep) + 1
    decreases |s|
  {
    if |s| < |sep| {
    } else if s[..|sep|] == sep {
      SplitCount(s[|sep|..], sep);
    } else {
      SplitCount(s[1..], sep);
    }
  }

  function DigitChar(d: nat): (c: char)
    requires d < 10
    ensures '0' <= c <= '9'
  {
    (48 + d) as char
  }

  predicate AllDigits(s: string) {
    forall i :: 0 <= i < |s| ==> '0' <= s[i] <= '9'
  }

  /** `str(n)` for a non-negative integer: its decimal digits, without leading zeros. */
  function NatToString(n: nat): (r: string)
    ensures |r| > 0 && AllDigits(r)
    ensures r[0] == '0' ==> n == 0
  {
    if n < 10 then [DigitChar(n)]
    else NatToString(n / 10) + [DigitChar(n % 10)]
  }

  /** The value of a string of decimal digits. */
  function DigitsValue(s: string): nat
    requires AllDigits(s)
  {
    if s == [] then 0
    else DigitsValue(s[..|s| - 1]) * 10 + (s[|s| - 1] as int - 48)
  }

  /** Reading back the decimal digits of `n` gives `n`. */
  lemma {:induction false} NatToStringRoundTrip(n: nat)
    ensures DigitsValue(NatToString(n)) == n
  {
    if n >= 10 {
      NatToStringRoundTrip(n / 10);
      var r := NatToString(n);
      assert r[..|r| - 1] == NatToString(n / 10);
    }
  }

  /** `s` contains no occurrence of the character `c`. */
  predicate Excludes(s: string, c: char) {
    forall i :: 0 <= i < |s| ==> s[i] != c
  }

  /**
   * A string padded with whitespace on both sides strips back to its
   * non-blank, already stripped core.
   */
  lemma StripPadded(a: string, c: string, b: string)
    requires AllWhitespace(a) && AllWhitespace(b)
    requires c != "" && IsStripped(c)
    ensures Strip(a + c + b) == c
  {
    var s := a + c + b;
    var r := Strip(s);
    StripShape(s);
    assert r == s[|a|..|a| + |c|];
  }

  /** Every piece stripped, in place. */
  function StripEach(pieces: seq<string>): (r: seq<string>)
    ensures |r| == |pieces| && forall i :: 0 <= i < |pieces| ==> r[i] == Strip(pieces[i])
  {
    seq(|pieces|, i requires 0 <= i < |pieces| => Strip(pieces[i]))
  }

  /** The strings of `xs` that are not "", in order. */
  function NonEmpty(xs: seq<string>): (r: seq<string>)
    ensures |r| <= |xs|
    ensures forall i :: 0 <= i < |r| ==> r[i] != ""
    ensures (forall i :: 0 <= i < |xs| ==> IsStripped(xs[i])) ==> forall i :: 0 <= i < |r| ==> IsStripped(r[i])
  {
    if xs == [] then []
    else (if xs[0] == "" then [] else [xs[0]]) + NonEmpty(xs[1..])
  }

  /** Every line is non-blank and stripped. */
  predicate CleanLines(lines: seq<string>) {
    forall i :: 0 <= i < |lines| ==> lines[i] != "" && IsStripped(lines[i])
  }

  /**
   * `[p.strip() for p in pieces if p.strip()]`: every piece stripped, the
   * pieces that strip to "" dropped, the rest kept in order.
   */
  function StripNonBlank(pieces: seq<string>): (kept: seq<string>)
    ensures |kept| <= |pieces| && CleanLines(kept)
  {
    NonEmpty(StripEach(pieces))
  }

  /**
   * `idx` lists, in increasing order, exactly the positions of the strings
   * of `xs` that are not "", and `kept[j]` is the string at `idx[j]`.
   */
  predicate SelectedBy(idx: seq<nat>, kept: seq<string>, xs: seq<string>) {
    && |idx| == |kept|
    && (forall j :: 0 <= j < |idx| ==> idx[j] < |xs| && kept[j] == xs[idx[j]])
    && (forall j, k :: 0 <= j < k < |idx| ==> idx[j] < idx[k])
    && (forall p :: 0 <= p < |xs| && xs[p] != "" ==> p in idx)
  }

  /** The positions `idx`, each moved one place to the right. */
  function Shifted(idx: seq<nat>): (r: seq<nat>)
    ensures |r| == |idx| && forall j :: 0 <= j < |idx| ==> r[j] == idx[j] + 1
  {
    seq(|idx|, j requires 0 <= j < |idx| => idx[j] + 1)
  }

  /** The positions of the strings of `xs` that are not "", in increasing order. */
  function Positions(xs: seq<string>): (idx: seq<nat>)
    ensures |idx| == |NonEmpty(xs)|
  {
    if xs == [] then []
    else (if xs[0] == "" then [] else [0]) + Shifted(Positions(xs[1..]))
  }

  lemma {:induction false} PositionsPick(xs: seq<string>)
    ensures forall j :: 0 <= j < |Positions(xs)| ==> Positions(xs)[j] < |xs| && NonEmpty(xs)[j] == xs[Positions(xs)[j]]
  {
    if xs != [] {
      var tail := xs[1..];
      PositionsPick(tail);
      var front: seq<nat> := if xs[0] == "" then [] else [0];
      var later := NonEmpty(tail);
      var rest := Positions(tail);
      assert NonEmpty(xs) == (if xs[0] == "" then [] else [xs[0]]) + later;
      forall j | |front| <= j < |Positions(xs)|
        ensures Positions(xs)[j] < |xs| && NonEmpty(xs)[j] == xs[Positions(xs)[j]]
      {
        var m := j - |front|;
        assert Positions(xs)[j] == rest[m] + 1;
        assert NonEmpty(xs)[j] == later[m] == tail[rest[m]];
      }
    }
  }

  lemma {:induction false} PositionsIncrease(xs: seq<string>)
    ensures forall j, k :: 0 <= j < k < |Positions(xs)| ==> Positions(xs)[j] < Positions(xs)[k]
  {
    if xs != [] {
      var tail := xs[1..];
      PositionsIncrease(tail);
      var front: seq<nat> := if xs[0] == "" then [] else [0];
      var shifted := Shifted(Positions(tail));
      assert Positions(xs) == front + shifted;
      forall j, k | 0 <= j < k < |Positions(xs)|
        ensures Positions(xs)[j] < Positions(xs)[k]
      {
        assert Positions(xs)[k] == shifted[k - |front|];
        if j >= |front| {
          assert Positions(xs)[j] == shifted[j - |front|];
        }
      }
    }
  }

  lemma {:induction false} PositionsComplete(xs: seq<string>)
    ensures forall p :: 0 <= p < |xs| && xs[p] != "" ==> p in Positions(xs)
  {
    if xs != [] {
      var tail := xs[1..];
      PositionsComplete(tail);
      var front: seq<nat> := if xs[0] == "" then [] else [0];
      var rest := Positions(tail);
      assert Positions(xs) == front + Shifted(rest);
      forall p | 0 <= p < |xs| && xs[p] != ""
        ensures p in Positions(xs)
      {
        if p > 0 {
          assert tail[p - 1] == xs[p];
          var m :| 0 <= m < |rest| && rest[m] == p - 1;
          assert Positions(xs)[|front| + m] == p;
        } else {
          assert Positions(xs)[0] == 0;
        }
      }
    }
  }

  /** The filter keeps every string that is not "", in the order of the input. */
  lemma NonEmptySelects(xs: seq<string>)
    ensures SelectedBy(Positions(xs), NonEmpty(xs), xs)
  {
    PositionsPick(xs);
    PositionsIncrease(xs);
    PositionsComplete(xs);
  }

  /** The stripped filter keeps every non-blank piece, stripped, in the order of the input. */
  lemma StripNonBlankSelects(pieces: seq<string>)
    ensures SelectedBy(Positions(StripEach(pieces)), StripNonBlank(pieces), StripEach(pieces))
  {
    NonEmptySelects(StripEach(pieces));
  }

  lemma StripEachCons(piece: string, pieces: seq<string>)
    ensures StripEach([piece] + pieces) == [Strip(piece)] + StripEach(pieces)
  {
    var all := [piece] + pieces;
    var xs := StripEach(all);
    var ys := [Strip(piece)] + StripEach(pieces);
    forall i | 0 <= i < |xs|
      ensures xs[i] == ys[i]
    {
      if i > 0 {
        assert all[i] == pieces[i - 1];
      }
    }
    assert xs == ys;
  }

  lemma NonEmptyCons(s: string, xs: seq<string>)
    requires s != ""
    ensures NonEmpty([s] + xs) == [s] + NonEmpty(xs)
  {
    assert ([s] + xs)[1..] == xs;
  }

  /** The filter on a piece followed by more pieces: the piece, stripped, if it is not blank, then the rest. */
  lemma StripNonBlankCons(piece: string, pieces: seq<string>)
    requires Strip(piece) != ""
    ensures StripNonBlank([piece] + pieces) == [Strip(piece)] + StripNonBlank(pieces)
  {
    StripEachCons(piece, pieces);
    NonEmptyCons(Strip(piece), StripEach(pieces));
  }

  /** Strings that are not "" all pass the filter. */
  lemma {:induction false} NonEmptyKeeps(xs: seq<string>)
    requires forall i :: 0 <= i < |xs| ==> xs[i] != ""
    ensures NonEmpty(xs) == xs
  {
    if xs != [] {
      NonEmptyKeeps(xs[1..]);
    }
  }

  /** Pieces that are already stripped and non-blank pass the stripped filter unchanged. */
  lemma StripNonBlankKeeps(pieces: seq<string>)
    requires CleanLines(pieces)
    ensures StripNonBlank(pieces) == pieces
  {
    forall i | 0 <= i < |pieces|
      ensures StripEach(pieces)[i] == pieces[i]
    {
      StripStripped(pieces[i]);
    }
    assert StripEach(pieces) == pieces;
    NonEmptyKeeps(pieces);
  }

  /** A string without the separator character splits into itself alone. */
  lemma {:induction false} SplitNoSeparator(s: string, c: char)
    requires Excludes(s, c)
    ensures Split(s, [c]) == [s]
    decreases |s|
  {
    if |s| >= 1 {
      assert s[..1] != [c] by { assert s[..1][0] == s[0]; }
      SplitNoSeparator(s[1..], c);
      assert [s[0]] + s[1..] == s;
    }
  }

  /** Splitting at the first separator character gives the text before it, then the split of the rest. */
  lemma {:induction false} SplitAtFirst(p: string, c: char, rest: string)
    requires Excludes(p, c)
    ensures Split(p + [c] + rest, [c]) == [p] + Split(rest, [c])
    decreases |p|
  {
    var s := p + [c] + rest;
    if p == [] {
      assert s[..1] == [c];
      assert s[1..] == rest;
    } else {
      assert s[..1] != [c] by { assert s[..1][0] == p[0]; }
      assert s[1..] == p[1..] + [c] + rest;
      SplitAtFirst(p[1..], c, rest);
      assert [p[0]] + p[1..] == p;
    }
  }

  /** Splitting a join on a separator character none of the pieces contains gives back the pieces. */
  lemma {:induction false} SplitJoin(pieces: seq<string>, c: char)
    requires |pieces| >= 1
    requires forall i :: 0 <= i < |pieces| ==> Excludes(pieces[i], c)
    ensures Split(Join(pieces, [c]), [c]) == pieces
  {
    if |pieces| == 1 {
      SplitNoSeparator(pieces[0], c);
    } else {
      SplitAtFirst(pieces[0], c, Join(pieces[1..], [c]));
      SplitJoin(pieces[1..], c);
    }
  }

  /** The characters `str.splitlines()` breaks at. */
  predicate IsLineBreak(c: char) {
    || c == '\n' || c == '\r' || c == '\U{B}' || c == '\U{C}'
    || ('\U{1C}' <= c <= '\U{1E}')
    || c == '\U{85}' || c == '\U{2028}' || c == '\U{2029}'
  }

  predicate NoLineBreak(s: string) {
    forall i :: 0 <= i < |s| ==> !IsLineBreak(s[i])
  }

  /** The index of the first line break in `s`, or `|s|` when there is none. */
  function LineEnd(s: string): (k: nat)
    ensures k <= |s| && NoLineBreak(s[..k])
    ensures k == |s| || IsLineBreak(s[k])
  {
    if s == [] || IsLineBreak(s[0]) then 0
    else
      var k := LineEnd(s[1..]);
      assert s[1..][..k] == s[1..k + 1];
      1 + k
  }

  /**
   * `s.splitlines()`: the lines between line breaks, "\r\n" counting as one
   * break and a final break not opening an empty last line.
   */
  function SplitLines(s: string): (lines: seq<string>)
    ensures forall i :: 0 <= i < |lines| ==> NoLineBreak(lines[i])
    decreases |s|
  {
    if s == [] then []
    else
      var k := LineEnd(s);
      if k == |s| then [s]
      else
        var width := if s[k] == '\r' && k + 1 < |s| && s[k + 1] == '\n' then 2 else 1;
        [s[..k]] + SplitLines(s[k + width..])
  }

  /** The first line break of `p + "\n" + rest` is the one after `p`. */
  lemma {:induction false} LineEndAt(p: string, rest: string)
    requires NoLineBreak(p)
    ensures LineEnd(p + "\n" + rest) == |p|
    decreases |p|
  {
    if p != [] {
      assert (p + "\n" + rest)[1..] == p[1..] + "\n" + rest;
      LineEndAt(p[1..], rest);
    }
  }

  /** A non-empty line without breaks is split into itself alone. */
  lemma SplitLinesSingle(line: string)
    requires line != "" && NoLineBreak(line)
    ensures SplitLines(line) == [line]
  {
    assert LineEnd(line) == |line|;
  }

  /** Splitting a line, a "\n" and more text gives the line, then the lines of the rest. */
  lemma SplitLinesCons(line: string, rest: string)
    requires NoLineBreak(line)
    ensures SplitLines(line + "\n" + rest) == [line] + SplitLines(rest)
  {
    var s := line + "\n" + rest;
    var k := |line|;
    LineEndAt(line, rest);
    assert s[k] == '\n';
    assert s[..k] == line;
    assert s[k + 1..] == rest;
  }

  /**
   * Lines without line breaks, joined by "\n", split back into the same
   * lines, as long as the last one is not empty.
   */
  lemma {:induction false} SplitLinesJoin(lines: seq<string>)
    requires |lines| >= 1 && lines[|lines| - 1] != ""
    requires forall i :: 0 <= i < |lines| ==> NoLineBreak(lines[i])
    ensures SplitLines(Join(lines, "\n")) == lines
  {
    if |lines| == 1 {
      SplitLinesSingle(lines[0]);
    } else {
      var tail := lines[1..];
      assert tail[|tail| - 1] != "";
      assert forall i :: 0 <= i < |tail| ==> NoLineBreak(tail[i]);
      assert Join(lines, "\n") == lines[0] + "\n" + Join(tail, "\n");
      SplitLinesCons(lines[0], Join(tail, "\n"));
      SplitLinesJoin(tail);
      assert lines == [lines[0]] + tail;
    }
  }



  /** A string occurs in any string that ends with it. */
  lemma SubstringAtEnd(a: string, p: string)
    ensures IsSubstring(p, a + p)
  {
    assert (a + p)[|a|..] == p;
  }

  /** Text appended after a string keeps what occurs in it. */
  lemma SubstringExtended(p: string, s: string, t: string)
    requires IsSubstring(p, s)
    ensures IsSubstring(p, s + t)
  {
    var i :| 0 <= i <= |s| && IsPrefix(p, s[i..]);
    assert (s + t)[i..][..|p|] == s[i..][..|p|];
  }

  /** A join of non-blank, stripped pieces is itself stripped. */
  lemma {:induction false} JoinStripped(pieces: seq<string>, sep: string)
    requires |pieces| >= 1
    requires forall i :: 0 <= i < |pieces| ==> pieces[i] != "" && IsStripped(pieces[i])
    ensures Join(pieces, sep) != "" && IsStripped(Join(pieces, sep))
  {
    if |pieces| > 1 {
      var rest := Join(pieces[1..], sep);
      JoinStripped(pieces[1..], sep);
      var s := pieces[0] + sep + rest;
      assert s[0] == pieces[0][0];
      assert s[|s| - 1] == rest[|rest| - 1];
    }
  }
}
