/**
 * The handful of Python string operations the core relies on, written out over
 * `seq<char>`: `str.isspace`, `strip`, `upper`, `title` (ASCII letters),
 * `split` on one character, `splitlines`, `join`, `replace`, `rstrip` of one
 * character, slicing `[:n]` and `str()` of a non-negative int.
 */
module Text {

  /** Python's `str.isspace()` for one character. */
  predicate IsSpace(c: char) {
    var n := c as int;
    (9 <= n <= 13) || (28 <= n <= 32) || n == 0x85 || n == 0xA0 || n == 0x1680
    || (0x2000 <= n <= 0x200A) || n == 0x2028 || n == 0x2029 || n == 0x202F
    || n == 0x205F || n == 0x3000
  }

  /** The line boundaries recognised by Python's `str.splitlines()`. */
  predicate IsLineBreak(c: char) {
    var n := c as int;
    (10 <= n <= 13) || (28 <= n <= 30) || n == 0x85 || n == 0x2028 || n == 0x2029
  }

  predicate IsBlank(s: string) {
    forall i | 0 <= i < |s| :: IsSpace(s[i])
  }

  // ---------------------------------------------------------------------------
  // strip
  // ---------------------------------------------------------------------------

  /** Number of leading whitespace characters. */
  function LeadingSpaces(s: string): (k: nat)
    ensures k <= |s|
  {
    if |s| == 0 || !IsSpace(s[0]) then 0 else 1 + LeadingSpaces(s[1..])
  }

  /** The leading run is all whitespace and stops at the first other character. */
  lemma {:induction false} LeadingSpacesShape(s: string)
    ensures forall i | 0 <= i < LeadingSpaces(s) :: IsSpace(s[i])
    ensures LeadingSpaces(s) < |s| ==> !IsSpace(s[LeadingSpaces(s)])
  {
    if |s| > 0 && IsSpace(s[0]) {
      LeadingSpacesShape(s[1..]);
    }
  }

  /** Index where the trailing whitespace of `s` begins. */
  function TrailingStart(s: string): (k: nat)
    ensures k <= |s|
  {
    if |s| == 0 || !IsSpace(s[|s| - 1]) then |s| else TrailingStart(s[..|s| - 1])
  }

  /** The trailing run is all whitespace and starts right after the last other character. */
  lemma {:induction false} TrailingStartShape(s: string)
    ensures forall i | TrailingStart(s) <= i < |s| :: IsSpace(s[i])
    ensures 0 < TrailingStart(s) ==> !IsSpace(s[TrailingStart(s) - 1])
  {
    if |s| > 0 && IsSpace(s[|s| - 1]) {
      TrailingStartShape(s[..|s| - 1]);
    }
  }

  /** Python's `str.strip()`: drop whitespace at both ends. */
  function Strip(s: string): (r: string)
    ensures |r| <= |s|
  {
    var a := LeadingSpaces(s);
    s[a..][..TrailingStart(s[a..])]
  }

  /**
   * Stripping leaves nothing exactly when the string is all whitespace, and
   * otherwise a string that neither starts nor ends with whitespace.
   */
  lemma StripShape(s: string)
    ensures Strip(s) == "" <==> IsBlank(s)
    ensures Strip(s) != "" ==> !IsSpace(Strip(s)[0]) && !IsSpace(Strip(s)[|Strip(s)| - 1])
  {
    var a := LeadingSpaces(s);
    var t := s[a..];
    LeadingSpacesShape(s);
    TrailingStartShape(t);
    assert a < |s| ==> !IsSpace(t[0]);
    if a < |s| {
      assert 0 < TrailingStart(t);
      assert !IsBlank(s);
    }
  }

  /** Stripping a string that neither starts nor ends with whitespace changes nothing. */
  lemma StripUnpadded(s: string)
    requires s != [] && !IsSpace(s[0]) && !IsSpace(s[|s| - 1])
    ensures Strip(s) == s
  {
    assert LeadingSpaces(s) == 0;
    assert TrailingStart(s) == |s|;
  }

  // ---------------------------------------------------------------------------
  // upper, title
  // ---------------------------------------------------------------------------

  predicate IsLowerAscii(c: char) { 'a' <= c <= 'z' }
  predicate IsUpperAscii(c: char) { 'A' <= c <= 'Z' }
  predicate IsAsciiLetter(c: char) { IsLowerAscii(c) || IsUpperAscii(c) }

  function UpperChar(c: char): char {
    if IsLowerAscii(c) then (c as int - 32) as char else c
  }

  function LowerChar(c: char): char {
    if IsUpperAscii(c) then (c as int + 32) as char else c
  }

  /** Python's `str.upper()`, restricted to the ASCII letters. */
  function Upper(s: string): (r: string)
    ensures |r| == |s|
    ensures forall i | 0 <= i < |s| :: r[i] == UpperChar(s[i])
  {
    if s == [] then [] else [UpperChar(s[0])] + Upper(s[1..])
  }

  /** Upper-casing twice is upper-casing once, and no lower-case ASCII letter is left. */
  lemma UpperIdempotent(s: string)
    ensures Upper(Upper(s)) == Upper(s)
    ensures forall i | 0 <= i < |s| :: !IsLowerAscii(Upper(s)[i])
  {
  }

  /** The character `str.title()` puts in place of `c`, given whether a letter precedes it. */
  function TitleChar(c: char, afterLetter: bool): char {
    if !IsAsciiLetter(c) then c
    else if afterLetter then LowerChar(c)
    else UpperChar(c)
  }

  function TitleAfter(s: string, afterLetter: bool): (r: string)
    ensures |r| == |s|
    ensures forall i | 0 <= i < |s| ::
      r[i] == TitleChar(s[i], if i == 0 then afterLetter else IsAsciiLetter(s[i - 1]))
  {
    if s == [] then [] else [TitleChar(s[0], afterLetter)] + TitleAfter(s[1..], IsAsciiLetter(s[0]))
  }

  /**
   * Python's `str.title()` over ASCII: a letter is upper-cased when no letter
   * precedes it and lower-cased otherwise; every other character is kept.
   */
  function Title(s: string): (r: string)
    ensures |r| == |s|
    ensures forall i | 0 <= i < |s| && IsAsciiLetter(s[i]) ::
      if i == 0 || !IsAsciiLetter(s[i - 1]) then r[i] == UpperChar(s[i]) else r[i] == LowerChar(s[i])
    ensures forall i | 0 <= i < |s| && !IsAsciiLetter(s[i]) :: r[i] == s[i]
  {
    var r := TitleAfter(s, false);
    assert forall i | 0 <= i < |s| && IsAsciiLetter(s[i]) && (i == 0 || !IsAsciiLetter(s[i - 1])) ::
      r[i] == TitleChar(s[i], false);
    assert forall i | 0 <= i < |s| && IsAsciiLetter(s[i]) && i > 0 && IsAsciiLetter(s[i - 1]) ::
      r[i] == TitleChar(s[i], true);
    assert forall i | 0 <= i < |s| && !IsAsciiLetter(s[i]) :: r[i] == s[i] by {
      forall i | 0 <= i < |s| && !IsAsciiLetter(s[i]) ensures r[i] == s[i] {
        assert r[i] == TitleChar(s[i], if i == 0 then false else IsAsciiLetter(s[i - 1]));
      }
    }
    r
  }

  // ---------------------------------------------------------------------------
  // str() of a non-negative int
  // ---------------------------------------------------------------------------

  predicate IsDigit(c: char) { '0' <= c <= '9' }

  function DigitChar(d: nat): (c: char)
    requires d < 10
    ensures IsDigit(c)
  {
    ('0' as int + d) as char
  }

  /** Python's `str(n)` for `n >= 0`: decimal digits without leading zeros. */
  function NatToString(n: nat): (r: string)
    ensures |r| > 0
    ensures forall i | 0 <= i < |r| :: IsDigit(r[i])
    ensures |r| > 1 ==> r[0] != '0'
  {
    if n < 10 then [DigitChar(n)] else NatToString(n / 10) + [DigitChar(n % 10)]
  }

  /** Reads a string of decimal digits back as a number. */
  function ParseDecimal(s: string): nat
    requires forall i | 0 <= i < |s| :: IsDigit(s[i])
  {
    if s == [] then 0
    else
      assert IsDigit(s[|s| - 1]);
      ParseDecimal(s[..|s| - 1]) * 10 + (s[|s| - 1] as int - '0' as int)
  }

  /** The decimal rendering loses nothing: parsing it gives the number back. */
  lemma {:induction false} NatToStringRoundTrip(n: nat)
    ensures ParseDecimal(NatToString(n)) == n
  {
    if n >= 10 {
      var r := NatToString(n);
      NatToStringRoundTrip(n / 10);
      assert r[..|r| - 1] == NatToString(n / 10);
    }
  }

  // ---------------------------------------------------------------------------
  // join, split, splitlines
  // ---------------------------------------------------------------------------

  /** Python's `sep.join(parts)`. */
  function Join(parts: seq<string>, sep: string): string {
    if |parts| == 0 then ""
    else if |parts| == 1 then parts[0]
    else parts[0] + sep + Join(parts[1..], sep)
  }

  /** A character in neither the pieces nor the separator is not in their join. */
  lemma {:induction false} JoinAvoids(parts: seq<string>, sep: string, c: char)
    requires c !in sep
    requires forall part | part in parts :: c !in part
    ensures c !in Join(parts, sep)
  {
    if |parts| > 1 {
      assert forall part | part in parts[1..] :: part in parts;
      JoinAvoids(parts[1..], sep, c);
    }
  }

  /** A join opens with its first piece. */
  lemma JoinStartsWithFirst(parts: seq<string>, sep: string)
    requires |parts| > 0
    ensures StartsWith(Join(parts, sep), parts[0])
  {
    if |parts| > 1 {
      assert Join(parts, sep) == parts[0] + (sep + Join(parts[1..], sep));
    }
  }

  /** Python's `s.split(c)` for a one-character separator. */
  function Split(s: string, c: char): (r: seq<string>)
    ensures |r| > 0
  {
    if |s| == 0 then [""]
    else
      var rest := Split(s[1..], c);
      if s[0] == c then [""] + rest else [[s[0]] + rest[0]] + rest[1..]
  }

  /** No piece of a split holds the separator. */
  lemma {:induction false} SplitPiecesAvoid(s: string, c: char)
    ensures forall i | 0 <= i < |Split(s, c)| :: c !in Split(s, c)[i]
  {
    if |s| > 0 {
      SplitPiecesAvoid(s[1..], c);
    }
  }

  /** Joining the pieces of a split with the separator restores the string. */
  lemma {:induction false} JoinSplit(s: string, c: char)
    ensures Join(Split(s, c), [c]) == s
  {
    if |s| > 0 {
      var rest := Split(s[1..], c);
      JoinSplit(s[1..], c);
      if s[0] == c {
        assert Split(s, c) == [""] + rest;
        assert Join([""] + rest, [c]) == "" + [c] + Join(rest, [c]) by {
          assert ([""] + rest)[1..] == rest;
        }
        assert s == [c] + s[1..];
      } else {
        assert Split(s, c) == [[s[0]] + rest[0]] + rest[1..];
        if |rest| == 1 {
          assert Join(rest, [c]) == rest[0];
        } else {
          assert Join(rest, [c]) == rest[0] + [c] + Join(rest[1..], [c]);
          assert ([[s[0]] + rest[0]] + rest[1..])[1..] == rest[1..];
        }
        assert s == [s[0]] + s[1..];
      }
    }
  }

  /** A separator-free prefix followed by the separator splits off as the first piece. */
  lemma {:induction false} SplitAfterPiece(p: string, c: char, t: string)
    requires c !in p
    ensures Split(p + [c] + t, c) == [p] + Split(t, c)
  {
    if |p| == 0 {
      assert p + [c] + t == [c] + t;
      assert ([c] + t)[1..] == t;
    } else {
      SplitAfterPiece(p[1..], c, t);
      assert (p + [c] + t)[1..] == p[1..] + [c] + t;
      assert [p[0]] + p[1..] == p;
    }
  }

  /** A separator-free string is a single piece. */
  lemma {:induction false} SplitWhole(p: string, c: char)
    requires c !in p
    ensures Split(p, c) == [p]
  {
    if |p| > 0 {
      SplitWhole(p[1..], c);
      assert [p[0]] + p[1..] == p;
    }
  }

  /** Splitting a join of separator-free pieces gives the pieces back. */
  lemma {:induction false} SplitJoin(parts: seq<string>, c: char)
    requires |parts| > 0
    requires forall i | 0 <= i < |parts| :: c !in parts[i]
    ensures Split(Join(parts, [c]), c) == parts
  {
    if |parts| == 1 {
      SplitWhole(parts[0], c);
    } else {
      SplitJoin(parts[1..], c);
      SplitAfterPiece(parts[0], c, Join(parts[1..], [c]));
      assert [parts[0]] + parts[1..] == parts;
    }
  }

  /**
   * The lines of `s`, cut at every line-break character. Python's
   * `splitlines()` treats "\r\n" as one break and drops a final empty line;
   * here both give an extra empty line instead, which every caller skips as blank.
   */
  function Lines(s: string): (r: seq<string>)
    ensures |r| > 0
  {
    if |s| == 0 then [""]
    else
      var rest := Lines(s[1..]);
      if IsLineBreak(s[0]) then [""] + rest else [[s[0]] + rest[0]] + rest[1..]
  }

  /** No line holds a line break. */
  lemma {:induction false} LinesUnbroken(s: string)
    ensures forall i, j | 0 <= i < |Lines(s)| && 0 <= j < |Lines(s)[i]| :: !IsLineBreak(Lines(s)[i][j])
  {
    if |s| > 0 {
      LinesUnbroken(s[1..]);
      var rest := Lines(s[1..]);
      if !IsLineBreak(s[0]) {
        assert forall j | 0 <= j < |[s[0]] + rest[0]| :: !IsLineBreak(([s[0]] + rest[0])[j]);
      }
    }
  }

  // ---------------------------------------------------------------------------
  // substrings, replace, rstrip, slicing
  // ---------------------------------------------------------------------------

  predicate StartsWith(s: string, prefix: string) {
    |prefix| <= |s| && s[..|prefix|] == prefix
  }

  /** `sub` occurs in `s` starting at index `i`. */
  predicate OccursAt(s: string, sub: string, i: nat) {
    i + |sub| <= |s| && s[i..i + |sub|] == sub
  }

  /** Python's `sub in s`. */
  predicate Contains(s: string, sub: string) {
    exists i: nat | i <= |s| :: OccursAt(s, sub, i)
  }

  /** An occurrence of a non-empty string needs its first character. */
  lemma ContainsHead(s: string, sub: string)
    requires |sub| > 0 && Contains(s, sub)
    ensures sub[0] in s
  {
    var i: nat :| i <= |s| && OccursAt(s, sub, i);
    assert s[i] == s[i..i + |sub|][0];
  }

  /**
   * Python's `s.replace(pat, rep)` for a non-empty `pat`: every occurrence,
   * found left to right without overlap, is replaced; the inserted text is
   * never searched again.
   */
  function ReplaceAll(s: string, pat: string, rep: string): string
    requires |pat| > 0
    decreases |s|
  {
    if |s| < |pat| then s
    else if s[..|pat|] == pat then rep + ReplaceAll(s[|pat|..], pat, rep)
    else [s[0]] + ReplaceAll(s[1..], pat, rep)
  }

  /** A string in which the pattern cannot start is left as it is. */
  lemma {:induction false} ReplaceAllAbsent(s: string, pat: string, rep: string)
    requires |pat| > 0 && pat[0] !in s
    ensures ReplaceAll(s, pat, rep) == s
    decreases |s|
  {
    if |s| >= |pat| {
      assert s[..|pat|][0] == s[0];
      ReplaceAllAbsent(s[1..], pat, rep);
      assert [s[0]] + s[1..] == s;
    }
  }

  /** Text before which the pattern cannot start passes through unchanged. */
  lemma {:induction false} ReplaceAllSkips(a: string, b: string, pat: string, rep: string)
    requires |pat| > 0 && pat[0] !in a
    ensures ReplaceAll(a + b, pat, rep) == a + ReplaceAll(b, pat, rep)
  {
    var s := a + b;
    if |a| > 0 && |s| >= |pat| {
      assert s[..|pat|][0] == a[0];
      assert s[1..] == a[1..] + b;
      ReplaceAllSkips(a[1..], b, pat, rep);
      assert [a[0]] + a[1..] == a;
    } else if |a| > 0 {
      assert ReplaceAll(s, pat, rep) == s;
      assert ReplaceAll(b, pat, rep) == b;
    } else {
      assert s == b;
    }
  }

  /** An occurrence at the front is replaced and the search resumes after it. */
  lemma ReplaceAllAtFront(b: string, pat: string, rep: string)
    requires |pat| > 0
    ensures ReplaceAll(pat + b, pat, rep) == rep + ReplaceAll(b, pat, rep)
  {
    assert (pat + b)[..|pat|] == pat;
    assert (pat + b)[|pat|..] == b;
  }

  /**
   * A different marker at the front — same opening character at most, a
   * different second character, and the pattern's opening character nowhere
   * after its first — is kept as it is.
   */
  lemma ReplaceAllPassesMarker(m: string, b: string, pat: string, rep: string)
    requires |pat| >= 2 && |m| >= 2 && m[1] != pat[1]
    requires pat[0] !in m[1..]
    ensures ReplaceAll(m + b, pat, rep) == m + ReplaceAll(b, pat, rep)
  {
    var s := m + b;
    if |s| < |pat| {
      assert |b| < |pat|;
    } else {
      assert s[..|pat|][1] == m[1];
      assert ReplaceAll(s, pat, rep) == [m[0]] + ReplaceAll(s[1..], pat, rep);
      assert s[1..] == m[1..] + b;
      ReplaceAllSkips(m[1..], b, pat, rep);
      var tail := ReplaceAll(b, pat, rep);
      assert [m[0]] + (m[1..] + tail) == m + tail by {
        assert [m[0]] + m[1..] == m;
      }
    }
  }

  /** Replacing a single character by a single character works position by position. */
  lemma {:induction false} ReplaceChar(s: string, c: char, d: char)
    ensures |ReplaceAll(s, [c], [d])| == |s|
    ensures forall i | 0 <= i < |s| :: ReplaceAll(s, [c], [d])[i] == if s[i] == c then d else s[i]
  {
    if |s| > 0 {
      ReplaceChar(s[1..], c, d);
      var r := ReplaceAll(s, [c], [d]);
      var rest := ReplaceAll(s[1..], [c], [d]);
      assert s[..1] == [s[0]];
      assert r == (if s[0] == c then [d] else [s[0]]) + rest;
      assert forall i | 1 <= i < |s| :: r[i] == rest[i - 1] && s[i] == s[1..][i - 1];
    }
  }

  /** Python's `s.rstrip(c)` for one character `c`. */
  function TrimEnd(s: string, c: char): (r: string)
    ensures |r| <= |s| && r == s[..|r|]
    ensures |r| > 0 ==> r[|r| - 1] != c
    ensures forall i | |r| <= i < |s| :: s[i] == c
  {
    if |s| == 0 || s[|s| - 1] != c then s else TrimEnd(s[..|s| - 1], c)
  }

  /** Python's slice `s[:n]`. */
  function Take(s: string, n: nat): (r: string)
    ensures |r| <= n && |r| <= |s| && r == s[..|r|]
    ensures |r| == if |s| < n then |s| else n
  {
    if |s| <= n then s else s[..n]
  }
}
