/** The string primitives the CLI borrows from Go's standard library:
    strings.TrimSpace, bufio.ScanLines, case-insensitive substring search as
    performed by a `(?i)` regular expression, and strconv.Itoa. */
module Text {
  import opened Basics

  // ---------------------------------------------------------------------
  // strings.TrimSpace
  // ---------------------------------------------------------------------

  /** unicode.IsSpace: the Latin-1 spaces plus the other White_Space code points. */
  predicate IsSpace(c: char)
  {
    || c == '\t' || c == '\n' || c == '\U{000B}' || c == '\U{000C}' || c == '\r' || c == ' '
    || c == '\U{0085}' || c == '\U{00A0}' || c == '\U{1680}'
    || ('\U{2000}' <= c <= '\U{200A}')
    || c == '\U{2028}' || c == '\U{2029}' || c == '\U{202F}' || c == '\U{205F}' || c == '\U{3000}'
  }

  /** Length of the white-space prefix of s. */
  function LeadingSpaces(s: string): (n: nat)
    ensures n <= |s|
    ensures forall i :: 0 <= i < n ==> IsSpace(s[i])
    ensures n < |s| ==> !IsSpace(s[n])
  {
    if s != "" && IsSpace(s[0]) then 1 + LeadingSpaces(s[1..]) else 0
  }

  /** Index where the white-space suffix of s begins. */
  function TrailingStart(s: string): (n: nat)
    ensures n <= |s|
    ensures forall i :: n <= i < |s| ==> IsSpace(s[i])
    ensures 0 < n ==> !IsSpace(s[n - 1])
  {
    if s != "" && IsSpace(s[|s| - 1]) then TrailingStart(s[..|s| - 1]) else |s|
  }

  function TrimLeft(s: string): string
  {
    s[LeadingSpaces(s)..]
  }

  function TrimRight(s: string): string
  {
    s[..TrailingStart(s)]
  }

  /** strings.TrimSpace: neither end of the result is white space. */
  function TrimSpace(s: string): (r: string)
    ensures |r| <= |s|
    ensures r == "" || (!IsSpace(r[0]) && !IsSpace(r[|r| - 1]))
    ensures (forall i :: 0 <= i < |s| ==> IsSpace(s[i])) <==> r == ""
  {
    var left := TrimLeft(s);
    assert LeadingSpaces(s) < |s| ==> left[0] == s[LeadingSpaces(s)];
    TrimRight(left)
  }

  /** The trimmed text is the slice of s between its white-space prefix and
      its white-space suffix, and both cuts are as short as they can be: the
      slice, when not empty, starts and ends with a non-space character. */
  lemma TrimSpaceIsSlice(s: string)
    ensures exists i, j ::
      && 0 <= i <= j <= |s| && TrimSpace(s) == s[i..j]
      && (forall k :: 0 <= k < i ==> IsSpace(s[k]))
      && (forall k :: j <= k < |s| ==> IsSpace(s[k]))
      && (i < j ==> !IsSpace(s[i]) && !IsSpace(s[j - 1]))
  {
    var i := LeadingSpaces(s);
    var left := s[i..];
    var j := i + TrailingStart(left);
    assert TrimSpace(s) == left[..j - i] == s[i..j];
    forall k | j <= k < |s|
      ensures IsSpace(s[k])
    {
      assert s[k] == left[k - i];
    }
    if i < j {
      assert s[i] == left[0] && s[j - 1] == left[j - 1 - i];
    }
  }

  /** Trimming is idempotent. */
  lemma TrimSpaceIdempotent(s: string)
    ensures TrimSpace(TrimSpace(s)) == TrimSpace(s)
  {
    var r := TrimSpace(s);
    assert LeadingSpaces(r) == 0;
    assert TrimLeft(r) == r;
    assert TrailingStart(r) == |r|;
  }

  // ---------------------------------------------------------------------
  // Case-insensitive substring search
  // ---------------------------------------------------------------------

  predicate IsLowerLetter(c: char)
  {
    'a' <= c <= 'z'
  }

  /** Whether c matches the token character t under Go's `(?i)` simple case
      folding.  Tokens are lower case; the only non-ASCII members of the
      folding orbits of ASCII letters are U+017F (s) and U+212A (k). */
  predicate FoldsTo(c: char, t: char)
  {
    || c == t
    || (IsLowerLetter(t) && c as int == t as int - 32)
    || (t == 's' && c == '\U{017F}')
    || (t == 'k' && c == '\U{212A}')
  }

  /** A character that folds to a letter is never white space. */
  lemma FoldedLetterIsNotSpace(c: char, t: char)
    requires IsLowerLetter(t) && FoldsTo(c, t)
    ensures !IsSpace(c)
  {
  }

  /** tok occurs in line at position i, ignoring case. */
  predicate MatchesAt(line: string, tok: string, i: nat)
  {
    i + |tok| <= |line| && forall j :: 0 <= j < |tok| ==> FoldsTo(line[i + j], tok[j])
  }

  /** tok occurs in line at some position at or after `from`, ignoring case. */
  predicate ContainsFoldedFrom(line: string, tok: string, from: nat)
    decreases |line| - from
  {
    from + |tok| <= |line| && (MatchesAt(line, tok, from) || ContainsFoldedFrom(line, tok, from + 1))
  }

  /** An unanchored, case-insensitive match of tok against line. */
  predicate ContainsFolded(line: string, tok: string)
  {
    ContainsFoldedFrom(line, tok, 0)
  }

  lemma {:induction false} ContainsFoldedFromIff(line: string, tok: string, from: nat)
    ensures ContainsFoldedFrom(line, tok, from) <==> exists i: nat :: from <= i && MatchesAt(line, tok, i)
    decreases |line| - from
  {
    if from + |tok| <= |line| {
      ContainsFoldedFromIff(line, tok, from + 1);
      if i: nat :| from <= i && MatchesAt(line, tok, i) {
        assert i == from || (from + 1 <= i && MatchesAt(line, tok, i));
      }
    }
  }

  /** The scan finds tok exactly when it occurs somewhere in line. */
  lemma ContainsFoldedIff(line: string, tok: string)
    ensures ContainsFolded(line, tok) <==> exists i: nat :: MatchesAt(line, tok, i)
  {
    ContainsFoldedFromIff(line, tok, 0);
  }

  /** A token bounded by letters never matches across the trimmed white space. */
  predicate LetterBounded(tok: string)
  {
    |tok| > 0 && IsLowerLetter(tok[0]) && IsLowerLetter(tok[|tok| - 1])
  }

  /** A match at or after position a is a match in the suffix from a, and back. */
  lemma MatchInSuffix(line: string, tok: string, a: nat, i: nat)
    requires a <= |line|
    ensures MatchesAt(line[a..], tok, i) <==> MatchesAt(line, tok, i + a)
  {
    var rest := line[a..];
    assert forall k :: 0 <= k < |rest| ==> rest[k] == line[k + a];
    if MatchesAt(line, tok, i + a) {
      assert forall j :: 0 <= j < |tok| ==> FoldsTo(rest[i + j], tok[j]) by {
        forall j | 0 <= j < |tok| ensures FoldsTo(rest[i + j], tok[j]) {
          assert rest[i + j] == line[i + a + j];
        }
      }
    }
  }

  lemma TrimLeftKeepsOccurrences(line: string, tok: string)
    requires LetterBounded(tok)
    ensures ContainsFolded(TrimLeft(line), tok) <==> ContainsFolded(line, tok)
  {
    var a := LeadingSpaces(line);
    var left := TrimLeft(line);
    ContainsFoldedIff(line, tok);
    ContainsFoldedIff(left, tok);
    if i: nat :| MatchesAt(line, tok, i) {
      FoldedLetterIsNotSpace(line[i], tok[0]);
      assert i >= a;
      MatchInSuffix(line, tok, a, i - a);
    }
    if i: nat :| MatchesAt(left, tok, i) {
      MatchInSuffix(line, tok, a, i);
    }
  }

  lemma TrimRightKeepsOccurrences(line: string, tok: string)
    requires LetterBounded(tok)
    ensures ContainsFolded(TrimRight(line), tok) <==> ContainsFolded(line, tok)
  {
    var b := TrailingStart(line);
    var right := TrimRight(line);
    ContainsFoldedIff(line, tok);
    ContainsFoldedIff(right, tok);
    if i: nat :| MatchesAt(line, tok, i) {
      FoldedLetterIsNotSpace(line[i + |tok| - 1], tok[|tok| - 1]);
      assert MatchesAt(right, tok, i);
    }
    if i: nat :| MatchesAt(right, tok, i) {
      assert MatchesAt(line, tok, i);
    }
  }

  /** Trimming a line neither creates nor destroys an occurrence of a letter-bounded token. */
  lemma TrimKeepsOccurrences(line: string, tok: string)
    requires LetterBounded(tok)
    ensures ContainsFolded(TrimSpace(line), tok) <==> ContainsFolded(line, tok)
  {
    TrimLeftKeepsOccurrences(line, tok);
    TrimRightKeepsOccurrences(TrimLeft(line), tok);
  }

  // ---------------------------------------------------------------------
  // bufio.ScanLines
  // ---------------------------------------------------------------------

  /** The pieces of s between newline characters, including a final empty one. */
  function Segments(s: string): (segs: seq<string>)
    ensures |segs| >= 1
    decreases |s|
  {
    if s == [] then [[]]
    else
      var rest := Segments(s[1..]);
      if s[0] == '\n' then [[]] + rest
      else [[s[0]] + rest[0]] + rest[1..]
  }

  /** Rejoins pieces with newline characters. */
  function JoinLines(segs: seq<string>): string
  {
    if segs == [] then []
    else if |segs| == 1 then segs[0]
    else segs[0] + "\n" + JoinLines(segs[1..])
  }

  /** Prepending a character to the first piece prepends it to the joined text. */
  lemma JoinLinesCons(c: char, segs: seq<string>)
    requires |segs| >= 1
    ensures JoinLines([[c] + segs[0]] + segs[1..]) == [c] + JoinLines(segs)
  {
    var first := [[c] + segs[0]] + segs[1..];
    assert first[0] == [c] + segs[0] && first[1..] == segs[1..];
    if |segs| > 1 {
      var tail := JoinLines(segs[1..]);
      AppendAssoc([c], segs[0], "\n");
      AppendAssoc([c], segs[0] + "\n", tail);
    }
  }

  /** Splitting at newlines loses nothing. */
  lemma {:induction false} SegmentsRoundTrip(s: string)
    ensures JoinLines(Segments(s)) == s
    decreases |s|
  {
    if s != [] {
      var rest := Segments(s[1..]);
      SegmentsRoundTrip(s[1..]);
      if s[0] != '\n' {
        JoinLinesCons(s[0], rest);
        assert s == [s[0]] + s[1..];
      } else {
        var segs := [[]] + rest;
        assert segs[0] == [] && segs[1..] == rest;
        assert s == "\n" + s[1..];
      }
    }
  }

  /** Splitting two texts glued by a newline splits each independently. */
  lemma {:induction false} SegmentsConcat(a: string, b: string)
    ensures Segments(a + "\n" + b) == Segments(a) + Segments(b)
    decreases |a|
  {
    var s := a + "\n" + b;
    if a == [] {
      assert s[0] == '\n' && s[1..] == b;
    } else {
      assert s[0] == a[0] && s[1..] == a[1..] + "\n" + b;
      SegmentsConcat(a[1..], b);
      var rest := Segments(a[1..]);
      var sb := Segments(b);
      var joined := rest + sb;
      assert Segments(s[1..]) == joined;
      if a[0] == '\n' {
        assert Segments(s) == [[]] + joined;
        assert Segments(a) == [[]] + rest;
        AppendAssoc([[]], rest, sb);
      } else {
        assert joined[0] == rest[0];
        assert joined[1..] == rest[1..] + sb;
        assert Segments(s) == [[a[0]] + rest[0]] + joined[1..];
        assert Segments(a) == [[a[0]] + rest[0]] + rest[1..];
        AppendAssoc([[a[0]] + rest[0]], rest[1..], sb);
      }
    }
  }

  /** A text without newline characters is a single piece. */
  lemma {:induction false} SegmentsOfLine(s: string)
    requires '\n' !in s
    ensures Segments(s) == [s]
    decreases |s|
  {
    if s != [] {
      assert s[0] in s && s[1..] == s[1..];
      assert forall c :: c in s[1..] ==> c in s;
      SegmentsOfLine(s[1..]);
      assert s == [s[0]] + s[1..];
    }
  }

  /** The trailing carriage return bufio.ScanLines strips from each line. */
  function DropCR(line: string): string
  {
    if line != [] && line[|line| - 1] == '\r' then line[..|line| - 1] else line
  }

  function DropCRs(lines: seq<string>): (r: seq<string>)
    ensures |r| == |lines|
    ensures forall k :: 0 <= k < |lines| ==> r[k] == DropCR(lines[k])
  {
    seq(|lines|, k requires 0 <= k < |lines| => DropCR(lines[k]))
  }

  lemma DropCRsConcat(x: seq<string>, y: seq<string>)
    ensures DropCRs(x + y) == DropCRs(x) + DropCRs(y)
  {
    assert forall k :: 0 <= k < |x| + |y| ==> (x + y)[k] == if k < |x| then x[k] else y[k - |x|];
  }

  /** The newline-separated pieces that are lines: a final empty piece,
      left after a trailing newline or by empty input, is not a line. */
  function CompleteLines(segs: seq<string>): (lines: seq<string>)
    requires |segs| >= 1
  {
    if segs[|segs| - 1] == [] then segs[..|segs| - 1] else segs
  }

  lemma CompleteLinesConcat(x: seq<string>, y: seq<string>)
    requires |y| >= 1
    ensures CompleteLines(x + y) == x + CompleteLines(y)
  {
    assert (x + y)[|x + y| - 1] == y[|y| - 1];
    if y[|y| - 1] == [] {
      assert (x + y)[..|x + y| - 1] == x + y[..|y| - 1];
    }
  }

  /** The tokens bufio.Scanner yields with ScanLines: the complete lines
      without their trailing '\r'. */
  function ScanLines(s: string): (lines: seq<string>)
    ensures |lines| <= |Segments(s)|
  {
    DropCRs(CompleteLines(Segments(s)))
  }

  /** The lines of a text glued to another by a newline are all pieces of the
      first text followed by the lines of the second. */
  lemma ScanLinesConcat(a: string, b: string)
    ensures ScanLines(a + "\n" + b) == DropCRs(Segments(a)) + ScanLines(b)
  {
    SegmentsConcat(a, b);
    CompleteLinesConcat(Segments(a), Segments(b));
    DropCRsConcat(Segments(a), CompleteLines(Segments(b)));
  }

  /** A line followed by two newlines scans as that line and one empty line. */
  lemma TerminatedLineScan(line: string)
    requires '\n' !in line
    ensures ScanLines(line + "\n" + "\n") == [DropCR(line), ""]
  {
    ScanLinesConcat(line, "\n");
    SegmentsOfLine(line);
    assert Segments("\n") == [[], []] by {
      assert "\n"[1..] == [];
    }
  }

  // ---------------------------------------------------------------------
  // strconv.Itoa and its inverse
  // ---------------------------------------------------------------------

  predicate IsDigit(c: char)
  {
    '0' <= c <= '9'
  }

  function DigitChar(d: nat): (c: char)
    requires d < 10
    ensures IsDigit(c)
  {
    ('0' as int + d) as char
  }

  /** Decimal digits of n without leading zeros. */
  function Digits(n: nat): (s: string)
    ensures |s| >= 1
    ensures forall k :: 0 <= k < |s| ==> IsDigit(s[k])
  {
    if n < 10 then [DigitChar(n)] else Digits(n / 10) + [DigitChar(n % 10)]
  }

  /** strconv.Itoa. */
  function Decimal(n: int): string
  {
    if n < 0 then "-" + Digits(-n) else Digits(n)
  }

  function DigitsValue(s: string): nat
    requires forall k :: 0 <= k < |s| ==> IsDigit(s[k])
  {
    if s == [] then 0
    else
      assert IsDigit(s[|s| - 1]);
      DigitsValue(s[..|s| - 1]) * 10 + (s[|s| - 1] as int - '0' as int)
  }

  predicate AllDigits(s: string)
  {
    s != [] && forall k :: 0 <= k < |s| ==> IsDigit(s[k])
  }

  /** strconv.Atoi without its 64-bit range check. */
  function ParseDecimal(s: string): Option<int>
  {
    if s == [] then None
    else if s[0] == '-' then (if AllDigits(s[1..]) then Some(0 - DigitsValue(s[1..]) as int) else None)
    else if s[0] == '+' then (if AllDigits(s[1..]) then Some(DigitsValue(s[1..])) else None)
    else if AllDigits(s) then Some(DigitsValue(s)) else None
  }

  lemma {:induction false} DigitsRoundTrip(n: nat)
    ensures DigitsValue(Digits(n)) == n
  {
    if n >= 10 {
      DigitsRoundTrip(n / 10);
      var s := Digits(n);
      assert s[..|s| - 1] == Digits(n / 10);
    }
  }

  /** Parsing what Itoa prints gives back the number. */
  lemma DecimalRoundTrip(n: int)
    ensures ParseDecimal(Decimal(n)) == Some(n)
  {
    if n < 0 {
      DigitsRoundTrip(-n);
      assert Decimal(n)[1..] == Digits(-n);
    } else {
      DigitsRoundTrip(n);
    }
  }
}
