/** The string operations of the audit tool's language that it relies on. */
module Text {
  /** The characters removed by stripping. */
  predicate IsSpace(c: char) {
    var n := c as int;
    || 0x09 <= n <= 0x0D || 0x1C <= n <= 0x20 || n == 0x85 || n == 0xA0 || n == 0x1680
    || 0x2000 <= n <= 0x200A || n == 0x2028 || n == 0x2029 || n == 0x202F || n == 0x205F || n == 0x3000
  }

  function LStrip(s: string): string {
    if s != [] && IsSpace(s[0]) then LStrip(s[1..]) else s
  }

  function RStrip(s: string): string {
    if s != [] && IsSpace(s[|s| - 1]) then RStrip(s[..|s| - 1]) else s
  }

  function Strip(s: string): string {
    RStrip(LStrip(s))
  }

  predicate StartsWith(s: string, prefix: string) {
    prefix <= s
  }

  /** Starts with the single character `c`. */
  predicate Opens(s: string, c: char) {
    s != [] && s[0] == c
  }

  /** Starts with `c` and ends with `c`, be it the same one. */
  predicate Enclosed(s: string, c: char) {
    s != [] && s[0] == c && s[|s| - 1] == c
  }

  /** The position of the first `c`; the length if there is none. */
  function Find(s: string, c: char): (k: nat)
    ensures k <= |s|
    ensures k < |s| <==> c in s
    ensures k < |s| ==> s[k] == c
    ensures forall i | 0 <= i < k :: s[i] != c
  {
    if s == [] || s[0] == c then 0 else 1 + Find(s[1..], c)
  }

  /** Neither end is a space. */
  predicate Trimmed(s: string) {
    s != [] ==> !IsSpace(s[0]) && !IsSpace(s[|s| - 1])
  }

  lemma {:induction false} LStripEnds(s: string)
    ensures LStrip(s) != [] ==> !IsSpace(LStrip(s)[0])
    ensures LStrip(s) != [] ==> LStrip(s)[|LStrip(s)| - 1] == s[|s| - 1]
  {
    if s != [] && IsSpace(s[0]) {
      LStripEnds(s[1..]);
    }
  }

  lemma {:induction false} RStripEnds(s: string)
    ensures RStrip(s) <= s
    ensures RStrip(s) != [] ==> !IsSpace(RStrip(s)[|RStrip(s)| - 1])
  {
    if s != [] && IsSpace(s[|s| - 1]) {
      RStripEnds(s[..|s| - 1]);
    }
  }

  lemma {:induction false} StripTrims(s: string)
    ensures Trimmed(Strip(s))
  {
    LStripEnds(s);
    RStripEnds(LStrip(s));
  }

  lemma {:induction false} StripTrimmed(s: string)
    requires Trimmed(s)
    ensures Strip(s) == s
  {
  }

  lemma {:induction false} LStripLength(s: string)
    ensures |LStrip(s)| <= |s|
    ensures s != [] && IsSpace(s[0]) ==> |LStrip(s)| < |s|
    ensures s != [] && !IsSpace(s[0]) ==> LStrip(s) == s
  {
    if s != [] && IsSpace(s[0]) {
      LStripLength(s[1..]);
    }
  }

  lemma {:induction false} RStripLength(s: string)
    ensures |RStrip(s)| <= |s|
    ensures s != [] && IsSpace(s[|s| - 1]) ==> |RStrip(s)| < |s|
  {
    if s != [] && IsSpace(s[|s| - 1]) {
      RStripLength(s[..|s| - 1]);
    }
  }

  /** Stripping takes something away exactly from what is not trimmed. */
  lemma {:induction false} StripShorter(s: string)
    requires !Trimmed(s)
    ensures |Strip(s)| < |s|
  {
    LStripLength(s);
    RStripLength(LStrip(s));
  }

  predicate Blank(s: string) {
    forall i | 0 <= i < |s| :: IsSpace(s[i])
  }

  lemma {:induction false} RStripBlank(s: string, blank: string)
    requires Blank(blank)
    ensures RStrip(s + blank) == RStrip(s)
  {
    if blank == [] {
      assert s + blank == s;
    } else {
      var n := |blank| - 1;
      assert IsSpace(blank[n]);
      assert (s + blank)[..|s| + n] == s + blank[..n];
      RStripBlank(s, blank[..n]);
    }
  }

  /** Stripping takes off exactly the spaces around a trimmed text. */
  lemma {:induction false} StripSpaced(before: string, s: string, after: string)
    requires Blank(before) && Blank(after) && Trimmed(s)
    ensures Strip(before + s + after) == s
  {
    assert before + s + after == before + (s + after);
    LStripBlank(before, s + after);
    if s == [] {
      assert s + after == after + [];
      LStripBlank(after, []);
    } else {
      RStripBlank(s, after);
    }
  }

  lemma {:induction false} StripIndented(indent: string, s: string)
    requires Blank(indent) && Trimmed(s)
    ensures Strip(indent + s) == s
  {
    assert indent + s == indent + s + [];
    StripSpaced(indent, s, []);
  }

  lemma {:induction false} LStripBlank(blank: string, s: string)
    requires Blank(blank)
    ensures LStrip(blank + s) == LStrip(s)
  {
    if blank == [] {
      assert blank + s == s;
    } else {
      assert IsSpace(blank[0]);
      assert (blank + s)[1..] == blank[1..] + s;
      LStripBlank(blank[1..], s);
    }
  }

  // ----- Reading a file line by line

  predicate NoNewline(s: string) {
    '\n' !in s && '\r' !in s
  }

  function LineEnd(s: string): (k: nat)
    ensures k <= |s|
    ensures k < |s| ==> s[k] == '\n' || s[k] == '\r'
    ensures NoNewline(s[..k])
  {
    if s == [] || s[0] == '\n' || s[0] == '\r' then 0
    else
      var k := 1 + LineEnd(s[1..]);
      assert s[..k] == [s[0]] + s[1..][..k - 1];
      k
  }

  /** The lines of a text file read with universal newlines, without their terminators. */
  function Lines(s: string): seq<string> {
    if s == [] then []
    else
      var k := LineEnd(s);
      if k == |s| then [s]
      else
        var next := if s[k] == '\r' && k + 1 < |s| && s[k + 1] == '\n' then k + 2 else k + 1;
        [s[..k]] + Lines(s[next..])
  }

  /** What ends a line: a newline, a carriage return, or both. */
  predicate EndsLine(end: string) {
    end == "\n" || end == "\r\n" || end == "\r"
  }

  function Unlines(lines: seq<string>, end: string): string {
    if lines == [] then [] else lines[0] + end + Unlines(lines[1..], end)
  }

  lemma {:induction false} LineEndAt(line: string, end: string, rest: string)
    requires NoNewline(line) && EndsLine(end)
    ensures LineEnd(line + end + rest) == |line|
  {
    var s := line + end + rest;
    if line == [] {
      assert s[0] == end[0];
    } else {
      assert line[0] in line;
      assert s[1..] == line[1..] + end + rest;
      LineEndAt(line[1..], end, rest);
    }
  }

  /** After a lone carriage return, no newline follows. */
  lemma {:induction false} NextLineStarts(lines: seq<string>, end: string)
    requires forall i | 0 <= i < |lines| :: NoNewline(lines[i])
    ensures end == "\r" && Unlines(lines, end) != "" ==> Unlines(lines, end)[0] != '\n'
  {
    if lines != [] && lines[0] != [] {
      assert lines[0][0] in lines[0];
    }
  }

  lemma {:induction false} FirstLine(line: string, end: string, rest: string)
    requires NoNewline(line) && EndsLine(end)
    requires end == "\r" && rest != "" ==> rest[0] != '\n'
    ensures Lines(line + end + rest) == [line] + Lines(rest)
  {
    var s, k := line + end + rest, |line|;
    LineEndAt(line, end, rest);
    assert s[..k] == line && s[k] == end[0];
    assert s[k + |end|..] == rest;
    if |end| == 2 {
      assert s[k + 1] == end[1];
    } else if rest != "" {
      assert s[k + 1] == rest[0];
    }
  }

  /** The same kind of line end throughout is taken off, whichever it is. */
  lemma {:induction false} LinesOfUnlines(lines: seq<string>, end: string)
    requires (forall i | 0 <= i < |lines| :: NoNewline(lines[i])) && EndsLine(end)
    ensures Lines(Unlines(lines, end)) == lines
  {
    if lines != [] {
      var first, others := lines[0], lines[1..];
      LinesOfUnlines(others, end);
      NextLineStarts(others, end);
      FirstLine(first, end, Unlines(others, end));
      assert lines == [first] + others;
    }
  }
}
