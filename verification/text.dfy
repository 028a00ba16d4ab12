/** The .NET string operations the formatter relies on: `PadLeft`,
    `PadRight` and `ToLower`, plus `SplitLines`, the reading of a
    CR-LF separated text back into its lines. */
module Text {

  const CrLf: string := "\r\n"

  function Max(a: nat, b: nat): nat {
    if a < b then b else a
  }

  /** `n` copies of `c`. */
  function Repeat(n: nat, c: char): (r: string)
    ensures |r| == n
    ensures forall i :: 0 <= i < n ==> r[i] == c
  {
    if n == 0 then [] else [c] + Repeat(n - 1, c)
  }

  /** `s.PadLeft(totalWidth, c)`: right-aligns `s` in a field of
      `totalWidth` characters, filling on the left with `c`; a string that
      is already as wide as the field comes back unchanged. */
  function PadLeft(s: string, totalWidth: nat, c: char): (r: string)
    ensures |r| == Max(|s|, totalWidth)
    ensures r[|r| - |s|..] == s
    ensures forall i :: 0 <= i < |r| - |s| ==> r[i] == c
  {
    if totalWidth <= |s| then s else Repeat(totalWidth - |s|, c) + s
  }

  /** `s.PadRight(totalWidth, c)`: left-aligns `s` in a field of
      `totalWidth` characters, filling on the right with `c`; it never
      truncates. */
  function PadRight(s: string, totalWidth: nat, c: char): (r: string)
    ensures |r| == Max(|s|, totalWidth)
    ensures r[..|s|] == s
    ensures forall i :: |s| <= i < |r| ==> r[i] == c
  {
    if totalWidth <= |s| then s else s + Repeat(totalWidth - |s|, c)
  }

  /** Lower-casing of one character; only the ASCII letters change. */
  function LowerChar(c: char): char {
    if 'A' <= c <= 'Z' then (c - 'A' + 'a') as char else c
  }

  /** `s.ToLower()`, character by character. */
  function ToLower(s: string): (r: string)
    ensures |r| == |s|
    ensures forall i :: 0 <= i < |s| ==> r[i] == LowerChar(s[i])
  {
    seq(|s|, i requires 0 <= i < |s| => LowerChar(s[i]))
  }

  /** Lower-casing twice is lower-casing once. */
  lemma {:induction false} ToLowerIdempotent(s: string)
    ensures ToLower(ToLower(s)) == ToLower(s)
  {
  }

  /** Splits `s` at every CR-LF pair: joining its result with CR-LF gives
      `s` back, and lines without a carriage return split back as they
      were joined (`SplitFiveLines`). */
  function SplitLines(s: string): (lines: seq<string>)
    ensures |lines| >= 1
    decreases |s|
  {
    if |s| == 0 then [""]
    else if |s| >= 2 && s[0] == '\r' && s[1] == '\n' then [""] + SplitLines(s[2..])
    else
      var rest := SplitLines(s[1..]);
      [[s[0]] + rest[0]] + rest[1..]
  }

  /** A text without a carriage return is a single line. */
  lemma {:induction false} SplitSingleLine(line: string)
    requires '\r' !in line
    ensures SplitLines(line) == [line]
    decreases |line|
  {
    if |line| > 0 {
      assert '\r' !in line[1..];
      SplitSingleLine(line[1..]);
      assert [line[0]] + line[1..] == line;
    }
  }

  /** A line without a carriage return followed by CR-LF splits off as the
      first line. */
  lemma {:induction false} SplitFirstLine(line: string, rest: string)
    requires '\r' !in line
    ensures SplitLines(line + CrLf + rest) == [line] + SplitLines(rest)
    decreases |line|
  {
    var s := line + CrLf + rest;
    if |line| == 0 {
      assert s == "\r\n" + rest;
      assert s[2..] == rest;
    } else {
      assert '\r' !in line[1..];
      assert s[1..] == line[1..] + CrLf + rest;
      SplitFirstLine(line[1..], rest);
      assert [line[0]] + line[1..] == line;
    }
  }

  /** Five lines without carriage returns, joined with CR-LF, split back
      into the same five lines. */
  lemma {:induction false} SplitFiveLines(a: string, b: string, c: string, d: string, e: string)
    requires '\r' !in a && '\r' !in b && '\r' !in c && '\r' !in d && '\r' !in e
    ensures SplitLines(a + CrLf + (b + CrLf + (c + CrLf + (d + CrLf + e)))) == [a, b, c, d, e]
  {
    var de := d + CrLf + e;
    var cde := c + CrLf + de;
    var bcde := b + CrLf + cde;
    SplitSingleLine(e);
    SplitFirstLine(d, e);
    assert SplitLines(de) == [d, e];
    SplitFirstLine(c, de);
    assert SplitLines(cde) == [c, d, e];
    SplitFirstLine(b, cde);
    assert SplitLines(bcde) == [b, c, d, e];
    SplitFirstLine(a, bcde);
  }
}
