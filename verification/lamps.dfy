/** Lamp rows: strings over the lamp characters, the reference shapes a
    row must have, and the red-lamp substitution of the minutes-tens row. */
module Lamps {
  import opened Text

  const Yellow: char := 'Y'
  const Red: char := 'R'
  const Off: char := 'O'

  predicate IsLit(c: char) {
    c != Off
  }

  /** Reference shape of a lit-prefix row: `Max(lit, width)` lamps, the
      first `lit` showing `color` and every other one off. */
  function LitRow(lit: nat, width: nat, color: char): (r: string)
    ensures |r| == Max(lit, width)
  {
    seq(Max(lit, width), i => if i < lit then color else Off)
  }

  /** Reference shape of the minutes-tens row: the first `lit` lamps are
      lit, and a lit lamp at 1-based position p is red when p is a multiple
      of 3 and yellow otherwise; every other lamp is off. */
  function QuarterRow(lit: nat, width: nat): (r: string)
    ensures |r| == Max(lit, width)
  {
    seq(Max(lit, width), i => if i < lit then (if (i + 1) % 3 == 0 then Red else Yellow) else Off)
  }

  /** The number of lit lamps in a row. */
  function CountLit(row: string): (n: nat)
    ensures n <= |row|
  {
    if |row| == 0 then 0 else (if IsLit(row[0]) then 1 else 0) + CountLit(row[1..])
  }

  /** `row` has exactly its first `lit` lamps lit. */
  ghost predicate LitPrefix(row: string, lit: nat) {
    lit <= |row| && forall i :: 0 <= i < |row| ==> (IsLit(row[i]) <==> i < lit)
  }

  /** A row whose lit lamps form a prefix of length `lit` has `lit` lit lamps. */
  lemma {:induction false} CountLitPrefix(row: string, lit: nat)
    requires LitPrefix(row, lit)
    ensures CountLit(row) == lit
    decreases |row|
  {
    if |row| > 0 {
      var rest := row[1..];
      if lit > 0 {
        assert LitPrefix(rest, lit - 1) by {
          forall i | 0 <= i < |rest|
            ensures IsLit(rest[i]) <==> i < lit - 1
          {
            assert rest[i] == row[i + 1];
          }
        }
        CountLitPrefix(rest, lit - 1);
      } else {
        assert LitPrefix(rest, 0) by {
          forall i | 0 <= i < |rest|
            ensures !IsLit(rest[i])
          {
            assert rest[i] == row[i + 1];
          }
        }
        CountLitPrefix(rest, 0);
      }
    }
  }

  /** Both reference shapes light exactly their first `lit` lamps. */
  lemma {:induction false} ReferenceRowsCount(lit: nat, width: nat, color: char)
    requires color != Off
    ensures CountLit(LitRow(lit, width, color)) == lit
    ensures CountLit(QuarterRow(lit, width)) == lit
  {
    CountLitPrefix(LitRow(lit, width, color), lit);
    CountLitPrefix(QuarterRow(lit, width), lit);
  }

  /** Regex replacement of every "YYY" by "YYR": the leftmost match is
      replaced, the scan resumes after it, and a position that starts no
      match is copied unchanged. The replacement keeps the length, keeps
      every lamp that is not yellow, and turns a yellow lamp at most red. */
  function ReplaceTriples(s: string): (r: string)
    ensures |r| == |s|
    ensures forall i :: 0 <= i < |s| && s[i] != Yellow ==> r[i] == s[i]
    ensures forall i :: 0 <= i < |s| && s[i] == Yellow ==> r[i] == Yellow || r[i] == Red
    decreases |s|
  {
    if |s| == 0 then []
    else if |s| >= 3 && s[..3] == [Yellow, Yellow, Yellow] then
      [Yellow, Yellow, Red] + ReplaceTriples(s[3..])
    else
      [s[0]] + ReplaceTriples(s[1..])
  }

  /** No three consecutive yellow lamps. */
  ghost predicate NoTriple(s: string) {
    forall i :: 0 <= i && i + 2 < |s| ==> !(s[i] == Yellow && s[i + 1] == Yellow && s[i + 2] == Yellow)
  }

  /** Without a match the replacement changes nothing. */
  lemma {:induction false} ReplaceWithoutMatch(s: string)
    requires NoTriple(s)
    ensures ReplaceTriples(s) == s
    decreases |s|
  {
    if |s| > 0 {
      if |s| >= 3 {
        assert !(s[0] == Yellow && s[1] == Yellow && s[2] == Yellow);
        assert s[..3] != [Yellow, Yellow, Yellow];
      }
      assert NoTriple(s[1..]) by {
        forall i | 0 <= i && i + 2 < |s[1..]|
          ensures !(s[1..][i] == Yellow && s[1..][i + 1] == Yellow && s[1..][i + 2] == Yellow)
        {
          assert s[1..][i] == s[i + 1];
        }
      }
      ReplaceWithoutMatch(s[1..]);
      assert [s[0]] + s[1..] == s;
    }
  }

  /** Peeling three lit lamps off a yellow run: the run of `lit` yellow
      lamps starts with a match, and what follows is the run of `lit - 3`. */
  lemma {:induction false} LitRowPeel(lit: nat, width: nat)
    requires lit >= 3
    ensures var s := LitRow(lit, width, Yellow);
            s[..3] == [Yellow, Yellow, Yellow] &&
            s[3..] == LitRow(lit - 3, if width >= 3 then width - 3 else 0, Yellow)
  {
  }

  /** The positional rule advances by a whole period after three lamps. */
  lemma {:induction false} QuarterRowPeel(lit: nat, width: nat)
    requires lit >= 3
    ensures QuarterRow(lit, width) ==
            [Yellow, Yellow, Red] + QuarterRow(lit - 3, if width >= 3 then width - 3 else 0)
  {
  }

  /** The heart of the minutes-tens row: applying the "YYY" to "YYR"
      replacement to a run of `lit` yellow lamps padded with off lamps
      yields the positional rule, red exactly at the lit multiples of 3. */
  lemma {:induction false} ReplaceTriplesIsPositional(lit: nat, width: nat)
    ensures ReplaceTriples(LitRow(lit, width, Yellow)) == QuarterRow(lit, width)
    decreases lit
  {
    var s := LitRow(lit, width, Yellow);
    if lit >= 3 {
      var width' := if width >= 3 then width - 3 else 0;
      LitRowPeel(lit, width);
      ReplaceTriplesIsPositional(lit - 3, width');
      QuarterRowPeel(lit, width);
    } else {
      assert NoTriple(s) by {
        forall i | 0 <= i && i + 2 < |s|
          ensures !(s[i] == Yellow && s[i + 1] == Yellow && s[i + 2] == Yellow)
        {
          assert s[i + 2] == Off;
        }
      }
      ReplaceWithoutMatch(s);
      assert s == QuarterRow(lit, width);
    }
  }
}
