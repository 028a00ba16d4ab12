# Berlin Clock formatter

A Dafny model of `BerlinClockFormatter`, the .NET custom formatter that turns
a `TimeSpan` into the lamps of a Berlin Clock ("Mengenlehreuhr"). The clock
shows the time on five rows of lamps, written as strings over `'Y'` (yellow),
`'R'` (red) and `'O'` (off):

| row | key | lamps | lit lamps |
|---|---|---|---|
| seconds | `S` | 1 | lit (yellow) on even seconds |
| hours, first row | `H1` | 4 | whole hours / 5, red |
| hours, second row | `H2` | 4 | whole hours % 5, red |
| minutes, first row | `M1` | 11 | minutes / 5, yellow, every third one red |
| minutes, second row | `M2` | 4 | minutes % 5, yellow |

The formatter is selected with a case-insensitive key; the empty (or null)
key produces all five rows joined by CR-LF.

Files:

- `wrappers.dfy`: `Option` (a .NET null) and `Result` (a value or an exception).
- `text.dfy` (module `Text`): the .NET string operations used by the formatter.
  These are `PadLeft` and `PadRight` (pad to a width, never truncate) and
  `ToLower`. The module also has `SplitLines`, the reading of a CR-LF
  separated text back into lines.
- `timespans.dfy` (module `TimeSpans`): a non-negative `TimeSpan` in whole
  seconds with `Seconds`, `Minutes` and `(int)TotalHours`. `TotalHours` is
  not reduced modulo 24, so 24:00:00 has 24 whole hours although its `Hours`
  component is 0.
- `lamps.dfy` (module `Lamps`): the reference row shapes. `LitRow` is a row
  whose first `lit` lamps show one colour. `QuarterRow` is the minutes-tens
  positional rule: a lit lamp at 1-based position p is red iff p % 3 == 0.
  The module also counts lit lamps. It holds `ReplaceTriples`, the regex
  replacement of `YYY` by `YYR` written as an explicit left-to-right,
  non-overlapping scan. Its central lemma `ReplaceTriplesIsPositional` proves
  that the scan applied to a padded yellow run equals the positional rule.
- `formatter.dfy` (module `BerlinClockFormatter`): the five row functions,
  the default composition, the key dispatch and the argument check. It also
  has a read-back of the composed text to the time it encodes, and the
  concrete times 00:00:00, 13:17:01 and 24:00:00.

Inputs outside the clock's range are handled as the code handles them, not
excluded. A span of 25 hours or more gives a first hours row longer than
four lamps, because `PadRight` never truncates; the contracts state the row
length as `Max(hours / 5, 4)`. Minutes and seconds are components of the
span and are always below 60.

At 13:17:01 the second hours row is `RRRO` (13 % 5 = 3). At 24:00:00
`(int)TotalHours` is 24, so both hours rows are `RRRR`.

## Model

| member | source | states |
|---|---|---|
| Text.PadLeft | Classes/BerlinClockFormatter.cs:60 | `PadLeft` right-aligns the string in a field of the given width, filling on the left; the result is `Max(length, width)` long and ends with the original string |
| Text.PadRight | Classes/BerlinClockFormatter.cs:60 | `PadRight` fills on the right up to the width and never truncates; the result starts with the original string |
| BerlinClockFormatter.LampRun | Classes/BerlinClockFormatter.cs:77 | `string.Empty.PadLeft(n, c).PadRight(w, 'O')` is the lit-prefix row: n lamps of colour c, then off lamps up to width w |
| BerlinClockFormatter.SecondsRow | Classes/BerlinClockFormatter.cs:80-83 | one lamp, lit (yellow) exactly when the seconds are even, off otherwise |
| BerlinClockFormatter.HoursTensRow | Classes/BerlinClockFormatter.cs:75-78 | the first TotalHours / 5 lamps red, the rest off; exactly 4 lamps when TotalHours <= 24 |
| BerlinClockFormatter.HoursUnitsRow | Classes/BerlinClockFormatter.cs:70-73 | 4 lamps, the first TotalHours % 5 red, the rest off |
| BerlinClockFormatter.MinutesTensRow | Classes/BerlinClockFormatter.cs:63-68 | 11 lamps; the first Minutes / 5 are lit, a lit lamp at 1-based position p is red iff p % 3 == 0 and yellow otherwise; the rest are off |
| BerlinClockFormatter.MinutesUnitsRow | Classes/BerlinClockFormatter.cs:56-61 | 4 lamps, the first Minutes % 5 yellow, the rest off |
| Lamps.ReplaceTriples | Classes/BerlinClockFormatter.cs:17-19 | the `YYY` to `YYR` replacement keeps the length, never changes a non-yellow lamp (so never lights an unlit one), and turns a yellow lamp into yellow or red only |
| Lamps.ReplaceTriplesIsPositional | Classes/BerlinClockFormatter.cs:65-67 | replacing every `YYY` by `YYR`, scanning left to right, in a run of n yellow lamps padded with off lamps gives the positional rule (red at lit multiples of 3) for every n and width |
| Lamps.ReplaceWithoutMatch | Classes/BerlinClockFormatter.cs:65-67 | a row with no three consecutive yellow lamps is left unchanged by the replacement |
| BerlinClockFormatter.RowCounts | Classes/BerlinClockFormatter.cs:56-83 | each row lights exactly its share of the time: seconds parity, TotalHours / 5, TotalHours % 5, Minutes / 5, Minutes % 5 |
| BerlinClockFormatter.DefaultText | Classes/BerlinClockFormatter.cs:85-93 | the default text splits at CR-LF into exactly the five rows S, H1, H2, M1, M2 in that order; it is 32 characters long when TotalHours <= 24 |
| BerlinClockFormatter.DefaultTextReadsBack | Classes/BerlinClockFormatter.cs:85-93 | the default text loses nothing: reading its lines back (5 per lit lamp of a first row plus 1 per lit lamp of a second row) gives TotalHours, Minutes and the seconds' parity |
| Text.ToLower | Classes/BerlinClockFormatter.cs:37 | `ToLower` keeps the length and lower-cases every character in place; lower-casing twice is lower-casing once (`Text.ToLowerIdempotent`) |
| BerlinClockFormatter.SelectLayout | Classes/BerlinClockFormatter.cs:37-53 | the `switch` on `(format ?? "").ToLower()`: a null key selects all rows as `""` does, a key is recognised exactly when its lower-case form is one of the six table keys, and it selects that key's layout; `KeySpellings` pins down each key's spellings in both directions |
| BerlinClockFormatter.Format | Classes/BerlinClockFormatter.cs:28-53 | a non-`TimeSpan` argument fails with an argument error whatever the key; otherwise a recognised key yields its row or the composition, and any other key fails with a format error and no text |
| BerlinClockFormatter.KeySpellings | Classes/BerlinClockFormatter.cs:37-50 | each row is selected by exactly its lower-case and upper-case key and by no other string; the composition by exactly the empty key and by null |
| BerlinClockFormatter.FormatIgnoresCase | Classes/BerlinClockFormatter.cs:37 | every key formats exactly as its lower-case form does |
| BerlinClockFormatter.RejectionExamples | Classes/BerlinClockFormatter.cs:30-52 | `X` and `H3` fail with a format error for every time; a non-`TimeSpan` argument fails with an argument error even under a valid key |
| BerlinClockFormatter.AfternoonExample | Classes/BerlinClockFormatter.cs:56-83 | 13:17:01 gives `O`, `RROO`, `RRRO`, `YYROOOOOOOO`, `YYOO` |
| BerlinClockFormatter.HoursKeyExample | Classes/BerlinClockFormatter.cs:41-42 | key `H1` at 13:17:01 returns only the first hours row, `RROO` |
| BerlinClockFormatter.MidnightRows | Classes/BerlinClockFormatter.cs:56-83 | 00:00:00 gives `Y`, `OOOO`, `OOOO`, `OOOOOOOOOOO`, `OOOO` |
| BerlinClockFormatter.MidnightExample | Classes/BerlinClockFormatter.cs:85-93 | the default text at 00:00:00 splits into the five midnight rows |
| BerlinClockFormatter.EndOfDayExample | Classes/BerlinClockFormatter.cs:70-83 | at 24:00:00 both hours rows are `RRRR` and the seconds lamp is `Y` |
| TimeSpans.FromClock | Classes/TimeConverter.cs:13 | `new TimeSpan(h, m, s)` counts h * 3600 + m * 60 + s seconds; for m, s < 60 its TotalHours, Minutes and Seconds are h, m and s |
| TimeSpans.NewTimeSpan | Classes/TimeConverter.cs:13 | the constructor succeeds exactly when h * 3600 + m * 60 + s is at most `TimeSpan.MaxValue` (922337203685 seconds) and otherwise throws `ArgumentOutOfRangeException`; every clock reading below 256204778 hours succeeds |

## Left out

- `GetFormat` and the `IFormatProvider` plumbing: it only hands the formatter
  object back to .NET's formatting machinery and has no behaviour of its own.
- The `string.Format` call in `ToDefaultFormat`: modelled directly as the
  concatenation of the five rows with CR-LF between them, which is what its
  format string produces.
- The regular-expression engine: the compiled pattern `YYY` with replacement
  `YYR` is modelled by the scan `ReplaceTriples`, which is what a literal
  pattern does under leftmost, non-overlapping matching.
- `TimeConverter.ConvertTime` (string splitting and `Convert.ToInt32`) is not
  part of this model. Its `TimeSpan` constructor call is modelled by
  `NewTimeSpan`.
- TimeSpans.FromClock: does not raise the `ArgumentOutOfRangeException` of
  `new TimeSpan(h, m, s)` beyond `TimeSpan.MaxValue`; it is the constructor's
  arithmetic only, and `NewTimeSpan` adds the range check.
- Negative `TimeSpan` values: the span is a `nat` of seconds. With negative
  spans the truncating `/` and `%` of C# and the exception of `PadLeft` on a
  negative count would come into play.
- Sub-second ticks: the span counts whole seconds, and `TotalHours` is the
  exact quotient rather than a `double`. For whole seconds the `double`
  quotient cannot round across an integer, so `(int)TotalHours` agrees.
- `ToLower` is culture-sensitive in .NET; the model lower-cases the ASCII
  letters A to Z only.
- The argument is either a `TimeSpan` or something else: other .NET types,
  boxing and null are one case, `OtherArgument`.
