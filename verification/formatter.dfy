/** The Berlin Clock formatter: five lamp rows computed from a `TimeSpan`,
    their CR-LF separated composition, and the case-insensitive format key
    that selects one of them. */
module BerlinClockFormatter {
  import opened Wrappers
  import opened Text
  import opened TimeSpans
  import opened Lamps

  /** `string.Empty.PadLeft(lit, color).PadRight(width, 'O')`, the idiom
      every row is built with: a lit-prefix row that is at least `width`
      lamps long. */
  function LampRun(lit: nat, width: nat, color: char): (r: string)
    ensures r == LitRow(lit, width, color)
  {
    PadRight(PadLeft("", lit, color), width, Off)
  }

  /** Seconds lamp: lit (yellow) on even seconds, off on odd ones. */
  function SecondsRow(t: TimeSpan): (r: string)
    ensures r == LitRow(if t.Seconds() % 2 == 0 then 1 else 0, 1, Yellow)
    ensures |r| == 1
  {
    [if t.Seconds() % 2 == 0 then Yellow else Off]
  }

  /** Hours first row: one red lamp per five whole hours; four lamps for
      up to 24 hours (all four lit at 24:00:00), longer beyond that since
      padding never truncates. */
  function HoursTensRow(t: TimeSpan): (r: string)
    ensures r == LitRow(t.TotalHours() / 5, 4, Red)
    ensures t.TotalHours() <= 24 ==> |r| == 4
  {
    LampRun(t.TotalHours() / 5, 4, Red)
  }

  /** Hours second row: one red lamp per hour past the last multiple of
      five (all four at 24:00:00, since 24 % 5 = 4). */
  function HoursUnitsRow(t: TimeSpan): (r: string)
    ensures r == LitRow(t.TotalHours() % 5, 4, Red)
    ensures |r| == 4
  {
    LampRun(t.TotalHours() % 5, 4, Red)
  }

  /** Minutes first row: one lamp per five minutes, built as a yellow run
      whose every "YYY" is then replaced by "YYR"; the result is the
      positional rule, red at lit positions 3, 6 and 9. */
  function MinutesTensRow(t: TimeSpan): (r: string)
    ensures r == QuarterRow(t.Minutes() / 5, 11)
    ensures |r| == 11
  {
    ReplaceTriplesIsPositional(t.Minutes() / 5, 11);
    ReplaceTriples(LampRun(t.Minutes() / 5, 11, Yellow))
  }

  /** Minutes second row: one yellow lamp per minute past the last
      multiple of five. */
  function MinutesUnitsRow(t: TimeSpan): (r: string)
    ensures r == LitRow(t.Minutes() % 5, 4, Yellow)
    ensures |r| == 4
  {
    LampRun(t.Minutes() % 5, 4, Yellow)
  }

  /** A row holds only lamp characters, so never a line break. */
  lemma {:induction false} RowHasNoLineBreak(row: string, lit: nat, width: nat, color: char)
    requires row == LitRow(lit, width, color) || row == QuarterRow(lit, width)
    requires color != '\r'
    ensures '\r' !in row
  {
  }

  /** The default format: the five rows in the order seconds, hours,
      hours, minutes, minutes, separated by CR-LF. Splitting it at CR-LF
      gives back exactly the five rows; for up to 24 hours it is 32
      characters long. */
  function DefaultText(t: TimeSpan): (r: string)
    ensures SplitLines(r) ==
            [SecondsRow(t), HoursTensRow(t), HoursUnitsRow(t), MinutesTensRow(t), MinutesUnitsRow(t)]
    ensures t.TotalHours() <= 24 ==> |r| == 32
  {
    var s, h1, h2, m1, m2 := SecondsRow(t), HoursTensRow(t), HoursUnitsRow(t), MinutesTensRow(t), MinutesUnitsRow(t);
    RowHasNoLineBreak(s, if t.Seconds() % 2 == 0 then 1 else 0, 1, Yellow);
    RowHasNoLineBreak(h1, t.TotalHours() / 5, 4, Red);
    RowHasNoLineBreak(h2, t.TotalHours() % 5, 4, Red);
    RowHasNoLineBreak(m1, t.Minutes() / 5, 11, Yellow);
    RowHasNoLineBreak(m2, t.Minutes() % 5, 4, Yellow);
    SplitFiveLines(s, h1, h2, m1, m2);
    s + CrLf + (h1 + CrLf + (h2 + CrLf + (m1 + CrLf + m2)))
  }

  /** The five rows a format key can select. */
  datatype Row = SecondsLamp | HoursTens | HoursUnits | MinutesTens | MinutesUnits

  /** What a recognised format key selects: one row, or all five. */
  datatype Layout = SingleRow(row: Row) | AllRows

  /** `ArgumentException` and `FormatException`. */
  datatype FormatError = InvalidArgument | UnsupportedFormat

  /** The boxed argument handed to the formatter: a `TimeSpan` or anything
      else (including null). */
  datatype Argument = TimeSpanArgument(span: TimeSpan) | OtherArgument

  function RowText(row: Row, t: TimeSpan): string {
    match row
    case SecondsLamp => SecondsRow(t)
    case HoursTens => HoursTensRow(t)
    case HoursUnits => HoursUnitsRow(t)
    case MinutesTens => MinutesTensRow(t)
    case MinutesUnits => MinutesUnitsRow(t)
  }

  function Render(layout: Layout, t: TimeSpan): string {
    match layout
    case SingleRow(row) => RowText(row, t)
    case AllRows => DefaultText(t)
  }

  /** The recognised lower-case keys and what each selects. */
  const KeyTable: map<string, Layout> :=
    map["s" := SingleRow(SecondsLamp), "h1" := SingleRow(HoursTens), "h2" := SingleRow(HoursUnits),
        "m1" := SingleRow(MinutesTens), "m2" := SingleRow(MinutesUnits), "" := AllRows]

  /** The `switch` on `(format ?? "").ToLower()`: a null key counts as the
      empty one, and a key is recognised exactly when its lower-case form
      is in the key table. */
  function SelectLayout(format: Option<string>): (l: Option<Layout>)
    ensures format.None? ==> l == Some(AllRows)
    ensures l.Some? <==> ToLower(format.GetOr("")) in KeyTable
    ensures l.Some? ==> l.value in KeyTable.Values
  {
    var key := ToLower(format.GetOr(""));
    if key in KeyTable then Some(KeyTable[key]) else None
  }

  /** `ICustomFormatter.Format`: the argument is checked first, then the
      key; a failure produces no text. */
  function Format(format: Option<string>, arg: Argument): (r: Result<string, FormatError>)
    ensures arg.OtherArgument? ==> r == Failure(InvalidArgument)
    ensures arg.TimeSpanArgument? ==>
              var key := ToLower(format.GetOr(""));
              r == if key in KeyTable then Success(Render(KeyTable[key], arg.span))
                   else Failure(UnsupportedFormat)
  {
    match arg
    case OtherArgument => Failure(InvalidArgument)
    case TimeSpanArgument(t) =>
      match SelectLayout(format)
      case None => Failure(UnsupportedFormat)
      case Some(layout) => Success(Render(layout, t))
  }

  /** The characters whose lower-case form is one of the key characters. */
  lemma {:induction false} LowerCharToKeyChar(c: char)
    ensures LowerChar(c) == 's' <==> c == 's' || c == 'S'
    ensures LowerChar(c) == 'h' <==> c == 'h' || c == 'H'
    ensures LowerChar(c) == 'm' <==> c == 'm' || c == 'M'
    ensures LowerChar(c) == '1' <==> c == '1'
    ensures LowerChar(c) == '2' <==> c == '2'
  {
  }

  /** A key of two characters lower-cases to `[a, b]` exactly when each
      character lower-cases to its counterpart. */
  lemma {:induction false} ToLowerPair(k: string, a: char, b: char)
    ensures ToLower(k) == [a, b] <==> |k| == 2 && LowerChar(k[0]) == a && LowerChar(k[1]) == b
  {
    if |k| == 2 && LowerChar(k[0]) == a && LowerChar(k[1]) == b {
      assert ToLower(k) == [a, b];
    }
  }

  /** Case-insensitive dispatch: each row is selected by exactly the two
      spellings of its key, the composition by the empty key and by null,
      and every other key is unsupported. */
  lemma {:induction false} KeySpellings(k: string)
    ensures SelectLayout(Some(k)) == Some(SingleRow(SecondsLamp)) <==> k == "s" || k == "S"
    ensures SelectLayout(Some(k)) == Some(SingleRow(HoursTens)) <==> k == "h1" || k == "H1"
    ensures SelectLayout(Some(k)) == Some(SingleRow(HoursUnits)) <==> k == "h2" || k == "H2"
    ensures SelectLayout(Some(k)) == Some(SingleRow(MinutesTens)) <==> k == "m1" || k == "M1"
    ensures SelectLayout(Some(k)) == Some(SingleRow(MinutesUnits)) <==> k == "m2" || k == "M2"
    ensures SelectLayout(Some(k)) == Some(AllRows) <==> k == ""
    ensures SelectLayout(None) == Some(AllRows)
  {
    var key := ToLower(k);
    if |k| == 1 {
      LowerCharToKeyChar(k[0]);
      assert key == "s" <==> LowerChar(k[0]) == 's';
      assert k == "s" || k == "S" <==> k[0] == 's' || k[0] == 'S';
    }
    if |k| == 2 {
      LowerCharToKeyChar(k[0]);
      LowerCharToKeyChar(k[1]);
      ToLowerPair(k, 'h', '1');
      ToLowerPair(k, 'h', '2');
      ToLowerPair(k, 'm', '1');
      ToLowerPair(k, 'm', '2');
    }
  }

  /** What the composed text tells a reader of the lamps: the hours, the
      minutes and the parity of the seconds. */
  datatype Reading = Reading(hours: nat, minutes: nat, evenSecond: bool)

  /** Reads five rows back: five hours per lit lamp of the first hours
      row plus one per lit lamp of the second, likewise for minutes. */
  function ReadClock(lines: seq<string>): Option<Reading> {
    if |lines| != 5 then None
    else Some(Reading(5 * CountLit(lines[1]) + CountLit(lines[2]),
                      5 * CountLit(lines[3]) + CountLit(lines[4]),
                      CountLit(lines[0]) == 1))
  }

  /** Each row lights as many lamps as its share of the time. */
  lemma {:induction false} RowCounts(t: TimeSpan)
    ensures CountLit(SecondsRow(t)) == 1 <==> t.Seconds() % 2 == 0
    ensures CountLit(HoursTensRow(t)) == t.TotalHours() / 5
    ensures CountLit(HoursUnitsRow(t)) == t.TotalHours() % 5
    ensures CountLit(MinutesTensRow(t)) == t.Minutes() / 5
    ensures CountLit(MinutesUnitsRow(t)) == t.Minutes() % 5
  {
    ReferenceRowsCount(if t.Seconds() % 2 == 0 then 1 else 0, 1, Yellow);
    ReferenceRowsCount(t.TotalHours() / 5, 4, Red);
    ReferenceRowsCount(t.TotalHours() % 5, 4, Red);
    ReferenceRowsCount(t.Minutes() / 5, 11, Yellow);
    ReferenceRowsCount(t.Minutes() % 5, 4, Yellow);
  }

  /** The default text encodes the time without loss: reading its lines
      back gives the whole hours, the minutes and the seconds' parity. */
  lemma {:induction false} DefaultTextReadsBack(t: TimeSpan)
    ensures ReadClock(SplitLines(DefaultText(t))) ==
            Some(Reading(t.TotalHours(), t.Minutes(), t.Seconds() % 2 == 0))
  {
    var s, h1, h2, m1, m2 := SecondsRow(t), HoursTensRow(t), HoursUnitsRow(t), MinutesTensRow(t), MinutesUnitsRow(t);
    assert SplitLines(DefaultText(t)) == [s, h1, h2, m1, m2];
    RowCounts(t);
    assert 5 * (t.TotalHours() / 5) + t.TotalHours() % 5 == t.TotalHours();
    assert 5 * (t.Minutes() / 5) + t.Minutes() % 5 == t.Minutes();
    ReadFiveRows(s, h1, h2, m1, m2, Reading(t.TotalHours(), t.Minutes(), t.Seconds() % 2 == 0));
  }

  /** Reading five rows whose lit lamps agree with `reading`. */
  lemma {:induction false} ReadFiveRows(s: string, h1: string, h2: string, m1: string, m2: string, reading: Reading)
    requires 5 * CountLit(h1) + CountLit(h2) == reading.hours
    requires 5 * CountLit(m1) + CountLit(m2) == reading.minutes
    requires CountLit(s) == 1 <==> reading.evenSecond
    ensures ReadClock([s, h1, h2, m1, m2]) == Some(reading)
  {
  }

  /** 13:17:01: two and three red hour lamps, three minutes-tens lamps of
      which the third is red, two minute lamps, seconds lamp off. */
  lemma AfternoonExample()
    ensures var t := FromClock(13, 17, 1);
            && SecondsRow(t) == "O"
            && HoursTensRow(t) == "RROO"
            && HoursUnitsRow(t) == "RRRO"
            && MinutesTensRow(t) == "YYROOOOOOOO"
            && MinutesUnitsRow(t) == "YYOO"
  {
  }

  /** 13:17:01 through the dispatch: upper-case "H1" selects the hours
      first row. */
  lemma HoursKeyExample()
    ensures Format(Some("H1"), TimeSpanArgument(FromClock(13, 17, 1))) == Success("RROO")
  {
    AfternoonExample();
    assert ToLower("H1") == "h1";
  }

  /** The format key is case-insensitive: every key formats exactly as its
      lower-case form does. */
  lemma {:induction false} FormatIgnoresCase(k: string, arg: Argument)
    ensures Format(Some(k), arg) == Format(Some(ToLower(k)), arg)
  {
    ToLowerIdempotent(k);
  }

  /** Unknown keys fail whatever the time; a non-time argument fails even
      with a valid key. */
  lemma {:induction false} RejectionExamples(t: TimeSpan)
    ensures Format(Some("X"), TimeSpanArgument(t)) == Failure(UnsupportedFormat)
    ensures Format(Some("H3"), TimeSpanArgument(t)) == Failure(UnsupportedFormat)
    ensures Format(Some("S"), OtherArgument) == Failure(InvalidArgument)
  {
    assert ToLower("X") == "x";
    assert ToLower("H3") == "h3";
  }

  /** Midnight: every lamp off except the seconds lamp. */
  lemma MidnightRows()
    ensures var t := FromClock(0, 0, 0);
            && SecondsRow(t) == "Y"
            && HoursTensRow(t) == "OOOO"
            && HoursUnitsRow(t) == "OOOO"
            && MinutesTensRow(t) == "OOOOOOOOOOO"
            && MinutesUnitsRow(t) == "OOOO"
  {
    var t := FromClock(0, 0, 0);
    assert t.TotalHours() == 0 && t.Minutes() == 0 && t.Seconds() == 0;
    assert LitRow(1, 1, Yellow) == "Y";
    assert LitRow(0, 4, Red) == "OOOO";
    assert QuarterRow(0, 11) == "OOOOOOOOOOO";
    assert LitRow(0, 4, Yellow) == "OOOO";
  }

  /** The default text at midnight, line by line. */
  lemma MidnightExample()
    ensures SplitLines(DefaultText(FromClock(0, 0, 0))) == ["Y", "OOOO", "OOOO", "OOOOOOOOOOO", "OOOO"]
  {
    MidnightRows();
  }

  /** The end of the day: at 24:00:00 the whole-hours count is 24 = 4 * 5 + 4,
      so both hours rows are fully lit. */
  lemma EndOfDayExample()
    ensures HoursTensRow(FromClock(24, 0, 0)) == "RRRR"
    ensures HoursUnitsRow(FromClock(24, 0, 0)) == "RRRR"
    ensures SecondsRow(FromClock(24, 0, 0)) == "Y"
  {
  }
}
