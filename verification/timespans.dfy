/** The part of .NET's `TimeSpan` the formatter reads: a non-negative
    duration in whole seconds with its `Seconds` and `Minutes` components
    and its whole number of `TotalHours`. */
module TimeSpans {
  import opened Wrappers

  const SecondsPerMinute: nat := 60
  const SecondsPerHour: nat := 3600

  /** `TimeSpan.MaxValue` in whole seconds: `long.MaxValue` ticks of 100 ns
      divided by 10,000,000 ticks per second. */
  const MaxSeconds: nat := 922337203685

  datatype TimeSpan = TimeSpan(totalSeconds: nat) {

    /** The seconds component, 0 to 59. */
    function Seconds(): (s: nat)
      ensures s < 60
    {
      totalSeconds % SecondsPerMinute
    }

    /** The minutes component, 0 to 59. */
    function Minutes(): (m: nat)
      ensures m < 60
    {
      (totalSeconds / SecondsPerMinute) % 60
    }

    /** `(int)TotalHours`: the whole hours of the span, NOT reduced modulo
        24 (unlike the `Hours` component, which is 0 at 24:00:00). */
    function TotalHours(): nat {
      totalSeconds / SecondsPerHour
    }
  }

  /** The arithmetic of `new TimeSpan(hours, minutes, seconds)`: it
      normalises its arguments, so an in-range clock reading comes back
      unchanged from the components. The range check is `NewTimeSpan`'s. */
  function FromClock(hours: nat, minutes: nat, seconds: nat): (t: TimeSpan)
    ensures t.totalSeconds == hours * SecondsPerHour + minutes * SecondsPerMinute + seconds
    ensures minutes < 60 && seconds < 60 ==>
              t.TotalHours() == hours && t.Minutes() == minutes && t.Seconds() == seconds
  {
    if minutes < 60 && seconds < 60 then
      ClockArithmetic(hours, minutes, seconds);
      TimeSpan(hours * SecondsPerHour + minutes * SecondsPerMinute + seconds)
    else
      TimeSpan(hours * SecondsPerHour + minutes * SecondsPerMinute + seconds)
  }

  /** The raised exception of `NewTimeSpan`. */
  datatype SpanError = ArgumentOutOfRange

  /** `new TimeSpan(hours, minutes, seconds)` with its range check: the
      constructor throws when the total exceeds `TimeSpan.MaxValue`, which
      no clock reading of fewer than 256204778 hours does. */
  function NewTimeSpan(hours: nat, minutes: nat, seconds: nat): (r: Result<TimeSpan, SpanError>)
    ensures r.Success? <==> hours * SecondsPerHour + minutes * SecondsPerMinute + seconds <= MaxSeconds
    ensures r.Success? ==> r.value == FromClock(hours, minutes, seconds)
    ensures hours < 256204778 && minutes < 60 && seconds < 60 ==> r.Success?
  {
    var total := hours * SecondsPerHour + minutes * SecondsPerMinute + seconds;
    if total <= MaxSeconds then Success(FromClock(hours, minutes, seconds))
    else Failure(ArgumentOutOfRange)
  }

  /** Division of `hours * 3600 + minutes * 60 + seconds` by 60 and 3600
      recovers the three in-range components. */
  lemma {:induction false} ClockArithmetic(hours: nat, minutes: nat, seconds: nat)
    requires minutes < 60 && seconds < 60
    ensures (hours * 3600 + minutes * 60 + seconds) / 3600 == hours
    ensures (hours * 3600 + minutes * 60 + seconds) / 60 == hours * 60 + minutes
    ensures (hours * 3600 + minutes * 60 + seconds) % 60 == seconds
  {
  }
}
