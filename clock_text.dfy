/**
 * The two clock regular expressions the ticket code uses:
 * `/(\d{1,2}):(\d{2})/`, searched anywhere in a string, and
 * `/^(\d{1,2}:\d{2})(?::\d{2})?$/`, matched against the whole string.
 */
module ClockText {
  import opened Wrappers
  import opened JsText

  datatype Clock = Clock(hours: nat, minutes: nat)

  /**
   * The unanchored pattern tried at index `p`: `\d{1,2}` is greedy, so two hour
   * digits are tried before one. Each captured group is decimal digits, and
   * `parseInt(group, 10)` is their decimal value (`ParseInt10Digits`).
   */
  function ClockAt(s: string, p: nat): (r: Option<Clock>)
    ensures r.Some? ==> r.value.minutes < 100 && r.value.hours < 100
  {
    if p + 5 <= |s| && IsDigit(s[p]) && IsDigit(s[p + 1]) && s[p + 2] == ':'
      && IsDigit(s[p + 3]) && IsDigit(s[p + 4])
    then Some(Clock(DigitValue(s[p]) * 10 + DigitValue(s[p + 1]), DigitValue(s[p + 3]) * 10 + DigitValue(s[p + 4])))
    else if p + 4 <= |s| && IsDigit(s[p]) && s[p + 1] == ':' && IsDigit(s[p + 2]) && IsDigit(s[p + 3])
    then Some(Clock(DigitValue(s[p]), DigitValue(s[p + 2]) * 10 + DigitValue(s[p + 3])))
    else None
  }

  /** `s.match(/(\d{1,2}):(\d{2})/)` from index `p` on: the leftmost match wins. */
  function FindClock(s: string, p: nat): (r: Option<Clock>)
    decreases |s| - p
  {
    if p >= |s| then None
    else if ClockAt(s, p).Some? then ClockAt(s, p)
    else FindClock(s, p + 1)
  }

  /** The search result is the match at the leftmost index where the pattern matches. */
  lemma {:induction false} FindClockLeftmost(s: string, p: nat)
    ensures FindClock(s, p).None? <==> forall q :: p <= q < |s| ==> ClockAt(s, q).None?
    ensures FindClock(s, p).Some? ==>
      exists q :: p <= q < |s| && FindClock(s, p) == ClockAt(s, q)
        && forall q' :: p <= q' < q ==> ClockAt(s, q').None?
    decreases |s| - p
  {
    if p < |s| && ClockAt(s, p).None? {
      FindClockLeftmost(s, p + 1);
      if FindClock(s, p).Some? {
        var q :| p + 1 <= q < |s| && FindClock(s, p + 1) == ClockAt(s, q)
          && forall q' :: p + 1 <= q' < q ==> ClockAt(s, q').None?;
        assert forall q' :: p <= q' < q ==> ClockAt(s, q').None?;
      }
    }
  }

  /** `parseInt(d, 10)` of a non-empty digit string is its decimal value. */
  lemma {:induction false} ParseInt10Digits(d: string)
    requires d != [] && AllDigits(d)
    ensures ParseInt10(d) == Fin(DecValue(d))
  {
    assert TrimStart(d) == d;
    DigitPrefixAllDigits(d);
  }

  /** `\d{1,2}:\d{2}` as a whole string. */
  predicate IsClock(s: string) {
    (|s| == 4 && IsDigit(s[0]) && s[1] == ':' && IsDigit(s[2]) && IsDigit(s[3]))
    || (|s| == 5 && IsDigit(s[0]) && IsDigit(s[1]) && s[2] == ':' && IsDigit(s[3]) && IsDigit(s[4]))
  }

  /** A clock followed by `:` and two second digits. */
  predicate IsClockWithSeconds(s: string) {
    |s| >= 3 && IsClock(s[..|s| - 3]) && s[|s| - 3] == ':' && IsDigit(s[|s| - 2]) && IsDigit(s[|s| - 1])
  }

  /**
   * `m = s.match(/^(\d{1,2}:\d{2})(?::\d{2})?$/); m ? m[1] : s`: the clock without
   * its seconds when the whole string has that shape, otherwise the string itself.
   */
  function HourMinute(s: string): string {
    if IsClock(s) then s else if IsClockWithSeconds(s) then s[..|s| - 3] else s
  }

  /** Dropping the seconds twice is dropping them once. */
  lemma {:induction false} HourMinuteIdempotent(s: string)
    ensures HourMinute(HourMinute(s)) == HourMinute(s)
  {
  }

  /** A clock with seconds loses exactly its last three characters. */
  lemma {:induction false} HourMinuteDropsSeconds(c: string, a: char, b: char)
    requires IsClock(c) && IsDigit(a) && IsDigit(b)
    ensures HourMinute(c + [':', a, b]) == c
  {
    var s := c + [':', a, b];
    assert s[..|s| - 3] == c;
  }

  /** The result is empty only for the empty string. */
  lemma {:induction false} HourMinuteEmpty(s: string)
    ensures HourMinute(s) == [] <==> s == []
  {
  }
}
