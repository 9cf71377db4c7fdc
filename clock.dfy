/**
 * Wall-clock readings as the acquisition ticks see them: the (hour, minute,
 * second) fields of the tick's timestamp, the "HH:MM" and "HH:MM:SS" labels
 * that are stored with minute records and spike samples, and the elapsed
 * seconds since the run's epoch.
 */
module Clock {
  import opened Options

  /** The time-of-day fields of a timestamp. */
  datatype WallTime = WallTime(hour: int, minute: int, second: int) {
    predicate Valid() {
      0 <= hour < 24 && 0 <= minute < 60 && 0 <= second < 60
    }

    /** A tick at a whole minute closes a minute record. */
    predicate AtMinute() { second == 0 }

    /** A tick at a whole hour starts a new hourly log. */
    predicate AtHour() { minute == 0 && second == 0 }

    /** A tick at 00:00:00 starts a new day. */
    predicate AtMidnight() { hour == 0 && minute == 0 && second == 0 }
  }

  const SecondsPerDay: real := 86400.0

  /** The length of `k` whole days, in seconds. */
  function Days(k: int): real { SecondsPerDay * k as real }

  /**
   * Elapsed seconds between the epoch `start` and `now`, computed the way a
   * time difference's seconds and microseconds fields give it: whole days are
   * dropped, so the value is always within one day.
   */
  function Elapsed(now: real, start: real): (t: real)
    ensures 0.0 <= t < SecondsPerDay
    ensures 0.0 <= now - start < SecondsPerDay ==> t == now - start
    ensures SecondsPerDay <= now - start ==> t < now - start
    ensures exists k: int :: now - start == t + Days(k)
  {
    var d := now - start;
    var days := (d / SecondsPerDay).Floor;
    var t := d - SecondsPerDay * days as real;
    assert d == t + Days(days);
    t
  }

  function DigitChar(d: int): (c: char)
    requires 0 <= d < 10
    ensures '0' <= c <= '9'
  {
    ('0' as int + d) as char
  }

  function DigitValue(c: char): int {
    c as int - '0' as int
  }

  predicate IsDigit(c: char) { '0' <= c <= '9' }

  /** A number below 100 written with two digits, zero-padded. */
  function TwoDigits(n: int): (r: string)
    requires 0 <= n < 100
    ensures |r| == 2 && IsDigit(r[0]) && IsDigit(r[1])
    ensures DigitValue(r[0]) * 10 + DigitValue(r[1]) == n
  {
    [DigitChar(n / 10), DigitChar(n % 10)]
  }

  /** The "HH:MM" label of a minute record. */
  function FormatHM(c: WallTime): (r: string)
    requires c.Valid()
    ensures |r| == 5 && r[2] == ':'
  {
    TwoDigits(c.hour) + ":" + TwoDigits(c.minute)
  }

  /** The "HH:MM:SS" label of a spike sample. */
  function FormatHMS(c: WallTime): (r: string)
    requires c.Valid()
    ensures |r| == 8 && r[..5] == FormatHM(c) && r[5] == ':'
    ensures r[6..] == TwoDigits(c.second)
  {
    FormatHM(c) + ":" + TwoDigits(c.second)
  }

  /** Reads an "HH:MM" label back; None when the text is not of that shape. */
  function ParseHM(s: string): (r: Option<(int, int)>)
    ensures r.Some? ==> 0 <= r.value.0 < 100 && 0 <= r.value.1 < 100
  {
    if |s| == 5 && IsDigit(s[0]) && IsDigit(s[1]) && s[2] == ':' && IsDigit(s[3]) && IsDigit(s[4])
    then Some((DigitValue(s[0]) * 10 + DigitValue(s[1]), DigitValue(s[3]) * 10 + DigitValue(s[4])))
    else None
  }

  /** A minute label gives back the hour and minute it was made from. */
  lemma ParseFormatHM(c: WallTime)
    requires c.Valid()
    ensures ParseHM(FormatHM(c)) == Some((c.hour, c.minute))
  {
    var h, m := TwoDigits(c.hour), TwoDigits(c.minute);
    assert FormatHM(c) == [h[0], h[1], ':', m[0], m[1]];
  }

  /** Two ticks get the same minute label exactly when they share hour and minute. */
  lemma FormatHMInjective(c1: WallTime, c2: WallTime)
    requires c1.Valid() && c2.Valid()
    ensures FormatHM(c1) == FormatHM(c2) <==> (c1.hour == c2.hour && c1.minute == c2.minute)
  {
    if FormatHM(c1) == FormatHM(c2) {
      ParseFormatHM(c1);
      ParseFormatHM(c2);
    }
  }
}
