/** Times of day as seconds since midnight, and their `HH:MM` / `HH:MM:SS` renderings. */
module Clock {
  import opened Wrappers
  import opened Text

  /** A `datetime.time` without microseconds. */
  type Time = t: int | 0 <= t < 86400

  const SecondsPerHour := 3600
  const SecondsPerMinute := 60

  /** A zero-padded two-digit number, as `%H` and `%M` print it. */
  function TwoDigits(n: int): (s: string)
    requires 0 <= n < 100
    ensures |s| == 2 && IsDigit(s[0]) && IsDigit(s[1])
    ensures DigitValue(s[0]) * 10 + DigitValue(s[1]) == n
  {
    [DigitChar(n / 10), DigitChar(n % 10)]
  }

  /** `t.strftime('%H:%M')`: seconds are dropped. */
  function HhMm(t: Time): (s: string)
    ensures |s| == 5 && s[2] == ':'
  {
    TwoDigits(t / SecondsPerHour) + ":" + TwoDigits(t % SecondsPerHour / SecondsPerMinute)
  }

  /** `str(t)` for a time without microseconds: `HH:MM:SS`. */
  function HhMmSs(t: Time): (s: string)
    ensures |s| == 8 && s[2] == ':' && s[5] == ':'
    ensures s[..5] == HhMm(t)
    ensures IsDigit(s[6]) && IsDigit(s[7]) && DigitValue(s[6]) * 10 + DigitValue(s[7]) == t % SecondsPerMinute
  {
    HhMm(t) + ":" + TwoDigits(t % SecondsPerMinute)
  }

  /** Reads an `HH:MM:SS` string back to seconds since midnight. */
  function ParseHhMmSs(s: string): Option<int>
  {
    if |s| == 8 && s[5] == ':' && IsDigit(s[6]) && IsDigit(s[7]) then
      var sec := DigitValue(s[6]) * 10 + DigitValue(s[7]);
      match ParseHhMm(s[..5])
      case Some(m) => if sec < 60 then Some(m + sec) else None
      case None => None
    else None
  }

  /** Reads an `HH:MM` string back to seconds since midnight. */
  function ParseHhMm(s: string): Option<int>
  {
    if |s| == 5 && IsDigit(s[0]) && IsDigit(s[1]) && s[2] == ':' && IsDigit(s[3]) && IsDigit(s[4]) then
      var h := DigitValue(s[0]) * 10 + DigitValue(s[1]);
      var m := DigitValue(s[3]) * 10 + DigitValue(s[4]);
      if h < 24 && m < 60 then Some(h * SecondsPerHour + m * SecondsPerMinute) else None
    else None
  }

  /** `HH:MM` keeps the time to the minute: reading it back gives the time with its seconds cut off. */
  lemma HhMmRoundTrip(t: Time)
    ensures ParseHhMm(HhMm(t)) == Some(t - t % SecondsPerMinute)
  {
    var s := HhMm(t);
    var h, m := t / 3600, t % 3600 / 60;
    assert s[..2] == TwoDigits(h) && s[3..] == TwoDigits(m);
    assert DigitValue(s[0]) * 10 + DigitValue(s[1]) == h;
    assert DigitValue(s[3]) * 10 + DigitValue(s[4]) == m;
    assert h * 3600 + m * 60 == t - t % 60 by {
      assert t == h * 3600 + t % 3600;
      assert t % 3600 == m * 60 + t % 3600 % 60;
      assert t % 3600 % 60 == t % 60;
    }
  }

  /** `str(t)` loses nothing: reading it back gives the time itself. */
  lemma HhMmSsRoundTrip(t: Time)
    ensures ParseHhMmSs(HhMmSs(t)) == Some(t)
  {
    HhMmRoundTrip(t);
  }

  /** `"{start:%H:%M} - {end:%H:%M}"`, the slot label of the admin list and of the conflict message. */
  function TimeSlot(start: Time, end: Time): (s: string)
    ensures |s| == 13
    ensures s[..5] == HhMm(start) && s[5..8] == " - " && s[8..] == HhMm(end)
  {
    HhMm(start) + " - " + HhMm(end)
  }

  /** Both ends of a slot label read back to the minute. */
  lemma TimeSlotRoundTrip(start: Time, end: Time)
    ensures ParseHhMm(TimeSlot(start, end)[..5]) == Some(start - start % SecondsPerMinute)
    ensures ParseHhMm(TimeSlot(start, end)[8..]) == Some(end - end % SecondsPerMinute)
  {
    HhMmRoundTrip(start);
    HhMmRoundTrip(end);
  }
}
