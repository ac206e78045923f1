/**
 * Wall-clock arithmetic on epoch milliseconds, standing in for java.util.Calendar.
 *
 * The device's local time zone is taken to be UTC without daylight saving, so that a day is
 * always 86 400 000 ms long and starts at a multiple of that. Calendar is lenient: setting an
 * hour or minute outside its usual range carries over into the neighbouring fields, which the
 * plain additions below do as well.
 */
module Clock {
  const MsPerSecond: int := 1000
  const MsPerMinute: int := 60 * MsPerSecond
  const MsPerHour: int := 60 * MsPerMinute
  const MsPerDay: int := 24 * MsPerHour

  /** Midnight at the start of the day holding `t`. */
  function DayStart(t: int): (r: int)
    ensures r <= t < r + MsPerDay
    ensures r % MsPerDay == 0
  {
    t - t % MsPerDay
  }

  /** Calendar.HOUR_OF_DAY */
  function HourOfDay(t: int): (h: int)
    ensures 0 <= h < 24
  {
    (t % MsPerDay) / MsPerHour
  }

  /** Calendar.MINUTE */
  function MinuteOfHour(t: int): (m: int)
    ensures 0 <= m < 60
  {
    (t % MsPerHour) / MsPerMinute
  }

  /** set(HOUR_OF_DAY, hour) then set(MINUTE, minute): seconds and milliseconds are kept. */
  function AtHourMinute(t: int, hour: int, minute: int): int
  {
    DayStart(t) + hour * MsPerHour + minute * MsPerMinute + t % MsPerMinute
  }

  /** set(HOUR_OF_DAY, hour), set(MINUTE, minute), set(SECOND, 0), set(MILLISECOND, 0). */
  function AtHourMinuteZeroed(t: int, hour: int, minute: int): int
  {
    DayStart(t) + hour * MsPerHour + minute * MsPerMinute
  }

  /** The offset of `t` within its day splits into hour, minute and the rest of the minute. */
  lemma DayOffsetDecomposes(t: int)
    ensures t == DayStart(t) + HourOfDay(t) * MsPerHour + MinuteOfHour(t) * MsPerMinute + t % MsPerMinute
  {
    var d := t % MsPerDay;
    ModMod(t, MsPerHour, 24);
    ModMod(t, MsPerMinute, 60);
    assert d == (d / MsPerHour) * MsPerHour + d % MsPerHour;
    var e := t % MsPerHour;
    assert e == (e / MsPerMinute) * MsPerMinute + e % MsPerMinute;
  }

  /** Reducing modulo a multiple of `b` first does not change the remainder modulo `b`. */
  lemma ModMod(x: int, b: int, k: int)
    requires b > 0 && k > 0
    ensures (x % (k * b)) % b == x % b
  {
    var r := x % (k * b);
    var q := x / (k * b);
    assert x == q * (k * b) + r;
    assert r == (r / b) * b + r % b;
    assert x == (q * k + r / b) * b + r % b;
    DivModUnique(q * k + r / b, r % b, b);
  }

  /** Euclidean division by the positive constant `b` of `q * b + r` with `r` in range. */
  lemma DivModUnique(q: int, r: int, b: int)
    requires b > 0 && 0 <= r < b
    ensures (q * b + r) / b == q && (q * b + r) % b == r
  {
    var x := q * b + r;
    var k := x / b - q;
    assert x == b * (x / b) + x % b;
    assert b * k == r - x % b;
  }

  /** A time built from a day, an hour and a minute in range reads back the same day, hour and minute. */
  lemma ReadBack(day: int, hour: int, minute: int, rest: int)
    requires day % MsPerDay == 0
    requires 0 <= hour < 24 && 0 <= minute < 60 && 0 <= rest < MsPerMinute
    ensures var t := day + hour * MsPerHour + minute * MsPerMinute + rest;
      && DayStart(t) == day && HourOfDay(t) == hour && MinuteOfHour(t) == minute && t % MsPerMinute == rest
  {
    var q := day / MsPerDay;
    var inHour := minute * MsPerMinute + rest;
    var inDay := hour * MsPerHour + inHour;
    var t := day + inDay;
    assert day == q * 86400000;
    assert t == q * 86400000 + inDay;
    ReadBackDay(q, inDay);
    assert DayStart(t) == day;
    DivModUnique(hour, inHour, MsPerHour);
    assert HourOfDay(t) == hour;
    assert t == (q * 24 + hour) * 3600000 + inHour;
    ReadBackHour(q * 24 + hour, inHour);
    DivModUnique(minute, rest, MsPerMinute);
    assert MinuteOfHour(t) == minute;
    assert t == (q * 1440 + hour * 60 + minute) * 60000 + rest;
    ReadBackMinute(q * 1440 + hour * 60 + minute, rest);
  }

  lemma ReadBackDay(q: int, inDay: int)
    requires 0 <= inDay < MsPerDay
    ensures (q * 86400000 + inDay) % MsPerDay == inDay
  {
    DivModUnique(q, inDay, MsPerDay);
  }

  lemma ReadBackHour(q: int, inHour: int)
    requires 0 <= inHour < MsPerHour
    ensures (q * 3600000 + inHour) % MsPerHour == inHour
  {
    DivModUnique(q, inHour, MsPerHour);
  }

  lemma ReadBackMinute(q: int, rest: int)
    requires 0 <= rest < MsPerMinute
    ensures (q * 60000 + rest) % MsPerMinute == rest
  {
    DivModUnique(q, rest, MsPerMinute);
  }

  /** Adding whole days moves the day start by the same amount and keeps the time of day. */
  lemma ShiftByDays(t: int, k: int)
    ensures DayStart(t + k * MsPerDay) == DayStart(t) + k * MsPerDay
    ensures (t + k * MsPerDay) % MsPerDay == t % MsPerDay
  {
    assert (t + k * MsPerDay) % MsPerDay == t % MsPerDay;
  }

  /** Setting an in-range hour and minute stays on the same day and reads them back. */
  lemma AtHourMinuteReadBack(t: int, hour: int, minute: int)
    requires 0 <= hour < 24 && 0 <= minute < 60
    ensures DayStart(AtHourMinute(t, hour, minute)) == DayStart(t)
    ensures HourOfDay(AtHourMinute(t, hour, minute)) == hour
    ensures MinuteOfHour(AtHourMinute(t, hour, minute)) == minute
    ensures AtHourMinute(t, hour, minute) % MsPerMinute == t % MsPerMinute
  {
    ReadBack(DayStart(t), hour, minute, t % MsPerMinute);
  }

  /** Two times of day set on the same day compare as their hour:minute. */
  lemma ZeroedOrder(t: int, h1: int, m1: int, h2: int, m2: int)
    ensures AtHourMinuteZeroed(t, h1, m1) <= AtHourMinuteZeroed(t, h2, m2) <==> h1 * 60 + m1 <= h2 * 60 + m2
  {
    assert AtHourMinuteZeroed(t, h1, m1) == DayStart(t) + (h1 * 60 + m1) * MsPerMinute;
    assert AtHourMinuteZeroed(t, h2, m2) == DayStart(t) + (h2 * 60 + m2) * MsPerMinute;
  }

  /** Adding whole minutes keeps the seconds and milliseconds. */
  lemma ShiftKeepsSeconds(t: int, k: int)
    ensures (t + k * MsPerMinute) % MsPerMinute == t % MsPerMinute
  {
    DivModUnique(t / MsPerMinute + k, t % MsPerMinute, MsPerMinute);
    assert t + k * MsPerMinute == (t / MsPerMinute + k) * MsPerMinute + t % MsPerMinute;
  }

  /** A time lies in the day starting at midnight `day` exactly when its day start is `day`. */
  lemma SameDay(t: int, day: int)
    requires day % MsPerDay == 0
    ensures DayStart(t) == day <==> day <= t < day + MsPerDay
  {
    if day <= t < day + MsPerDay {
      DivModUnique(day / MsPerDay, t - day, MsPerDay);
      assert t == (day / MsPerDay) * MsPerDay + (t - day);
    }
  }
}
