/** The business-hours rule of the appointment clock (client/src/utils/timeService.ts):
    an instant is bookable when its wall-clock hour in Nairobi is from 8 up to, not
    including, 17. Instants are milliseconds since the Unix epoch; Nairobi keeps UTC+3
    all year. Date parsing and the clock are parameters. */
module TimeService {
  import opened Js

  const MsPerMinute: int := 60000
  const MsPerHour: int := 3600000
  const MsPerDay: int := 86400000
  /** East Africa Time, UTC+3, in milliseconds. */
  const NairobiOffset: int := 3 * MsPerHour

  const OpeningHour: int := 8
  const ClosingHour: int := 17

  /** The hour of the day in UTC (floor division, as `Date` does for times before 1970). */
  function UtcHour(t: int): (h: int)
    ensures 0 <= h < 24
  {
    (t / MsPerHour) % 24
  }

  /** `toZonedTime(date, 'Africa/Nairobi').getHours()` */
  function NairobiHour(t: int): (h: int)
    ensures 0 <= h < 24
  {
    ((t + NairobiOffset) / MsPerHour) % 24
  }

  /** `parseDateSafely`: the parsed instant, or the current time when the text does not
      parse. */
  function ParseDateSafely(s: string, parse: string -> Option<int>, now: int): (t: int)
    ensures parse(s).Some? ==> t == parse(s).value
    ensures parse(s).None? ==> t == now
  {
    parse(s).GetOr(now)
  }

  predicate InBusinessHours(t: int) {
    OpeningHour <= NairobiHour(t) < ClosingHour
  }

  /** `validateAppointmentTime` */
  function ValidateAppointmentTime(s: string, parse: string -> Option<int>, now: int): (ok: bool)
    ensures ok <==> InBusinessHours(ParseDateSafely(s, parse, now))
    ensures parse(s).None? ==> (ok <==> InBusinessHours(now))
  {
    var h := NairobiHour(ParseDateSafely(s, parse, now));
    h >= OpeningHour && h < ClosingHour
  }

  lemma DivPlusMultiple(q: int, r: int, d: int)
    requires d > 0 && 0 <= r < d
    ensures (q * d + r) / d == q && (q * d + r) % d == r
  {
    var x := q * d + r;
    var q1 := x / d;
    var r1 := x % d;
    assert x == q1 * d + r1;
    assert (q1 - q) * d == r - r1;
    if q1 > q {
      MulAtLeast(q1 - q, d);
    } else if q1 < q {
      MulAtLeast(q - q1, d);
    }
  }

  lemma MulAtLeast(k: int, d: int)
    requires k >= 1 && d > 0
    ensures k * d >= d
  {
  }

  /** Adding three hours shifts the hour index by exactly three. */
  lemma ShiftHours(t: int)
    ensures (t + NairobiOffset) / MsPerHour == t / MsPerHour + 3
  {
    var q := t / MsPerHour;
    var r := t % MsPerHour;
    assert t == q * MsPerHour + r;
    assert t + NairobiOffset == (q + 3) * MsPerHour + r;
    DivPlusMultiple(q + 3, r, MsPerHour);
  }

  /** The rule in UTC: bookable exactly when the UTC hour is from 5 up to 14. */
  lemma BusinessHoursInUtc(t: int)
    ensures InBusinessHours(t) <==> 5 <= UtcHour(t) < 14
  {
    ShiftHours(t);
    var k := t / MsPerHour;
    assert NairobiHour(t) == (k + 3) % 24;
    assert UtcHour(t) == k % 24;
    var a := k / 24;
    var b := k % 24;
    assert k == a * 24 + b;
    if b < 21 {
      assert k + 3 == a * 24 + (b + 3);
      DivPlusMultiple(a, b + 3, 24);
    } else {
      assert k + 3 == (a + 1) * 24 + (b - 21);
      DivPlusMultiple(a + 1, b - 21, 24);
    }
  }

  /** The instant that reads `h:m` on Nairobi's clocks on day `day` (counted from the
      epoch in Nairobi time), plus `ms` milliseconds within that minute. */
  function WallClock(day: int, h: int, m: int, ms: int): int {
    day * MsPerDay - NairobiOffset + h * MsPerHour + m * MsPerMinute + ms
  }

  /** The rule reads the wall-clock hour and nothing finer: minutes, seconds and
      milliseconds never change the answer. */
  lemma OnlyTheHourMatters(day: int, h: int, m: int, ms: int)
    requires 0 <= h < 24 && 0 <= m < 60 && 0 <= ms < MsPerMinute
    ensures NairobiHour(WallClock(day, h, m, ms)) == h
    ensures InBusinessHours(WallClock(day, h, m, ms)) <==> OpeningHour <= h < ClosingHour
  {
    var t := WallClock(day, h, m, ms);
    var r := m * MsPerMinute + ms;
    assert 0 <= r < MsPerHour;
    assert t + NairobiOffset == (day * 24 + h) * MsPerHour + r;
    DivPlusMultiple(day * 24 + h, r, MsPerHour);
    DivPlusMultiple(day, h, 24);
  }

  /** 08:00 and 16:59 are bookable; 07:59 and 17:00 are not. */
  lemma Boundaries(day: int)
    ensures InBusinessHours(WallClock(day, 8, 0, 0))
    ensures InBusinessHours(WallClock(day, 16, 59, 59999))
    ensures !InBusinessHours(WallClock(day, 7, 59, 59999))
    ensures !InBusinessHours(WallClock(day, 17, 0, 0))
  {
    OnlyTheHourMatters(day, 8, 0, 0);
    OnlyTheHourMatters(day, 16, 59, 59999);
    OnlyTheHourMatters(day, 7, 59, 59999);
    OnlyTheHourMatters(day, 17, 0, 0);
  }
}
