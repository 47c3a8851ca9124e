/** Local wall-clock arithmetic shared by the check-in, calendar and
    notification modules.  An instant is a whole number of minutes since a
    local-time epoch (midnight of day 0); time zones and daylight saving are
    not modelled, so a day is always 1440 minutes long. */
module Time {

  /** Minutes since midnight of local day 0. */
  type Instant = int

  const MinutesPerHour := 60
  const MinutesPerDay := 1440

  /** Minutes since local midnight (`getHours() * 60 + getMinutes()`). */
  function TimeOfDay(t: Instant): (r: int)
    ensures 0 <= r < MinutesPerDay
  {
    t % MinutesPerDay
  }

  /** Local midnight of the day that holds `t`. */
  function StartOfDay(t: Instant): (r: Instant)
    ensures r <= t < r + MinutesPerDay
    ensures r + TimeOfDay(t) == t
  {
    t - TimeOfDay(t)
  }

  /** `Date.getHours()` */
  function HourOf(t: Instant): (h: int)
    ensures 0 <= h < 24
  {
    TimeOfDay(t) / MinutesPerHour
  }

  /** `Date.getMinutes()` */
  function MinuteOf(t: Instant): (m: int)
    ensures 0 <= m < MinutesPerHour
  {
    t % MinutesPerHour
  }

  /** The instant `hour:minute` on local day `day` (`new Date(y, m, d, hour, minute)`). */
  function At(day: int, hour: int, minute: int): Instant
  {
    day * MinutesPerDay + hour * MinutesPerHour + minute
  }

  /** Hour and minute split the time of day. */
  lemma TimeOfDaySplits(t: Instant)
    ensures TimeOfDay(t) == HourOf(t) * MinutesPerHour + MinuteOf(t)
  {
    var q := t / MinutesPerDay;
    var r := TimeOfDay(t);
    assert t == q * MinutesPerDay + r;
    assert t == (q * 24 + r / 60) * 60 + r % 60;
  }

  /** Shifting an instant by whole days changes neither its hour nor its minute. */
  lemma ShiftByDays(t: Instant, days: int)
    ensures TimeOfDay(t + days * MinutesPerDay) == TimeOfDay(t)
    ensures HourOf(t + days * MinutesPerDay) == HourOf(t)
    ensures MinuteOf(t + days * MinutesPerDay) == MinuteOf(t)
    ensures StartOfDay(t + days * MinutesPerDay) == StartOfDay(t) + days * MinutesPerDay
  {
    var q := t / MinutesPerDay;
    var r := t % MinutesPerDay;
    assert t == q * MinutesPerDay + r;
    assert t + days * MinutesPerDay == (q + days) * MinutesPerDay + r;
    assert (t + days * MinutesPerDay) % MinutesPerDay == r;
    var q2 := t / MinutesPerHour;
    assert t == q2 * MinutesPerHour + t % MinutesPerHour;
    assert t + days * MinutesPerDay == (q2 + days * 24) * MinutesPerHour + t % MinutesPerHour;
  }

  /** `At` builds an instant whose hour, minute and day are the ones given. */
  lemma AtComponents(day: int, hour: int, minute: int)
    requires 0 <= hour < 24 && 0 <= minute < MinutesPerHour
    ensures TimeOfDay(At(day, hour, minute)) == hour * MinutesPerHour + minute
    ensures HourOf(At(day, hour, minute)) == hour
    ensures MinuteOf(At(day, hour, minute)) == minute
    ensures StartOfDay(At(day, hour, minute)) == day * MinutesPerDay
  {
    var t := At(day, hour, minute);
    var tod := hour * MinutesPerHour + minute;
    assert 0 <= tod < MinutesPerDay;
    assert t == day * MinutesPerDay + tod;
    assert t % MinutesPerDay == tod;
    assert tod / MinutesPerHour == hour;
    assert t == (day * 24 + hour) * MinutesPerHour + minute;
    assert t % MinutesPerHour == minute;
  }
}
