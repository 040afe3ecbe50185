/**
 * The calendar-boundary helpers and the velocity-limit predicates of the
 * load-attempt evaluator: pure functions of their arguments, with the
 * lemmas that state what each one promises.
 *
 * A timestamp is modelled abstractly as a proleptic Gregorian day ordinal
 * (1 is 0001-01-01, a Monday; 3652059 is 9999-12-31, the last day a naive
 * datetime can hold) and a second within that day. The weekday follows
 * Python's `date.weekday()`: (ordinal + 6) % 7, Monday = 0 .. Sunday = 6.
 */
module VelocityHelpers {

  /** The default thresholds of the three limit predicates. */
  const DAILY_LIMIT: real := 5000.0
  const WEEKLY_LIMIT: real := 20000.0
  const DAILY_VOL_LIMIT: int := 3

  const SECONDS_PER_DAY: int := 86400
  const MAX_ORDINAL: int := 3652059

  type Ordinal = d: int | 1 <= d <= MAX_ORDINAL witness 1
  type SecondOfDay = s: int | 0 <= s < SECONDS_PER_DAY

  /** A naive timestamp: calendar date (as a day ordinal) and time of day in seconds. */
  datatype Time = Time(day: Ordinal, second: SecondOfDay)

  /** Chronological order on timestamps, as Python orders datetimes. */
  predicate NotAfter(t1: Time, t2: Time) {
    t1.day < t2.day || (t1.day == t2.day && t1.second <= t2.second)
  }

  /** Monday = 0, ..., Sunday = 6. */
  function Weekday(t: Time): (w: int)
    ensures 0 <= w < 7
  {
    (t.day + 6) % 7
  }

  /** Subtracting a whole number of days keeps the time of day. */
  function MinusDays(t: Time, days: nat): Time
    requires days < t.day
  {
    Time(t.day - days, t.second)
  }

  // ---------------------------------------------------------------------
  // Limit predicates
  // ---------------------------------------------------------------------

  predicate PassDailyLimit(loadAmt: real, dailyLoadedSoFar: real, dailyLimit: real) {
    loadAmt + dailyLoadedSoFar <= dailyLimit
  }

  predicate PassWeeklyLimit(loadAmt: real, weeklyLoadedSoFar: real, weeklyLimit: real) {
    loadAmt + weeklyLoadedSoFar <= weeklyLimit
  }

  predicate PassDailyVol(dailyVolSoFar: int, dailyVolLimit: int) {
    dailyVolSoFar + 1 <= dailyVolLimit
  }

  /** The three checks against their default thresholds, all of them required. */
  predicate PassAllLimits(loadAmt: real, dailyLoadedSoFar: real, weeklyLoadedSoFar: real, dailyVolSoFar: int) {
    PassDailyLimit(loadAmt, dailyLoadedSoFar, DAILY_LIMIT)
    && PassWeeklyLimit(loadAmt, weeklyLoadedSoFar, WEEKLY_LIMIT)
    && PassDailyVol(dailyVolSoFar, DAILY_VOL_LIMIT)
  }

  // ---------------------------------------------------------------------
  // Calendar boundaries
  // ---------------------------------------------------------------------

  /** Midnight of the same calendar date. */
  function StartOfDay(t: Time): Time {
    Time(t.day, 0)
  }

  /** Midnight of the most recent Monday: step back `weekday` days, then truncate to the date. */
  function StartOfWeek(t: Time): Time {
    StartOfDay(MinusDays(t, Weekday(t)))
  }

  predicate CheckDiffStartDate(t1: Time, t2: Time) {
    StartOfDay(t1) != StartOfDay(t2)
  }

  predicate CheckDiffStartWeek(t1: Time, t2: Time) {
    StartOfWeek(t1) != StartOfWeek(t2)
  }

  /** Index of the Monday-based week of a day ordinal, counted from the week of 0001-01-01. */
  function WeekIndex(t: Time): int {
    (t.day - 1) / 7
  }

  // ---------------------------------------------------------------------
  // Properties of the limit predicates
  // ---------------------------------------------------------------------

  /** Each check is inclusive at its threshold; passing all of them is their conjunction. */
  lemma PassAllLimitsMeaning(loadAmt: real, day: real, week: real, vol: int)
    ensures PassAllLimits(loadAmt, day, week, vol)
        <==> loadAmt + day <= 5000.0 && loadAmt + week <= 20000.0 && vol < 3
    ensures PassDailyLimit(5000.0, 0.0, DAILY_LIMIT) && !PassDailyLimit(5001.0, 0.0, DAILY_LIMIT)
    ensures PassWeeklyLimit(20000.0, 0.0, WEEKLY_LIMIT) && !PassWeeklyLimit(20000.01, 0.0, WEEKLY_LIMIT)
    ensures PassDailyVol(2, DAILY_VOL_LIMIT) && !PassDailyVol(3, DAILY_VOL_LIMIT)
  {
  }

  /** The parameter table of the limit tests. */
  lemma PassAllLimitsExamples()
    ensures PassAllLimits(5000.0, 0.0, 0.0, 0)
    ensures !PassAllLimits(5001.0, 0.0, 0.0, 0)
    ensures PassAllLimits(1000.0, 2000.0, 2000.0, 1)
    ensures !PassAllLimits(1000.0, 4500.0, 4500.0, 2)
    ensures !PassAllLimits(100.0, 250.0, 20000.0, 1)
    ensures !PassAllLimits(100.0, 250.0, 10000.0, 3)
    ensures PassAllLimits(100.0, 250.0, 12000.0, 2)
  {
  }

  /** Lower counters never turn a pass into a failure: a reset can only admit more. */
  lemma PassAllLimitsAntitone(loadAmt: real, day: real, week: real, vol: int, day': real, week': real, vol': int)
    requires day' <= day && week' <= week && vol' <= vol
    requires PassAllLimits(loadAmt, day, week, vol)
    ensures PassAllLimits(loadAmt, day', week', vol')
  {
  }

  // ---------------------------------------------------------------------
  // Properties of the calendar helpers
  // ---------------------------------------------------------------------

  /** Start of day: same date, midnight, not after t, the earliest moment of that date, idempotent. */
  lemma StartOfDayProperties(t: Time)
    ensures StartOfDay(t).day == t.day && StartOfDay(t).second == 0
    ensures NotAfter(StartOfDay(t), t)
    ensures forall u: Time :: u.day == t.day ==> NotAfter(StartOfDay(t), u)
    ensures StartOfDay(StartOfDay(t)) == StartOfDay(t)
  {
  }

  /** Stepping back `weekday` days from an ordinal lands on the first ordinal of its 7-day block. */
  lemma BlockStart(d: int)
    requires 1 <= d
    ensures d - (d + 6) % 7 == 7 * ((d - 1) / 7) + 1
  {
    assert (d + 6) % 7 == (d - 1) % 7;
  }

  /** The ordinals 7 * k + 1 are exactly the Mondays. */
  lemma MondaysAreBlockStarts(d: int)
    requires 1 <= d
    ensures (d + 6) % 7 == 0 <==> d == 7 * ((d - 1) / 7) + 1
  {
    BlockStart(d);
  }

  /** The start of week is the first day of the 7-day block that holds t's date. */
  lemma StartOfWeekDay(t: Time)
    ensures StartOfWeek(t).day == 7 * WeekIndex(t) + 1
    ensures StartOfWeek(t).second == 0
  {
    BlockStart(t.day);
  }

  /** Every Monday midnight not after t is not after t's start of week. */
  lemma StartOfWeekIsLatestMonday(t: Time, u: Time)
    requires Weekday(u) == 0 && u.second == 0 && NotAfter(u, t)
    ensures NotAfter(u, StartOfWeek(t))
  {
    StartOfWeekDay(t);
    MondaysAreBlockStarts(u.day);
    assert u.day - 1 == 7 * ((u.day - 1) / 7);
    assert (u.day - 1) / 7 <= (t.day - 1) / 7;
  }

  /** Start of week: a Monday at midnight, zero to six days before t's date, so never after t. */
  lemma StartOfWeekIsMondayMidnight(t: Time)
    ensures Weekday(StartOfWeek(t)) == 0 && StartOfWeek(t).second == 0
    ensures 0 <= t.day - StartOfWeek(t).day <= 6
    ensures NotAfter(StartOfWeek(t), t)
  {
    var k := WeekIndex(t);
    StartOfWeekDay(t);
    assert StartOfWeek(t).day + 6 == 7 * (k + 1);
    assert t.day - 1 == 7 * k + (t.day - 1) % 7;
  }

  /** Start of week is idempotent and unchanged by first truncating t to its date. */
  lemma StartOfWeekIdempotent(t: Time)
    ensures StartOfWeek(StartOfWeek(t)) == StartOfWeek(t)
    ensures StartOfWeek(StartOfDay(t)) == StartOfWeek(t)
  {
    var k := WeekIndex(t);
    StartOfWeekDay(t);
    var r := StartOfWeek(t);
    assert r.day - 1 == 7 * k;
    assert WeekIndex(r) == k;
    StartOfWeekDay(r);
    StartOfWeekDay(StartOfDay(t));
  }

  /** Two timestamps are on different dates exactly when their day ordinals differ; the test is symmetric. */
  lemma CheckDiffStartDateMeaning(t1: Time, t2: Time)
    ensures CheckDiffStartDate(t1, t2) <==> t1.day != t2.day
    ensures CheckDiffStartDate(t1, t2) == CheckDiffStartDate(t2, t1)
  {
  }

  /** Two timestamps are in different weeks exactly when their Monday-based week indices differ. */
  lemma CheckDiffStartWeekMeaning(t1: Time, t2: Time)
    ensures CheckDiffStartWeek(t1, t2) <==> WeekIndex(t1) != WeekIndex(t2)
    ensures CheckDiffStartWeek(t1, t2) == CheckDiffStartWeek(t2, t1)
  {
    StartOfWeekDay(t1);
    StartOfWeekDay(t2);
  }

  /** Crossing a week boundary always crosses a day boundary. */
  lemma WeekCrossingIsDayCrossing(t1: Time, t2: Time)
    ensures CheckDiffStartWeek(t1, t2) ==> CheckDiffStartDate(t1, t2)
  {
    CheckDiffStartWeekMeaning(t1, t2);
  }

  /** From one date to the next, the week is crossed exactly when the later date is a Monday. */
  lemma NextDayCrossesWeekOnMonday(t1: Time, t2: Time)
    requires t2.day == t1.day + 1
    ensures CheckDiffStartWeek(t1, t2) <==> Weekday(t2) == 0
  {
    CheckDiffStartWeekMeaning(t1, t2);
    var d: int := t1.day;
    assert d - 1 == 7 * ((d - 1) / 7) + (d - 1) % 7;
    assert d == 7 * ((d - 1) / 7) + ((d - 1) % 7 + 1);
    if (d - 1) % 7 == 6 {
      assert d == 7 * ((d - 1) / 7 + 1);
      assert (d + 6) / 7 == (d - 1) / 7 + 1;
    } else {
      assert (d + 6) / 7 == (d - 1) / 7 + 1;
      assert d / 7 == (d - 1) / 7;
    }
  }

  /** Two timestamps at least seven days apart are always in different weeks. */
  lemma SevenDaysApartCrossWeek(t1: Time, t2: Time)
    requires t1.day + 7 <= t2.day
    ensures CheckDiffStartWeek(t1, t2)
  {
    CheckDiffStartWeekMeaning(t1, t2);
  }

  /** The date examples of the helper tests, with their dates written as ordinals. */
  lemma DateCrossingExamples()
    // 2000-12-01 (ordinal 730455) 00:00:00 vs 23:59:59: same date
    ensures !CheckDiffStartDate(Time(730455, 0), Time(730455, 86399))
    // 2000-12-02 05:02:03 vs 10:59:59: same date
    ensures !CheckDiffStartDate(Time(730456, 18123), Time(730456, 39599))
    // 2000-12-01 12:01:01 vs 2000-12-02 23:00:00: different dates
    ensures CheckDiffStartDate(Time(730455, 43261), Time(730456, 82800))
    // 2000-12-01 23:59:59 vs 2000-12-02 00:00:00: a midnight crossing
    ensures CheckDiffStartDate(Time(730455, 86399), Time(730456, 0))
  {
  }

  /** Sunday 2021-04-25 (ordinal 737905) 23:59:59 vs Monday 2021-04-26 00:00:00: a week crossing. */
  lemma SundayToMondayCrossesWeek()
    ensures CheckDiffStartWeek(Time(737905, 86399), Time(737906, 0))
  {
    CheckDiffStartWeekMeaning(Time(737905, 86399), Time(737906, 0));
    assert WeekIndex(Time(737905, 86399)) == 105414;
    assert WeekIndex(Time(737906, 0)) == 105415;
  }

  /** Sunday 2021-04-25 23:59:59 vs Monday 2021-05-17 01:00:00: a week crossing. */
  lemma SundayToLaterMondayCrossesWeek()
    ensures CheckDiffStartWeek(Time(737905, 86399), Time(737927, 3600))
  {
    CheckDiffStartWeekMeaning(Time(737905, 86399), Time(737927, 3600));
    assert WeekIndex(Time(737905, 86399)) == 105414;
    assert WeekIndex(Time(737927, 3600)) == 105418;
  }

  /** Tuesday 2021-04-20 04:15:00 vs Saturday 2021-04-24 23:00:00: the same week. */
  lemma TuesdayToSaturdaySameWeek()
    ensures !CheckDiffStartWeek(Time(737900, 15300), Time(737904, 82800))
  {
    CheckDiffStartWeekMeaning(Time(737900, 15300), Time(737904, 82800));
    assert WeekIndex(Time(737900, 15300)) == 105414;
    assert WeekIndex(Time(737904, 82800)) == 105414;
  }
}
