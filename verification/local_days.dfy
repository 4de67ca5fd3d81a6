/** The best-streak loop of calculateStreaks as it runs on instants. The
    loop variable is a Date: it starts at UTC midnight of the first logged
    day, is compared with the current instant, is keyed by its UTC day and is
    stepped with the local-time `setDate(getDate() + 1)`, which keeps the
    local wall-clock time: the instant drifts one hour earlier at each
    spring-forward and one hour later at each fall-back. This module models
    a zone with a single spring-forward: the step across it is 23 hours,
    unless the change falls in the last hour before the next UTC midnight,
    and from then on the loop variable sits at 23:00 UTC. */
module LocalDays {
  import opened Types
  import opened Totals
  import opened Streaks

  const MsPerHour: int := 3_600_000

  /** `setDate(getDate() + 1)` in a zone whose clocks go forward one hour at
      the instant `change`: the same wall-clock time on the next local date.
      That is 23 hours later when the change comes at most 23 hours after
      `t`. When it comes later than that, the target wall-clock time lies in
      the skipped hour, which ECMAScript reads with the offset from before
      the change, so the step is 24 hours, as it is without a change. */
  function NextLocalDay(t: int, change: int): (next: int)
    ensures t + MsPerDay - MsPerHour <= next <= t + MsPerDay
    ensures next == t + MsPerDay <==> !(t < change <= t + MsPerDay - MsPerHour)
  {
    if t < change <= t + MsPerDay - MsPerHour then t + MsPerDay - MsPerHour else t + MsPerDay
  }

  /** The loop `while (iterDate <= lastDate)` over instants: `t` is iterDate,
      `now` is lastDate, and today's key is the UTC day of `now`. */
  function LocalBestScan(totals: map<int, int>, goal: int, now: int, change: int, t: int, temp: nat, best: nat): (r: nat)
    ensures r >= best
    ensures t > now ==> r == best
    decreases now - t
  {
    if t > now then best
    else
      var key := DayKey(t);
      var next := NextLocalDay(t, change);
      if TotalOn(totals, key) >= goal then
        var count := temp + 1;
        LocalBestScan(totals, goal, now, change, next, count, if count > best then count else best)
      else
        LocalBestScan(totals, goal, now, change, next, if key != DayKey(now) then 0 else temp, best)
  }

  /** Away from a clock change the loop visits UTC midnights only, one per
      day up to today, and agrees with the day-number scan. */
  lemma {:induction false} LocalScanAwayFromChange(totals: map<int, int>, goal: int, now: int, change: int, day: int, temp: nat, best: nat)
    requires change <= day * MsPerDay || change > now + MsPerDay
    ensures LocalBestScan(totals, goal, now, change, day * MsPerDay, temp, best)
         == BestScan(totals, goal, DayKey(now), day, temp, best)
    decreases now - day * MsPerDay
  {
    var t := day * MsPerDay;
    var today := DayKey(now);
    assert t > now <==> day > today;
    if t <= now {
      assert DayKey(t) == day;
      assert NextLocalDay(t, change) == (day + 1) * MsPerDay;
      if TotalOn(totals, day) >= goal {
        var count := temp + 1;
        LocalScanAwayFromChange(totals, goal, now, change, day + 1, count, if count > best then count else best);
      } else {
        LocalScanAwayFromChange(totals, goal, now, change, day + 1, if day != today then 0 else temp, best);
      }
    }
  }

  /** 2024-03-10 as a UTC day number, and 07:00 UTC that day, when New York
      moves its clocks from 02:00 EST to 03:00 EDT. */
  const ChangeDay: int := 19792
  const NewYorkChange: int := ChangeDay * MsPerDay + 7 * MsPerHour

  /** A log below the goal on 2024-03-10 and one meeting it on 2024-03-11,
      viewed at 14:00 UTC on 2024-03-11 in New York. The loop visits
      2024-03-10 at 00:00 and again at 23:00 UTC, and its next instant,
      23:00 UTC on 2024-03-11, is after now: today is never scanned. The
      source's best streak is 0 while its current streak is 1. */
  lemma SpringForwardHidesToday()
    ensures var logs := [IntakeLog("a", 100, ChangeDay * MsPerDay + 12 * MsPerHour, "Water"),
                         IntakeLog("b", 250, (ChangeDay + 1) * MsPerDay + 12 * MsPerHour, "Water")];
      var now := (ChangeDay + 1) * MsPerDay + 14 * MsPerHour;
      var totals := DailyTotals(logs);
      && EarliestDay(logs) == ChangeDay
      && LocalBestScan(totals, 250, now, NewYorkChange, EarliestDay(logs) * MsPerDay, 0, 0) == 0
      && CurrentStreak(totals, 250, DayKey(now)) == 1
      && BestStreak(totals, 250, EarliestDay(logs), DayKey(now)) == 1
  {
    var logs := [IntakeLog("a", 100, ChangeDay * MsPerDay + 12 * MsPerHour, "Water"),
                 IntakeLog("b", 250, (ChangeDay + 1) * MsPerDay + 12 * MsPerHour, "Water")];
    var now := (ChangeDay + 1) * MsPerDay + 14 * MsPerHour;
    var totals := DailyTotals(logs);
    var t0 := ChangeDay * MsPerDay;
    var t1 := t0 + MsPerDay - MsPerHour;
    assert DayKey(logs[0].timestamp) == ChangeDay;
    assert DayKey(logs[1].timestamp) == ChangeDay + 1;
    assert DayKey(now) == ChangeDay + 1;
    assert DayKey(t1) == ChangeDay;
    assert logs[1..][1..] == [];
    assert SumOn(logs[1..], ChangeDay + 1) == 250;
    assert SumOn(logs, ChangeDay) == 100;
    assert SumOn(logs, ChangeDay + 1) == 250;
    assert SumOn(logs, ChangeDay - 1) == 0;
    assert TotalOn(totals, ChangeDay) == 100;
    assert TotalOn(totals, ChangeDay + 1) == 250;
    assert TotalOn(totals, ChangeDay - 1) == 0;
    assert NextLocalDay(t0, NewYorkChange) == t1;
    assert NextLocalDay(t1, NewYorkChange) == t1 + MsPerDay;
    assert LocalBestScan(totals, 250, now, NewYorkChange, t1 + MsPerDay, 0, 0) == 0;
    assert LocalBestScan(totals, 250, now, NewYorkChange, t1, 0, 0) == 0;
    assert WalkBack(totals, 250, ChangeDay) == 0;
    assert WalkBack(totals, 250, ChangeDay + 1) == 1;
    assert BestScan(totals, 250, ChangeDay + 1, ChangeDay + 2, 1, 1) == 1;
    assert BestScan(totals, 250, ChangeDay + 1, ChangeDay + 1, 0, 0) == 1;
  }
}
