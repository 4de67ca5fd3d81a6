/** Day keys and per-day totals of the intake log (utils/calculations.ts).
    A timestamp's day key is its UTC calendar day, here the whole number of
    days since the epoch; the source formats the same day as YYYY-MM-DD. */
module Totals {
  import opened Types

  const MsPerDay: int := 86_400_000

  /** The UTC day a timestamp falls in: toISOString().split('T')[0]. The
      current day is DayKey(now), which is what getTodayKey returns. */
  function DayKey(timestamp: int): (day: int)
    ensures day * MsPerDay <= timestamp < (day + 1) * MsPerDay
  {
    timestamp / MsPerDay
  }

  /** Reference definition: the sum of the amounts of the logs dated `day`. */
  function SumOn(logs: seq<IntakeLog>, day: int): nat
    decreases |logs|
  {
    if logs == [] then 0
    else (if DayKey(logs[0].timestamp) == day then logs[0].amount else 0) + SumOn(logs[1..], day)
  }

  /** The days on which at least one log was recorded. */
  function LogDays(logs: seq<IntakeLog>): set<int>
  {
    set i | 0 <= i < |logs| :: DayKey(logs[i].timestamp)
  }

  /** `dailyTotals.get(day) || 0`: a day without an entry reads as 0. */
  function TotalOn(totals: map<int, int>, day: int): int
  {
    if day in totals then totals[day] else 0
  }

  /** One step of the grouping loop: add a log's amount to its day's entry. */
  function AddToTotals(totals: map<int, int>, log: IntakeLog): map<int, int>
  {
    var day := DayKey(log.timestamp);
    totals[day := TotalOn(totals, day) + log.amount]
  }

  /** The grouping loop, `logs.forEach(...)`, from a given starting map. It
      only adds keys, and a day on which nothing was logged keeps its entry. */
  function Accumulate(totals: map<int, int>, logs: seq<IntakeLog>): (r: map<int, int>)
    ensures totals.Keys <= r.Keys
    ensures forall d :: d !in LogDays(logs) ==> TotalOn(r, d) == TotalOn(totals, d)
    decreases |logs|
  {
    if logs == [] then totals
    else
      LogDaysCons(logs);
      Accumulate(AddToTotals(totals, logs[0]), logs[1..])
  }

  lemma LogDaysCons(logs: seq<IntakeLog>)
    requires logs != []
    ensures LogDays(logs) == {DayKey(logs[0].timestamp)} + LogDays(logs[1..])
  {
    forall d | d in LogDays(logs)
      ensures d in {DayKey(logs[0].timestamp)} + LogDays(logs[1..])
    {
      var i :| 0 <= i < |logs| && d == DayKey(logs[i].timestamp);
      if i > 0 {
        assert logs[1..][i - 1] == logs[i];
      }
    }
    forall d | d in LogDays(logs[1..])
      ensures d in LogDays(logs)
    {
      var i :| 0 <= i < |logs[1..]| && d == DayKey(logs[1..][i].timestamp);
      assert logs[1..][i] == logs[i + 1];
    }
  }

  /** The grouping loop adds each log's amount to the entry of its day and
      creates entries exactly for the logged days. */
  lemma {:induction false} AccumulateAddsSums(totals: map<int, int>, logs: seq<IntakeLog>)
    ensures Accumulate(totals, logs).Keys == totals.Keys + LogDays(logs)
    ensures forall d :: TotalOn(Accumulate(totals, logs), d) == TotalOn(totals, d) + SumOn(logs, d)
    decreases |logs|
  {
    if logs == [] {
      assert LogDays(logs) == {};
    } else {
      var next := AddToTotals(totals, logs[0]);
      AccumulateAddsSums(next, logs[1..]);
      LogDaysCons(logs);
      forall d
        ensures TotalOn(next, d) == TotalOn(totals, d)
          + (if DayKey(logs[0].timestamp) == d then logs[0].amount else 0)
      {
      }
    }
  }

  /** The `dailyTotals` map of calculateStreaks: one entry per logged day,
      holding the sum of that day's amounts. */
  function DailyTotals(logs: seq<IntakeLog>): (totals: map<int, int>)
    ensures totals.Keys == LogDays(logs)
    ensures forall d :: TotalOn(totals, d) == SumOn(logs, d)
  {
    AccumulateAddsSums(map[], logs);
    Accumulate(map[], logs)
  }

  /** The earliest logged day, which is also the smallest key of the totals
      map (the source sorts the keys and takes the first in date order). */
  function EarliestDay(logs: seq<IntakeLog>): (day: int)
    requires logs != []
    ensures day in LogDays(logs)
    ensures forall d :: d in LogDays(logs) ==> day <= d
    decreases |logs|
  {
    LogDaysCons(logs);
    if |logs| == 1 then
      assert LogDays(logs[1..]) == {};
      DayKey(logs[0].timestamp)
    else
      var first := DayKey(logs[0].timestamp);
      var rest := EarliestDay(logs[1..]);
      if first <= rest then first else rest
  }

  /** A day whose total is not zero has at least one log, so it is a key of
      the totals map and lies no earlier than the earliest logged day. */
  lemma NonzeroTotalIsLogged(logs: seq<IntakeLog>, day: int)
    requires logs != []
    requires TotalOn(DailyTotals(logs), day) != 0
    ensures day in LogDays(logs)
    ensures EarliestDay(logs) <= day
  {
  }

  /** Totals over a concatenation add up. */
  lemma {:induction false} SumOnAppend(a: seq<IntakeLog>, b: seq<IntakeLog>, day: int)
    ensures SumOn(a + b, day) == SumOn(a, day) + SumOn(b, day)
    decreases |a|
  {
    if a == [] {
      assert a + b == b;
    } else {
      assert (a + b)[1..] == a[1..] + b;
      SumOnAppend(a[1..], b, day);
    }
  }

  /** A day on which nothing was logged has total 0. */
  lemma {:induction false} SumOnUnloggedDay(logs: seq<IntakeLog>, day: int)
    requires day !in LogDays(logs)
    ensures SumOn(logs, day) == 0
    decreases |logs|
  {
    if logs != [] {
      LogDaysCons(logs);
      SumOnUnloggedDay(logs[1..], day);
    }
  }
}
