/** The streak engine of utils/calculations.ts: the current streak (a
    backward walk from today or yesterday) and the best streak (a forward
    scan from the earliest logged day through today) over per-day totals. */
module Streaks {
  import opened Types
  import opened Totals

  /** A day meets the goal when its total reaches it. */
  predicate Met(totals: map<int, int>, goal: int, day: int)
  {
    TotalOn(totals, day) >= goal
  }

  /** Every day of `start .. start + len - 1` meets the goal. */
  predicate MetRun(totals: map<int, int>, goal: int, start: int, len: int)
  {
    forall d :: start <= d < start + len ==> Met(totals, goal, d)
  }

  /** The logged days up to and including `day`; it shrinks at every step of
      the backward walk, which is why the walk ends. */
  function KeysUpTo(totals: map<int, int>, day: int): set<int>
  {
    set k | k in totals && k <= day
  }

  /** The `while (true)` walk of calculateStreaks: count the met days going
      backwards from `day` and stop at the first day that misses the goal.
      The result is the length of the maximal met run ending at `day`. With a
      goal of 0 or less the source walk would never stop, since days without
      logs read as 0. */
  function WalkBack(totals: map<int, int>, goal: int, day: int): (count: nat)
    requires goal > 0
    ensures MetRun(totals, goal, day - count + 1, count)
    ensures !Met(totals, goal, day - count)
    decreases |KeysUpTo(totals, day)|
  {
    if TotalOn(totals, day) >= goal then
      assert day in totals;
      assert KeysUpTo(totals, day) == KeysUpTo(totals, day - 1) + {day};
      1 + WalkBack(totals, goal, day - 1)
    else
      0
  }

  /** The `while (true)` walk as the source runs it, for any goal, given a
      budget of `fuel` steps: None when the budget runs out before some day
      misses the goal, otherwise the count the walk returns. */
  function WalkBackFuel(totals: map<int, int>, goal: int, day: int, fuel: nat): (r: Option<nat>)
    ensures r.Some? ==> MetRun(totals, goal, day - r.value + 1, r.value) && !Met(totals, goal, day - r.value)
    decreases fuel
  {
    if fuel == 0 then None
    else if TotalOn(totals, day) >= goal then
      match WalkBackFuel(totals, goal, day - 1, fuel - 1)
      case None => None
      case Some(count) => Some(count + 1)
    else Some(0)
  }

  /** With a positive goal the walk as the source runs it stops within one
      step per logged day, and returns WalkBack's count. */
  lemma {:induction false} WalkBackFuelAgrees(totals: map<int, int>, goal: int, day: int, fuel: nat)
    requires goal > 0 && fuel > |KeysUpTo(totals, day)|
    ensures WalkBackFuel(totals, goal, day, fuel) == Some(WalkBack(totals, goal, day))
    decreases fuel
  {
    if TotalOn(totals, day) >= goal {
      assert day in totals;
      assert KeysUpTo(totals, day) == KeysUpTo(totals, day - 1) + {day};
      WalkBackFuelAgrees(totals, goal, day - 1, fuel - 1);
    }
  }

  /** With a goal of 0 or less every day meets it, since totals of logged
      amounts are never negative and days without logs read as 0: however
      many steps it is given, the walk never stops at a missed day. (The
      source's Date range ends it after about 10^8 steps with a RangeError
      from toISOString, outside this model's unbounded days.) This follows from
      WalkBackFuel's contract, whose stopping day would have to miss. */
  lemma WalkNeverEndsWithoutPositiveGoal(logs: seq<IntakeLog>, goal: int, day: int, fuel: nat)
    requires goal <= 0
    ensures WalkBackFuel(DailyTotals(logs), goal, day, fuel) == None
  {
  }

  /** The day the backward walk starts from: today when today's goal is
      already met, otherwise yesterday. */
  function Anchor(totals: map<int, int>, goal: int, today: int): int
  {
    if Met(totals, goal, today) then today else today - 1
  }

  /** The current streak: 0 when neither today nor yesterday meets the goal,
      otherwise the length of the maximal met run ending at the anchor. */
  function CurrentStreak(totals: map<int, int>, goal: int, today: int): (streak: nat)
    requires goal > 0
    ensures streak == 0 <==> !Met(totals, goal, today) && !Met(totals, goal, today - 1)
    ensures MetRun(totals, goal, Anchor(totals, goal, today) - streak + 1, streak)
    ensures !Met(totals, goal, Anchor(totals, goal, today) - streak)
  {
    var todayTotal := TotalOn(totals, today);
    var yesterdayTotal := TotalOn(totals, today - 1);
    if todayTotal < goal && yesterdayTotal < goal then 0
    else WalkBack(totals, goal, if todayTotal >= goal then today else today - 1)
  }

  /** The current streak reaches `n` exactly when the `n` days ending at
      the anchor all meet the goal. */
  lemma CurrentStreakAtLeast(totals: map<int, int>, goal: int, today: int, n: nat)
    requires goal > 0
    ensures CurrentStreak(totals, goal, today) >= n <==>
      MetRun(totals, goal, Anchor(totals, goal, today) - n + 1, n)
  {
    var streak := CurrentStreak(totals, goal, today);
    var anchor := Anchor(totals, goal, today);
    if streak >= n {
      forall d | anchor - n + 1 <= d < anchor + 1
        ensures Met(totals, goal, d)
      {
        assert anchor - streak + 1 <= d;
      }
    } else {
      assert anchor - n + 1 <= anchor - streak < anchor + 1;
    }
  }

  /** The forward scan over `day .. today` with the running counter `temp`
      and the maximum `best` seen so far. A day that meets the goal extends
      the counter; a day that misses it resets the counter, except today. */
  function BestScan(totals: map<int, int>, goal: int, today: int, day: int, temp: nat, best: nat): (r: nat)
    ensures r >= best
    ensures r == best || r <= temp + (today - day + 1)
    decreases today - day
  {
    if day > today then best
    else if TotalOn(totals, day) >= goal then
      var next := temp + 1;
      BestScan(totals, goal, today, day + 1, next, if next > best then next else best)
    else
      BestScan(totals, goal, today, day + 1, if day != today then 0 else temp, best)
  }

  /** The same scan as the comment in the source describes it: resetting the
      counter on every missed day, today included. */
  function BestScanResetting(totals: map<int, int>, goal: int, today: int, day: int, temp: nat, best: nat): nat
    decreases today - day
  {
    if day > today then best
    else if TotalOn(totals, day) >= goal then
      var next := temp + 1;
      BestScanResetting(totals, goal, today, day + 1, next, if next > best then next else best)
    else
      BestScanResetting(totals, goal, today, day + 1, 0, best)
  }

  /** Not resetting on today never changes the best streak: today is the
      last day scanned, so the counter it keeps is never read again. */
  lemma {:induction false} TodayExceptionIsInvisible(totals: map<int, int>, goal: int, today: int, day: int, temp: nat, best: nat)
    ensures BestScan(totals, goal, today, day, temp, best) == BestScanResetting(totals, goal, today, day, temp, best)
    decreases today - day
  {
    if day <= today {
      if TotalOn(totals, day) >= goal {
        var next := temp + 1;
        TodayExceptionIsInvisible(totals, goal, today, day + 1, next, if next > best then next else best);
      } else if day != today {
        TodayExceptionIsInvisible(totals, goal, today, day + 1, 0, best);
      }
    }
  }

  /** The counter `temp` entering `day` is the length of the maximal met run
      ending the day before, not reaching back before `lo`. */
  predicate CounterIsRun(totals: map<int, int>, goal: int, lo: int, day: int, temp: nat)
  {
    && lo <= day - temp
    && MetRun(totals, goal, day - temp, temp)
    && (day - temp - 1 >= lo ==> !Met(totals, goal, day - temp - 1))
  }

  /** `best` is the length of some met run inside `lo .. hi - 1`. */
  ghost predicate RunWitnessed(totals: map<int, int>, goal: int, lo: int, hi: int, best: nat)
  {
    best == 0 || exists s :: lo <= s && s + best <= hi && MetRun(totals, goal, s, best)
  }

  /** No met run inside `lo .. hi - 1` is longer than `best`. */
  ghost predicate NoLongerRun(totals: map<int, int>, goal: int, lo: int, hi: int, best: nat)
  {
    forall s, k :: lo <= s && s + k <= hi && MetRun(totals, goal, s, k) ==> k <= best
  }

  /** A met run that ends at `day` cannot be longer than the counter plus
      one: its part before `day` lies within the run the counter measures. */
  lemma RunEndingAt(totals: map<int, int>, goal: int, lo: int, day: int, temp: nat, s: int, k: int)
    requires CounterIsRun(totals, goal, lo, day, temp)
    requires lo <= s && s + k == day + 1 && MetRun(totals, goal, s, k)
    ensures k <= temp + 1
  {
    assert s <= day - temp - 1 < s + k ==> Met(totals, goal, day - temp - 1);
  }

  /** The scan from `day` on keeps its invariants and so ends with the
      length of the longest met run inside `lo .. today`. */
  lemma {:induction false} ScanFindsLongestRun(totals: map<int, int>, goal: int, lo: int, today: int, day: int, temp: nat, best: nat)
    requires lo <= day
    requires day <= today + 1 || best == 0
    requires day <= today ==> CounterIsRun(totals, goal, lo, day, temp)
    requires RunWitnessed(totals, goal, lo, day, best)
    requires NoLongerRun(totals, goal, lo, day, best)
    ensures RunWitnessed(totals, goal, lo, today + 1, BestScan(totals, goal, today, day, temp, best))
    ensures NoLongerRun(totals, goal, lo, today + 1, BestScan(totals, goal, today, day, temp, best))
    decreases today - day
  {
    if day > today {
      return;
    }
    if TotalOn(totals, day) >= goal {
      var next := temp + 1;
      var best' := if next > best then next else best;
      assert MetRun(totals, goal, day - temp, next);
      assert RunWitnessed(totals, goal, lo, day + 1, best') by {
        if next > best {
          assert lo <= day - temp && day - temp + best' <= day + 1;
        } else if best > 0 {
          var s :| lo <= s && s + best <= day && MetRun(totals, goal, s, best);
          assert s + best' <= day + 1;
        }
      }
      forall s, k | lo <= s && s + k <= day + 1 && MetRun(totals, goal, s, k)
        ensures k <= best'
      {
        if s + k == day + 1 {
          RunEndingAt(totals, goal, lo, day, temp, s, k);
        }
      }
      ScanFindsLongestRun(totals, goal, lo, today, day + 1, next, best');
    } else {
      var temp' := if day != today then 0 else temp;
      forall s, k | lo <= s && s + k <= day + 1 && MetRun(totals, goal, s, k)
        ensures k <= best
      {
        assert s + k == day + 1 && k > 0 ==> Met(totals, goal, day);
      }
      assert RunWitnessed(totals, goal, lo, day + 1, best) by {
        if best > 0 {
          var s :| lo <= s && s + best <= day && MetRun(totals, goal, s, best);
          assert s + best <= day + 1;
        }
      }
      ScanFindsLongestRun(totals, goal, lo, today, day + 1, temp', best);
    }
  }

  /** The best streak: the forward scan from `first` with a fresh counter. */
  function BestStreak(totals: map<int, int>, goal: int, first: int, today: int): (best: nat)
    ensures RunWitnessed(totals, goal, first, today + 1, best)
    ensures NoLongerRun(totals, goal, first, today + 1, best)
  {
    ScanFindsLongestRun(totals, goal, first, today, first, 0, 0);
    BestScan(totals, goal, today, first, 0, 0)
  }

  /** When the first logged day is after today the scan visits no day and
      the best streak is 0. */
  lemma BestStreakOfFutureLogs(totals: map<int, int>, goal: int, first: int, today: int)
    requires first > today
    ensures BestStreak(totals, goal, first, today) == 0
  {
  }

  /** calculateStreaks. An empty log gives zero streaks; otherwise the totals
      are grouped per day and both streaks are computed over them. The
      requires is exactly the condition under which the source returns: with
      logs present and a goal of 0 or less its backward walk never stops. */
  function CalculateStreaks(logs: seq<IntakeLog>, goal: int, now: int): (stats: StreakStats)
    requires logs == [] || goal > 0
    ensures logs == [] ==> stats == StreakStats(0, 0)
    ensures stats.currentStreak <= stats.bestStreak
    ensures stats.currentStreak == 0 <==>
      logs == [] || (SumOn(logs, DayKey(now)) < goal && SumOn(logs, DayKey(now) - 1) < goal)
  {
    if logs == [] then StreakStats(0, 0)
    else
      var totals := DailyTotals(logs);
      var today := DayKey(now);
      var best := BestStreak(totals, goal, EarliestDay(logs), today);
      var current := CurrentStreak(totals, goal, today);
      CurrentWithinBest(logs, goal, today);
      StreakStats(current, best)
  }

  /** Every day of the current run has a positive total, hence lies between
      the earliest logged day and today, inside the best-streak scan; so the
      current streak never exceeds the best streak. */
  lemma CurrentWithinBest(logs: seq<IntakeLog>, goal: int, today: int)
    requires logs != [] && goal > 0
    ensures CurrentStreak(DailyTotals(logs), goal, today)
         <= BestStreak(DailyTotals(logs), goal, EarliestDay(logs), today)
  {
    var totals := DailyTotals(logs);
    var current := CurrentStreak(totals, goal, today);
    if current > 0 {
      var start := Anchor(totals, goal, today) - current + 1;
      assert Met(totals, goal, start);
      NonzeroTotalIsLogged(logs, start);
      assert NoLongerRun(totals, goal, EarliestDay(logs), today + 1, BestStreak(totals, goal, EarliestDay(logs), today));
    }
  }
}
