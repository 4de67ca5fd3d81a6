/** The log operations and derived views of App.tsx: adding and deleting
    logs, today's logs and total, the streak statistics, the seven-day
    history, the goals-met count and the milestone tests. The log list is a
    plain value; `now` (epoch milliseconds) stands for Date.now(). */
module App {
  import opened Types
  import opened Seqs
  import opened Totals
  import opened Streaks

  /** Thresholds of the three milestones. */
  const StreakStarterDays: nat := 3
  const WaterLegendDays: nat := 7
  const GallonMl: int := 3800

  /** Length of the history window, in days. */
  const HistoryDays: nat := 7

  /** addLog: the new log, stamped with `now`, goes in front of the list.
      The random id of the source is a parameter here and need not be fresh. */
  function AddLog(logs: seq<IntakeLog>, id: string, amount: nat, kind: string, now: int): (r: seq<IntakeLog>)
    ensures |r| == |logs| + 1
    ensures r[0] == IntakeLog(id, amount, now, kind)
    ensures forall i :: 0 <= i < |logs| ==> r[i + 1] == logs[i]
  {
    [IntakeLog(id, amount, now, kind)] + logs
  }

  function OtherId(id: string): IntakeLog -> bool
  {
    (log: IntakeLog) => log.id != id
  }

  function SameId(id: string): IntakeLog -> bool
  {
    (log: IntakeLog) => log.id == id
  }

  /** deleteLog: keep the logs whose id differs, in their order. */
  function DeleteLog(logs: seq<IntakeLog>, id: string): (r: seq<IntakeLog>)
    ensures |r| <= |logs|
    ensures forall i :: 0 <= i < |r| ==> r[i].id != id && r[i] in logs
    ensures forall i :: 0 <= i < |logs| && logs[i].id != id ==> logs[i] in r
    ensures (forall i :: 0 <= i < |logs| ==> logs[i].id != id) ==> r == logs
  {
    Filter(logs, OtherId(id))
  }

  /** Deleting a freshly added log restores the list, when no earlier log
      carries the same id. */
  lemma DeleteUndoesAdd(logs: seq<IntakeLog>, id: string, amount: nat, kind: string, now: int)
    requires forall i :: 0 <= i < |logs| ==> logs[i].id != id
    ensures DeleteLog(AddLog(logs, id, amount, kind, now), id) == logs
  {
    var added := IntakeLog(id, amount, now, kind);
    FilterAppend([added], logs, OtherId(id));
  }

  /** Adding a log raises the total of its own day by its amount and leaves
      every other day's total alone. */
  lemma AddLogTotals(logs: seq<IntakeLog>, id: string, amount: nat, kind: string, now: int, day: int)
    ensures SumOn(AddLog(logs, id, amount, kind, now), day)
         == SumOn(logs, day) + (if DayKey(now) == day then amount else 0)
  {
    assert AddLog(logs, id, amount, kind, now)[1..] == logs;
  }

  /** A day's total splits into the part deleteLog keeps and the part it
      removes: the logs carrying the id. */
  lemma {:induction false} DeleteSplitsTotal(logs: seq<IntakeLog>, id: string, day: int)
    ensures SumOn(logs, day) == SumOn(DeleteLog(logs, id), day) + SumOn(Filter(logs, SameId(id)), day)
    decreases |logs|
  {
    if logs != [] {
      DeleteSplitsTotal(logs[1..], id, day);
      var rest := DeleteLog(logs[1..], id);
      if logs[0].id != id {
        assert DeleteLog(logs, id) == [logs[0]] + rest;
        assert ([logs[0]] + rest)[1..] == rest;
      } else {
        assert Filter(logs, SameId(id)) == [logs[0]] + Filter(logs[1..], SameId(id));
        assert ([logs[0]] + Filter(logs[1..], SameId(id)))[1..] == Filter(logs[1..], SameId(id));
      }
    }
  }

  /** When exactly one log carries the id, deleting it removes exactly its
      amount from its day's total. */
  lemma DeleteUniqueLog(logs: seq<IntakeLog>, i: nat, day: int)
    requires i < |logs|
    requires forall j :: 0 <= j < |logs| && j != i ==> logs[j].id != logs[i].id
    ensures SumOn(DeleteLog(logs, logs[i].id), day)
         == SumOn(logs, day) - (if DayKey(logs[i].timestamp) == day then logs[i].amount else 0)
  {
    var id := logs[i].id;
    var before, after := logs[..i], logs[i + 1..];
    assert logs == before + [logs[i]] + after;
    FilterAppend(before + [logs[i]], after, SameId(id));
    FilterAppend(before, [logs[i]], SameId(id));
    assert forall j :: 0 <= j < |before| ==> before[j] == logs[j];
    assert forall j :: 0 <= j < |after| ==> after[j] == logs[i + 1 + j];
    assert Filter(before, SameId(id)) == [];
    assert Filter(after, SameId(id)) == [];
    assert Filter([logs[i]], SameId(id)) == [logs[i]];
    assert Filter(logs, SameId(id)) == [logs[i]];
    assert [logs[i]][1..] == [];
    DeleteSplitsTotal(logs, id, day);
  }

  function OnDay(day: int): IntakeLog -> bool
  {
    (log: IntakeLog) => DayKey(log.timestamp) == day
  }

  /** todayLogs: the logs whose UTC day is today, in their order. */
  function TodayLogs(logs: seq<IntakeLog>, now: int): (r: seq<IntakeLog>)
    ensures forall i :: 0 <= i < |r| ==> DayKey(r[i].timestamp) == DayKey(now) && r[i] in logs
    ensures forall i :: 0 <= i < |logs| && DayKey(logs[i].timestamp) == DayKey(now) ==> logs[i] in r
  {
    Filter(logs, OnDay(DayKey(now)))
  }

  /** The `reduce((acc, log) => acc + log.amount, 0)` of a list of logs:
      every amount is part of the sum, and the empty list sums to 0. */
  function SumAmounts(logs: seq<IntakeLog>): (total: nat)
    ensures forall i :: 0 <= i < |logs| ==> logs[i].amount <= total
    ensures total == 0 <==> forall i :: 0 <= i < |logs| ==> logs[i].amount == 0
    decreases |logs|
  {
    if logs == [] then 0 else logs[0].amount + SumAmounts(logs[1..])
  }

  lemma {:induction false} SumOfDayFilter(logs: seq<IntakeLog>, day: int)
    ensures SumAmounts(Filter(logs, OnDay(day))) == SumOn(logs, day)
    decreases |logs|
  {
    if logs != [] {
      SumOfDayFilter(logs[1..], day);
      var rest := Filter(logs[1..], OnDay(day));
      if DayKey(logs[0].timestamp) == day {
        assert Filter(logs, OnDay(day)) == [logs[0]] + rest;
        assert ([logs[0]] + rest)[1..] == rest;
      }
    }
  }

  /** todayTotal: the summed amounts of today's logs, which is the total of
      today's entry in the streak engine's per-day map. */
  function TodayTotal(logs: seq<IntakeLog>, now: int): (total: int)
    ensures total == SumOn(logs, DayKey(now))
    ensures total == TotalOn(DailyTotals(logs), DayKey(now))
  {
    SumOfDayFilter(logs, DayKey(now));
    SumAmounts(TodayLogs(logs, now))
  }

  /** streakStats: zero streaks without a profile, otherwise calculateStreaks
      with the profile's goal. The requires is the termination condition of
      calculateStreaks. */
  function StreakStatsFor(profile: Option<UserProfile>, logs: seq<IntakeLog>, now: int): (stats: StreakStats)
    requires profile.None? || logs == [] || profile.value.dailyGoal > 0
    ensures profile.None? ==> stats == StreakStats(0, 0)
    ensures stats.currentStreak <= stats.bestStreak
    ensures profile.Some? ==> stats == CalculateStreaks(logs, profile.value.dailyGoal, now)
  {
    if profile.None? then StreakStats(0, 0)
    else CalculateStreaks(logs, profile.value.dailyGoal, now)
  }

  /** `last7Days`: today, yesterday, ... six days back, then reversed. */
  function LastSevenDays(today: int): (days: seq<int>)
    ensures |days| == HistoryDays
    ensures forall i :: 0 <= i < |days| ==> days[i] == today - (HistoryDays - 1) + i
  {
    var back := seq(HistoryDays, i => today - i);
    seq(|back|, i requires 0 <= i < |back| => back[|back| - 1 - i])
  }

  /** The history loop: add each log's amount to its day's entry when that
      day is one of the window's keys, and ignore it otherwise. */
  function AccumulateWindow(window: map<int, int>, logs: seq<IntakeLog>): (r: map<int, int>)
    ensures r.Keys == window.Keys
    ensures forall d :: d in window ==> r[d] == window[d] + SumOn(logs, d)
    decreases |logs|
  {
    if logs == [] then window
    else
      var day := DayKey(logs[0].timestamp);
      var next := if day in window then window[day := window[day] + logs[0].amount] else window;
      AccumulateWindow(next, logs[1..])
  }

  /** historyData: nothing without a profile; otherwise one summary for each
      of the seven days ending today, oldest first, holding that day's total
      and the profile's current goal. */
  function HistoryData(profile: Option<UserProfile>, logs: seq<IntakeLog>, now: int): (history: seq<DailySummary>)
    ensures profile.None? ==> history == []
    ensures profile.Some? ==> |history| == HistoryDays
    ensures forall i :: 0 <= i < |history| ==>
      && history[i].date == DayKey(now) - (HistoryDays - 1) + i
      && history[i].total == SumOn(logs, history[i].date)
      && history[i].goal == profile.value.dailyGoal
  {
    if profile.None? then []
    else
      var days := LastSevenDays(DayKey(now));
      var window := map d | d in days :: 0;
      var totals := AccumulateWindow(window, logs);
      seq(|days|, i requires 0 <= i < |days| => DailySummary(days[i], totals[days[i]], profile.value.dailyGoal))
  }

  /** The window is contiguous and ends today, and its last entry agrees
      with today's total, since both use the same UTC day. */
  lemma HistoryEndsToday(profile: Option<UserProfile>, logs: seq<IntakeLog>, now: int)
    requires profile.Some?
    ensures var history := HistoryData(profile, logs, now);
      && history[HistoryDays - 1].date == DayKey(now)
      && history[HistoryDays - 1].total == TodayTotal(logs, now)
      && forall i :: 0 < i < |history| ==> history[i].date == history[i - 1].date + 1
  {
  }

  /** Logs dated outside the window do not change the history. */
  lemma HistoryIgnoresOutside(profile: Option<UserProfile>, logs: seq<IntakeLog>, extra: seq<IntakeLog>, now: int)
    requires forall i :: 0 <= i < |extra| ==>
      !(DayKey(now) - (HistoryDays - 1) <= DayKey(extra[i].timestamp) <= DayKey(now))
    ensures HistoryData(profile, logs + extra, now) == HistoryData(profile, logs, now)
  {
    var with := HistoryData(profile, logs + extra, now);
    var without := HistoryData(profile, logs, now);
    forall i | 0 <= i < |with|
      ensures with[i] == without[i]
    {
      var day := with[i].date;
      SumOnAppend(logs, extra, day);
      SumOnUnloggedDay(extra, day);
    }
  }

  const MeetsGoal: DailySummary -> bool := (summary: DailySummary) => summary.total >= summary.goal

  /** The "Goals Met" figure: the number of history entries whose total
      reaches their goal. */
  function GoalsMet(history: seq<DailySummary>): (count: nat)
    ensures count <= |history|
    ensures count == |history| <==> forall i :: 0 <= i < |history| ==> history[i].total >= history[i].goal
    ensures count == 0 <==> forall i :: 0 <= i < |history| ==> history[i].total < history[i].goal
  {
    |Filter(history, MeetsGoal)|
  }

  /** Over the history window the count lies in 0..7; it is 7 exactly when
      each of the last seven days (today - (HistoryDays - 1) + i for i in 0..6) reaches the
      goal, 0 exactly when none does. */
  lemma GoalsMetOfWindow(profile: Option<UserProfile>, logs: seq<IntakeLog>, now: int)
    requires profile.Some?
    ensures GoalsMet(HistoryData(profile, logs, now)) <= HistoryDays
    ensures GoalsMet(HistoryData(profile, logs, now)) == HistoryDays <==>
      forall d :: d in LastSevenDays(DayKey(now)) ==> SumOn(logs, d) >= profile.value.dailyGoal
    ensures GoalsMet(HistoryData(profile, logs, now)) == 0 <==>
      forall d :: d in LastSevenDays(DayKey(now)) ==> SumOn(logs, d) < profile.value.dailyGoal
  {
    var history := HistoryData(profile, logs, now);
    var days := LastSevenDays(DayKey(now));
    CountOverDays(history, days, logs, profile.value.dailyGoal);
  }

  lemma CountOverDays(history: seq<DailySummary>, days: seq<int>, logs: seq<IntakeLog>, goal: int)
    requires |history| == |days|
    requires forall i :: 0 <= i < |history| ==>
      history[i].date == days[i] && history[i].total == SumOn(logs, days[i]) && history[i].goal == goal
    ensures GoalsMet(history) == |days| <==> forall d :: d in days ==> SumOn(logs, d) >= goal
    ensures GoalsMet(history) == 0 <==> forall d :: d in days ==> SumOn(logs, d) < goal
  {
    var allMet := forall i :: 0 <= i < |history| ==> history[i].total >= history[i].goal;
    var noneMet := forall i :: 0 <= i < |history| ==> history[i].total < history[i].goal;
    assert allMet <==> forall d :: d in days ==> SumOn(logs, d) >= goal by {
      if allMet {
        forall d | d in days
          ensures SumOn(logs, d) >= goal
        {
          var i :| 0 <= i < |days| && days[i] == d;
          assert history[i].total >= history[i].goal;
        }
      }
      forall i | 0 <= i < |history|
        ensures days[i] in days
      {
      }
    }
    assert noneMet <==> forall d :: d in days ==> SumOn(logs, d) < goal by {
      if noneMet {
        forall d | d in days
          ensures SumOn(logs, d) < goal
        {
          var i :| 0 <= i < |days| && days[i] == d;
          assert history[i].total < history[i].goal;
        }
      }
      forall i | 0 <= i < |history|
        ensures days[i] in days
      {
      }
    }
  }

  predicate StreakStarter(stats: StreakStats)
  {
    stats.currentStreak >= StreakStarterDays
  }

  predicate WaterLegend(stats: StreakStats)
  {
    stats.bestStreak >= WaterLegendDays
  }

  /** "Drink over 3.8L in one day", tested in millilitres. */
  predicate GallonChugger(todayTotal: int)
    ensures GallonChugger(todayTotal) <==> todayTotal as real / 1000.0 > 3.8
  {
    todayTotal > GallonMl
  }

  /** Streak Starter is earned exactly when the anchor day (today if
      today's goal is met, else yesterday) and the two days before it all
      reach the goal. */
  lemma StreakStarterMeansThreeDays(profile: Option<UserProfile>, logs: seq<IntakeLog>, now: int)
    requires profile.Some? && profile.value.dailyGoal > 0
    ensures var totals := DailyTotals(logs);
      var goal := profile.value.dailyGoal;
      StreakStarter(StreakStatsFor(profile, logs, now)) <==>
        MetRun(totals, goal, Anchor(totals, goal, DayKey(now)) - (StreakStarterDays - 1), StreakStarterDays)
  {
    var goal := profile.value.dailyGoal;
    var totals := DailyTotals(logs);
    var today := DayKey(now);
    assert StreakStatsFor(profile, logs, now).currentStreak == CurrentStreak(totals, goal, today);
    CurrentStreakAtLeast(totals, goal, today, StreakStarterDays);
  }

  /** Water Legend is earned exactly when some seven consecutive days between
      the earliest logged day and today all reach the goal. */
  lemma WaterLegendMeansSevenDays(profile: Option<UserProfile>, logs: seq<IntakeLog>, now: int)
    requires profile.Some? && logs != [] && profile.value.dailyGoal > 0
    ensures WaterLegend(StreakStatsFor(profile, logs, now)) <==>
      exists s :: EarliestDay(logs) <= s && s + WaterLegendDays <= DayKey(now) + 1
        && MetRun(DailyTotals(logs), profile.value.dailyGoal, s, WaterLegendDays)
  {
    var goal := profile.value.dailyGoal;
    var totals := DailyTotals(logs);
    var first := EarliestDay(logs);
    var today := DayKey(now);
    var best := BestStreak(totals, goal, first, today);
    assert StreakStatsFor(profile, logs, now).bestStreak == best;
    if best >= WaterLegendDays {
      var s :| first <= s && s + best <= today + 1 && MetRun(totals, goal, s, best);
      assert MetRun(totals, goal, s, WaterLegendDays);
    }
  }

  /** Gallon Chugger reads today's total, which is also the last entry of
      the history window. */
  lemma GallonChuggerMatchesHistory(profile: Option<UserProfile>, logs: seq<IntakeLog>, now: int)
    requires profile.Some?
    ensures GallonChugger(TodayTotal(logs, now)) <==> HistoryData(profile, logs, now)[HistoryDays - 1].total > GallonMl
  {
  }
}
