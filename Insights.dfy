/**
 * The insights store (src/store/insightsStore.ts). The workout list and
 * today's health snapshot, which the source reads from the other two
 * stores, are parameters here, and so are the clock and the fresh ids.
 */
module Insights {
  import opened Wrappers
  import opened WorkoutTypes
  import opened HealthTypes
  import opened InsightTypes
  import opened WorkoutHistory
  import opened Workouts
  import opened Recovery
  import opened InsightRules

  // ---------------------------------------------------------------------
  // Insights
  // ---------------------------------------------------------------------

  /**
   * The sleep rule's test: a snapshot whose sleep value is present,
   * non-zero and under seven hours. It then agrees with the hours the
   * recovery score uses.
   */
  predicate SleepIsLow(health: Option<HealthMetrics>): (b: bool)
    ensures health.None? || health.value.sleepHours.None? ==> !b
    ensures b ==> SleepOrDefault(health.value) == health.value.sleepHours.value < 7.0
    ensures health.Some? && health.value.sleepHours.Some? ==>
              (b <==> SleepOrDefault(health.value) == health.value.sleepHours.value < 7.0)
  {
    health.Some? && health.value.sleepHours.Some? &&
    health.value.sleepHours.value != 0.0 && health.value.sleepHours.value < 7.0
  }

  /** A count above 70% of the length, which over exact reals is ten times the count above seven times the length. */
  lemma SeventyPercent(c: nat, n: nat)
    ensures c as real > n as real * 0.7 <==> 10 * c > 7 * n
  {
  }

  /** Some type makes up more than 70% of the history. */
  predicate IsUnbalanced(ws: seq<Workout>): (b: bool)
    ensures b <==> exists t :: Count(ws, t) as real > |ws| as real * 0.7
    ensures b ==> ws != []
  {
    assert (exists t :: 10 * Count(ws, t) > 7 * |ws|) <==> exists t :: Count(ws, t) as real > |ws| as real * 0.7 by {
      if exists t :: 10 * Count(ws, t) > 7 * |ws| {
        var t :| 10 * Count(ws, t) > 7 * |ws|;
        SeventyPercent(Count(ws, t), |ws|);
        assert Count(ws, t) as real > |ws| as real * 0.7;
      }
      if exists t :: Count(ws, t) as real > |ws| as real * 0.7 {
        var t :| Count(ws, t) as real > |ws| as real * 0.7;
        SeventyPercent(Count(ws, t), |ws|);
        assert 10 * Count(ws, t) > 7 * |ws|;
      }
    }
    assert (exists t :: 10 * Count(ws, t) > 7 * |ws|) ==> ws != [] by {
      if exists t :: 10 * Count(ws, t) > 7 * |ws| {
        var t :| 10 * Count(ws, t) > 7 * |ws|;
      }
    }
    exists t :: 10 * Count(ws, t) > 7 * |ws|
  }

  /** The calendar days (`toDateString`, here `dayOf`) on which workouts were logged. */
  function DistinctDays(ws: seq<Workout>, dayOf: Millis -> int): (r: set<int>)
    ensures forall i :: 0 <= i < |ws| ==> dayOf(ws[i].date) in r
    ensures forall d :: d in r <==> exists i :: 0 <= i < |ws| && dayOf(ws[i].date) == d
  {
    set i | 0 <= i < |ws| :: dayOf(ws[i].date)
  }

  /** There are never more distinct days than workouts, so three distinct days already mean three workouts. */
  lemma {:induction false} DistinctDaysAtMostWorkouts(ws: seq<Workout>, dayOf: Millis -> int)
    ensures |DistinctDays(ws, dayOf)| <= |ws|
    ensures |DistinctDays(ws, dayOf)| >= 3 ==> |ws| >= 3
  {
    if ws != [] {
      var p := ws[..|ws| - 1];
      DistinctDaysAtMostWorkouts(p, dayOf);
      DistinctDaysSnoc(ws, dayOf);
    }
  }

  /** Dropping the last workout leaves the days of the others. */
  lemma DistinctDaysSnoc(ws: seq<Workout>, dayOf: Millis -> int)
    requires ws != []
    ensures DistinctDays(ws, dayOf) == DistinctDays(ws[..|ws| - 1], dayOf) + {dayOf(ws[|ws| - 1].date)}
  {
  }

  /** The type that makes up more than 70% of the history, if any. */
  function UnbalancedType(ws: seq<Workout>): (u: Option<WorkoutType>)
    ensures u.Some? <==> IsUnbalanced(ws)
    ensures u.Some? ==> u.value == MostFrequentType(ws)
  {
    assert IsUnbalanced(ws) ==> ws != [] by {
      if IsUnbalanced(ws) {
        var t :| 10 * Count(ws, t) > 7 * |ws|;
      }
    }
    match Dominant(ws)
    case None => None
    case Some((t, c)) => if 10 * c > 7 * |ws| then Some(t) else None
  }

  /** The hours the sleep rule reports, when it fires. */
  function LowSleepOf(health: Option<HealthMetrics>): (h: Option<real>)
    ensures h.Some? <==> SleepIsLow(health)
    ensures h.Some? ==> h.value == health.value.sleepHours.value && h.value != 0.0 && h.value < 7.0
  {
    if SleepIsLow(health) then Some(health.value.sleepHours.value) else None
  }

  /** At least three workouts, logged on at least three distinct days. */
  predicate IsConsistent(ws: seq<Workout>, dayOf: Millis -> int): (b: bool)
    ensures b <==> |DistinctDays(ws, dayOf)| >= 3
  {
    DistinctDaysAtMostWorkouts(ws, dayOf);
    |ws| >= 3 && |DistinctDays(ws, dayOf)| >= 3
  }

  /** Reads the observations the rules test. */
  function Observe(ws: seq<Workout>, health: Option<HealthMetrics>, now: Millis, dayOf: Millis -> int): (o: Observations)
    ensures o.weekly == |LastWeek(ws, now)|
    ensures o.lowSleep.Some? <==> SleepIsLow(health)
    ensures o.lowSleep.Some? ==> o.lowSleep.value == health.value.sleepHours.value
    ensures o.unbalanced.Some? <==> IsUnbalanced(ws)
    ensures o.unbalanced.Some? ==> o.unbalanced.value == MostFrequentType(ws)
    ensures o.consistent <==> |ws| >= 3 && |DistinctDays(ws, dayOf)| >= 3
  {
    Observations(|LastWeek(ws, now)|, LowSleepOf(health), UnbalancedType(ws), IsConsistent(ws, dayOf))
  }

  /** What `generateInsights` stores in `insights`, replacing the old list. */
  function GeneratedInsights(ws: seq<Workout>, health: Option<HealthMetrics>, now: Millis,
                             ids: seq<string>, dayOf: Millis -> int): (r: seq<Insight>)
    requires |ids| >= 4
    ensures |r| <= 4
    ensures InRuleOrder(Kinds(r))
    ensures Motivation in Kinds(r) <==> |LastWeek(ws, now)| == 0
    ensures Warning in Kinds(r) <==> |LastWeek(ws, now)| >= 5
    ensures !(Motivation in Kinds(r) && Warning in Kinds(r))
    ensures Sleep in Kinds(r) <==> SleepIsLow(health)
    ensures Balance in Kinds(r) <==> IsUnbalanced(ws)
    ensures Consistency in Kinds(r) <==> |ws| >= 3 && |DistinctDays(ws, dayOf)| >= 3
    ensures Recovery !in Kinds(r)
    ensures forall i :: 0 <= i < |r| ==> r[i].id == ids[i] && r[i].createdAt == now
  {
    var o := Observe(ws, health, now, dayOf);
    ObservedKinds(o, ids, now);
    Stamp(FiredRules(o), ids, now)
  }

  /** The warning reports the week's count, the sleep insight the hours, the balance insight the dominant type. */
  lemma InsightMessages(ws: seq<Workout>, health: Option<HealthMetrics>, now: Millis,
                        ids: seq<string>, dayOf: Millis -> int, i: nat)
    requires |ids| >= 4
    requires i < |GeneratedInsights(ws, health, now, ids, dayOf)|
    ensures var x := GeneratedInsights(ws, health, now, ids, dayOf)[i];
            && (x.insightType == Warning ==> x.message == WorkedOutTimes(|LastWeek(ws, now)|))
            && (x.insightType == Sleep ==> SleepIsLow(health) && x.message == SleptHours(health.value.sleepHours.value))
            && (x.insightType == Balance ==> x.message == MostlyOfType(MostFrequentType(ws)))
            && (x.actionable == Some(true) <==> x.insightType in {Motivation, Warning, Sleep})
            && (x.action.Some? <==> x.actionable == Some(true))
            && (x.priority == High <==> x.insightType in {Motivation, Sleep})
            && (x.priority == Medium <==> x.insightType == Warning)
            && (x.priority == Low <==> x.insightType in {Balance, Consistency})
            && x.expiresAt == None
            && (x.insightType == Motivation ==> x.action == Some(MotivationAction))
            && (x.insightType == Warning ==> x.action == Some(WarningAction))
            && (x.insightType == Sleep ==> x.action == Some(SleepAction))
  {
    StampedMessages(Observe(ws, health, now, dayOf), ids, now, i);
  }

  /** With no history and no snapshot, the only insight is the motivational one. */
  lemma EmptyStartGivesOnlyMotivation(now: Millis, ids: seq<string>, dayOf: Millis -> int)
    requires |ids| >= 4
    ensures Kinds(GeneratedInsights([], None, now, ids, dayOf)) == [Motivation]
  {
    assert Observe([], None, now, dayOf) == Observations(0, None, None, false);
  }

  /** Pushes a fired rule's insight; it takes the next fresh id. */
  method Push(newInsights: seq<Insight>, ghost fired: seq<Rule>, rule: Rule, ids: seq<string>, now: Millis)
    returns (r: seq<Insight>)
    requires |fired| < |ids| && newInsights == Stamp(fired, ids, now)
    ensures r == Stamp(fired + [rule], ids, now)
  {
    StampPush(fired, rule, ids, now);
    r := newInsights + [InsightFor(rule, ids[|newInsights|], now)];
  }

  /** First stage: nothing logged in the last seven days, or five workouts and more. */
  method LoadStage(ws: seq<Workout>, now: Millis, ids: seq<string>)
    returns (newInsights: seq<Insight>, ghost fired: seq<Rule>)
    requires |ids| >= 4
    ensures fired == LoadRule(|LastWeek(ws, now)|) && newInsights == Stamp(fired, ids, now)
  {
    newInsights, fired := [], [];
    var weekly := LastWeek(ws, now);
    if |weekly| == 0 {
      newInsights := Push(newInsights, fired, NoWorkoutsThisWeek, ids, now);
      fired := fired + [NoWorkoutsThisWeek];
    } else if |weekly| >= 5 {
      newInsights := Push(newInsights, fired, HighWeeklyLoad(|weekly|), ids, now);
      fired := fired + [HighWeeklyLoad(|weekly|)];
    }
  }

  /** Second stage: a sleep value that is present, non-zero and under seven hours. */
  method SleepStage(health: Option<HealthMetrics>, newInsights: seq<Insight>, ghost fired: seq<Rule>,
                    ids: seq<string>, now: Millis)
    returns (out: seq<Insight>, ghost fired': seq<Rule>)
    requires |fired| < |ids| && newInsights == Stamp(fired, ids, now)
    ensures fired' == fired + SleepRule(LowSleepOf(health)) && out == Stamp(fired', ids, now)
  {
    out, fired' := newInsights, fired;
    if health.Some? && health.value.sleepHours.Some? && health.value.sleepHours.value != 0.0
       && health.value.sleepHours.value < 7.0 {
      var rule := LowSleep(health.value.sleepHours.value);
      out := Push(out, fired', rule, ids, now);
      fired' := fired' + [rule];
    }
  }

  /** Third stage: the most frequent type's count above 70% of the history. */
  method BalanceStage(ws: seq<Workout>, newInsights: seq<Insight>, ghost fired: seq<Rule>,
                      ids: seq<string>, now: Millis)
    returns (out: seq<Insight>, ghost fired': seq<Rule>)
    requires |fired| < |ids| && newInsights == Stamp(fired, ids, now)
    ensures fired' == fired + BalanceRule(UnbalancedType(ws)) && out == Stamp(fired', ids, now)
  {
    out, fired' := newInsights, fired;
    var dominant := DominantType(ws);
    if dominant.Some? {
      SeventyPercent(dominant.value.1, |ws|);
    }
    if dominant.Some? && dominant.value.1 as real > |ws| as real * 0.7 {
      var rule := Unbalanced(dominant.value.0);
      out := Push(out, fired', rule, ids, now);
      fired' := fired' + [rule];
    }
  }

  /** Fourth stage: at least three workouts, on at least three distinct days. */
  method ConsistencyStage(ws: seq<Workout>, dayOf: Millis -> int, newInsights: seq<Insight>, ghost fired: seq<Rule>,
                          ids: seq<string>, now: Millis)
    returns (out: seq<Insight>, ghost fired': seq<Rule>)
    requires |fired| < |ids| && newInsights == Stamp(fired, ids, now)
    ensures fired' == fired + ConsistencyRule(IsConsistent(ws, dayOf)) && out == Stamp(fired', ids, now)
  {
    out, fired' := newInsights, fired;
    if |ws| >= 3 {
      var uniqueDates := DistinctDays(ws, dayOf);
      if |uniqueDates| >= 3 {
        out := Push(out, fired', Consistent, ids, now);
        fired' := fired' + [Consistent];
      }
    }
  }

  /** Generates the insights: the four stages in the source's order, each pushing at most one insight. */
  method BuildInsights(ws: seq<Workout>, health: Option<HealthMetrics>, now: Millis,
                       ids: seq<string>, dayOf: Millis -> int) returns (r: seq<Insight>)
    requires |ids| >= 4
    ensures r == GeneratedInsights(ws, health, now, ids, dayOf)
  {
    var newInsights, fired := LoadStage(ws, now, ids);
    newInsights, fired := SleepStage(health, newInsights, fired, ids, now);
    newInsights, fired := BalanceStage(ws, newInsights, fired, ids, now);
    newInsights, fired := ConsistencyStage(ws, dayOf, newInsights, fired, ids, now);
    assert fired == FiredRules(Observe(ws, health, now, dayOf));
    r := newInsights;
  }

  // ---------------------------------------------------------------------
  // Dismissal
  // ---------------------------------------------------------------------

  /** The held insights without those that have this id, in their order. */
  function WithoutInsight(s: seq<Insight>, id: string): (r: seq<Insight>)
    ensures |r| <= |s|
    ensures forall x :: x in r <==> x in s && x.id != id
  {
    if s == [] then []
    else (if s[0].id != id then [s[0]] else []) + WithoutInsight(s[1..], id)
  }

  /** Dismissal works piecewise, so the insights it keeps stay in their order. */
  lemma {:induction false} WithoutInsightAppend(a: seq<Insight>, b: seq<Insight>, id: string)
    ensures WithoutInsight(a + b, id) == WithoutInsight(a, id) + WithoutInsight(b, id)
  {
    if a != [] {
      assert (a + b)[1..] == a[1..] + b;
      WithoutInsightAppend(a[1..], b, id);
    } else {
      assert a + b == b;
    }
  }

  /** Dismissing an id that is not held changes nothing. */
  lemma {:induction false} DismissAbsentIsNoop(s: seq<Insight>, id: string)
    requires forall x :: x in s ==> x.id != id
    ensures WithoutInsight(s, id) == s
  {
    if s != [] {
      DismissAbsentIsNoop(s[1..], id);
      assert s == [s[0]] + s[1..];
    }
  }

  /** Dismissing twice is dismissing once. */
  lemma DismissIsIdempotent(s: seq<Insight>, id: string)
    ensures WithoutInsight(WithoutInsight(s, id), id) == WithoutInsight(s, id)
  {
    DismissAbsentIsNoop(WithoutInsight(s, id), id);
  }

  /** Every insight has its own id. */
  predicate InsightIdsUnique(s: seq<Insight>) {
    forall i, j :: 0 <= i < j < |s| ==> s[i].id != s[j].id
  }

  lemma TailInsightIdsUnique(s: seq<Insight>)
    requires InsightIdsUnique(s) && s != []
    ensures InsightIdsUnique(s[1..])
    ensures forall x :: x in s[1..] ==> x.id != s[0].id
  {
    var tail := s[1..];
    forall i, j | 0 <= i < j < |tail| ensures tail[i].id != tail[j].id {
      assert tail[i] == s[i + 1] && tail[j] == s[j + 1];
    }
    forall x | x in tail ensures x.id != s[0].id {
      var i :| 0 <= i < |tail| && tail[i] == x;
      assert s[1 + i] == x;
    }
  }

  /** If the ids are distinct, dismissing one insight's id cuts exactly that insight out of the list. */
  lemma {:induction false} DismissUniqueCutsOut(s: seq<Insight>, k: nat)
    requires InsightIdsUnique(s) && k < |s|
    ensures WithoutInsight(s, s[k].id) == s[..k] + s[k + 1..]
  {
    var id, tail := s[k].id, s[1..];
    TailInsightIdsUnique(s);
    if k == 0 {
      DismissAbsentIsNoop(tail, id);
    } else {
      assert tail[k - 1] == s[k];
      DismissUniqueCutsOut(tail, k - 1);
      assert WithoutInsight(s, id) == [s[0]] + WithoutInsight(tail, id);
      CutOutAfterHead(s, k);
    }
  }

  // ---------------------------------------------------------------------
  // The store
  // ---------------------------------------------------------------------

  class InsightsStore {
    var insights: seq<Insight>
    var recoveryScore: Option<RecoveryScore>
    var recommendation: Option<WorkoutRecommendation>

    constructor ()
      ensures insights == [] && recoveryScore == None && recommendation == None
    {
      insights, recoveryScore, recommendation := [], None, None;
    }

    /** Recomputes the insights and replaces the held list with them. */
    method GenerateInsights(workouts: seq<Workout>, healthMetrics: Option<HealthMetrics>, now: Millis,
                            ids: seq<string>, dayOf: Millis -> int)
      requires |ids| >= 4
      modifies this`insights
      ensures insights == GeneratedInsights(workouts, healthMetrics, now, ids, dayOf)
    {
      insights := BuildInsights(workouts, healthMetrics, now, ids, dayOf);
    }

    method CalculateRecoveryScore(workouts: seq<Workout>, healthMetrics: Option<HealthMetrics>, now: Millis)
      modifies this`recoveryScore
      ensures recoveryScore == RecoveryOf(workouts, healthMetrics, now)
    {
      recoveryScore := ScoreRecovery(workouts, healthMetrics, now);
    }

    method GetRecommendation()
      modifies this`recommendation
      ensures recommendation == RecommendationFor(recoveryScore)
    {
      if recoveryScore.None? {
        recommendation := None;
        return;
      }
      recommendation := Some(Recommend(recoveryScore.value.score));
    }

    method DismissInsight(id: string)
      modifies this`insights
      ensures insights == WithoutInsight(old(insights), id)
    {
      insights := WithoutInsight(insights, id);
    }
  }
}
