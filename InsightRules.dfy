/**
 * The five insight rules of `generateInsights` (src/store/insightsStore.ts),
 * stated over what they look at rather than over the workout history: the
 * insight each rule pushes, the order in which they are pushed, and the ids
 * the pushed insights take.
 */
module InsightRules {
  import opened Wrappers
  import opened WorkoutTypes
  import opened InsightTypes

  // ---------------------------------------------------------------------
  // Rules and the insights they push
  // ---------------------------------------------------------------------

  /** The five rules of `generateInsights`, with the value each one reports. */
  datatype Rule =
    | NoWorkoutsThisWeek
    | HighWeeklyLoad(count: nat)
    | LowSleep(hours: real)
    | Unbalanced(dominant: WorkoutType)
    | Consistent

  const MotivationTitle: string := "Get Moving!"
  const MotivationText: string := "You haven't logged a workout this week. Let's get started!"
  const MotivationAction: string := "Log your first workout"
  const WarningTitle: string := "Consider a Rest Day"
  const WarningAction: string := "Take a rest day"
  const SleepTitle: string := "Improve Sleep"
  const SleepAction: string := "Set earlier bedtime"
  const BalanceTitle: string := "Diversify Your Workouts"
  const ConsistencyTitle: string := "Great Consistency!"
  const ConsistencyText: string := "You're building a solid workout habit. Keep it up!"

  /** The insight a fired rule pushes. */
  function InsightFor(rule: Rule, id: string, now: Millis): (x: Insight)
    ensures x.id == id && x.insightType == KindOf(rule) && x.createdAt == now && x.expiresAt == None
    ensures x.actionable == Some(KindOf(rule) in {Motivation, Warning, Sleep})
    ensures x.action.Some? <==> x.actionable == Some(true)
    ensures x.priority == High <==> KindOf(rule) in {Motivation, Sleep}
    ensures x.priority == Medium <==> KindOf(rule) == Warning
    ensures x.priority == Low <==> KindOf(rule) in {Balance, Consistency}
    ensures KindOf(rule) == Motivation ==> x.action == Some(MotivationAction)
    ensures KindOf(rule) == Warning ==> x.action == Some(WarningAction)
    ensures KindOf(rule) == Sleep ==> x.action == Some(SleepAction)
  {
    match rule
    case NoWorkoutsThisWeek =>
      Insight(id, Motivation, High, MotivationTitle,
        Text(MotivationText),
        Some(true), Some(MotivationAction), now, None)
    case HighWeeklyLoad(n) =>
      Insight(id, Warning, Medium, WarningTitle, WorkedOutTimes(n),
        Some(true), Some(WarningAction), now, None)
    case LowSleep(h) =>
      Insight(id, Sleep, High, SleepTitle, SleptHours(h),
        Some(true), Some(SleepAction), now, None)
    case Unbalanced(t) =>
      Insight(id, Balance, Low, BalanceTitle, MostlyOfType(t),
        Some(false), None, now, None)
    case Consistent =>
      Insight(id, Consistency, Low, ConsistencyTitle,
        Text(ConsistencyText),
        Some(false), None, now, None)
  }


  /** What the rules look at, read off the history and the snapshot once. */
  datatype Observations = Observations(
    weekly: nat,                      // workouts in the last seven days
    lowSleep: Option<real>,           // the sleep hours, when the sleep rule fires
    unbalanced: Option<WorkoutType>,  // the dominant type, when the balance rule fires
    consistent: bool)                 // at least three workouts on at least three days


  /** The load rule: the motivation for an empty week, the warning with the count from five workouts on. */
  function LoadRule(weekly: nat): (r: seq<Rule>)
    ensures |r| <= 1
    ensures r == [NoWorkoutsThisWeek] <==> weekly == 0
    ensures r == [HighWeeklyLoad(weekly)] <==> weekly >= 5
  {
    if weekly == 0 then [NoWorkoutsThisWeek] else if weekly >= 5 then [HighWeeklyLoad(weekly)] else []
  }

  /** The sleep rule fires with the hours exactly when sleep is low. */
  function SleepRule(lowSleep: Option<real>): (r: seq<Rule>)
    ensures |r| <= 1
    ensures r != [] <==> lowSleep.Some?
    ensures lowSleep.Some? ==> r == [LowSleep(lowSleep.value)]
  {
    if lowSleep.Some? then [LowSleep(lowSleep.value)] else []
  }

  /** The balance rule fires with the dominant type exactly when the history is unbalanced. */
  function BalanceRule(unbalanced: Option<WorkoutType>): (r: seq<Rule>)
    ensures |r| <= 1
    ensures r != [] <==> unbalanced.Some?
    ensures unbalanced.Some? ==> r == [Unbalanced(unbalanced.value)]
  {
    if unbalanced.Some? then [Unbalanced(unbalanced.value)] else []
  }

  /** The consistency rule fires exactly for a consistent history. */
  function ConsistencyRule(consistent: bool): (r: seq<Rule>)
    ensures |r| <= 1
    ensures r != [] <==> consistent
    ensures forall x :: x in r ==> x == Consistent
  {
    if consistent then [Consistent] else []
  }

  /** The rules that fire, in the order the source evaluates them. */
  function FiredRules(o: Observations): (r: seq<Rule>)
    ensures |r| <= 4
    ensures NoWorkoutsThisWeek in r <==> o.weekly == 0
    ensures Consistent in r <==> o.consistent
  {
    LoadRule(o.weekly) + SleepRule(o.lowSleep) + BalanceRule(o.unbalanced) + ConsistencyRule(o.consistent)
  }

  /** The k-th pushed insight takes the k-th fresh id. */
  function Stamp(rules: seq<Rule>, ids: seq<string>, now: Millis): (r: seq<Insight>)
    requires |ids| >= |rules|
    ensures |r| == |rules|
    ensures forall i :: 0 <= i < |r| ==> r[i].id == ids[i] && r[i].insightType == KindOf(rules[i]) && r[i].createdAt == now
  {
    seq(|rules|, i requires 0 <= i < |rules| => InsightFor(rules[i], ids[i], now))
  }

  /** The kinds of a list of insights, in order. */
  function Kinds(r: seq<Insight>): seq<InsightType> {
    seq(|r|, i requires 0 <= i < |r| => r[i].insightType)
  }

  function KindOf(rule: Rule): InsightType {
    match rule
    case NoWorkoutsThisWeek => Motivation
    case HighWeeklyLoad(_) => Warning
    case LowSleep(_) => Sleep
    case Unbalanced(_) => Balance
    case Consistent => Consistency
  }

  /** Display order of the rules. */
  function Rank(k: InsightType): nat {
    match k
    case Motivation => 0
    case Warning => 1
    case Sleep => 2
    case Balance => 3
    case Consistency => 4
    case Recovery => 5
  }

  predicate InRuleOrder(ks: seq<InsightType>) {
    forall i, j :: 0 <= i < j < |ks| ==> Rank(ks[i]) < Rank(ks[j])
  }

  lemma InRuleOrderAppend(a: seq<InsightType>, b: seq<InsightType>, m: nat)
    requires InRuleOrder(a) && InRuleOrder(b)
    requires forall x :: x in a ==> Rank(x) < m
    requires forall y :: y in b ==> Rank(y) >= m
    ensures InRuleOrder(a + b)
  {
    var c := a + b;
    forall i, j | 0 <= i < j < |c| ensures Rank(c[i]) < Rank(c[j]) {
      if j < |a| {
        assert c[i] == a[i] && c[j] == a[j];
      } else if i >= |a| {
        assert c[i] == b[i - |a|] && c[j] == b[j - |a|];
      } else {
        assert c[i] == a[i] && c[j] == b[j - |a|];
        assert c[i] in a && c[j] in b;
      }
    }
  }

  /** Four stages of at most one kind each, with increasing ranks, concatenate in rule order. */
  lemma FourStagesInOrder(a: seq<InsightType>, b: seq<InsightType>, c: seq<InsightType>, d: seq<InsightType>)
    requires |a| <= 1 && |b| <= 1 && |c| <= 1 && |d| <= 1
    requires forall x :: x in a ==> Rank(x) <= 1
    requires forall x :: x in b ==> Rank(x) == 2
    requires forall x :: x in c ==> Rank(x) == 3
    requires forall x :: x in d ==> Rank(x) == 4
    ensures |a + b + c + d| <= 4
    ensures InRuleOrder(a + b + c + d)
  {
    InRuleOrderAppend(a, b, 2);
    InRuleOrderAppend(a + b, c, 3);
    InRuleOrderAppend(a + b + c, d, 4);
  }

  function RuleKinds(rules: seq<Rule>): seq<InsightType> {
    seq(|rules|, i requires 0 <= i < |rules| => KindOf(rules[i]))
  }

  lemma RuleKindsAppend(a: seq<Rule>, b: seq<Rule>)
    ensures RuleKinds(a + b) == RuleKinds(a) + RuleKinds(b)
  {
    assert forall i :: 0 <= i < |a + b| ==> RuleKinds(a + b)[i] == (RuleKinds(a) + RuleKinds(b))[i];
  }

  lemma StampKinds(rules: seq<Rule>, ids: seq<string>, now: Millis)
    requires |ids| >= |rules|
    ensures Kinds(Stamp(rules, ids, now)) == RuleKinds(rules)
  {
    assert forall i :: 0 <= i < |rules| ==> Kinds(Stamp(rules, ids, now))[i] == RuleKinds(rules)[i];
  }

  /** One stage's contribution to the kinds: `k` when the stage fires. */
  function Opt(fires: bool, k: InsightType): (r: seq<InsightType>)
    ensures |r| <= 1 && InRuleOrder(r)
    ensures forall x :: x in r <==> fires && x == k
  {
    if fires then [k] else []
  }

  /** The load stage's kind: motivation for an empty week, a warning from five workouts on. */
  function LoadKinds(weekly: nat): (r: seq<InsightType>)
    ensures |r| <= 1 && forall x :: x in r ==> Rank(x) <= 1
    ensures forall x :: x in r <==> (weekly == 0 && x == Motivation) || (weekly >= 5 && x == Warning)
  {
    if weekly == 0 then [Motivation] else if weekly >= 5 then [Warning] else []
  }

  /** The kinds the four stages show, given what fires. */
  function StageKinds(weekly: nat, sleep: bool, balance: bool, consistency: bool): seq<InsightType> {
    LoadKinds(weekly) + Opt(sleep, Sleep) + Opt(balance, Balance) + Opt(consistency, Consistency)
  }

  /** At most four kinds, in rule order. */
  lemma StageKindsInOrder(weekly: nat, sleep: bool, balance: bool, consistency: bool)
    ensures var ks := StageKinds(weekly, sleep, balance, consistency);
            |ks| <= 4 && InRuleOrder(ks)
  {
    FourStagesInOrder(LoadKinds(weekly), Opt(sleep, Sleep), Opt(balance, Balance), Opt(consistency, Consistency));
  }

  /** Each kind shows exactly when its stage fires; motivation and warning exclude each other. */
  lemma StageKindsMembers(weekly: nat, sleep: bool, balance: bool, consistency: bool)
    ensures var ks := StageKinds(weekly, sleep, balance, consistency);
            && (Motivation in ks <==> weekly == 0)
            && (Warning in ks <==> weekly >= 5)
            && (Sleep in ks <==> sleep)
            && (Balance in ks <==> balance)
            && (Consistency in ks <==> consistency)
            && Recovery !in ks
  {
    var a, b, c, d := LoadKinds(weekly), Opt(sleep, Sleep), Opt(balance, Balance), Opt(consistency, Consistency);
    var ks := a + b + c + d;
    assert forall x :: x in ks <==> x in a || x in b || x in c || x in d;
    assert Motivation in ks <==> weekly == 0 by {
      assert Motivation !in b && Motivation !in c && Motivation !in d;
    }
    assert Warning in ks <==> weekly >= 5 by {
      assert Warning !in b && Warning !in c && Warning !in d;
    }
    assert Sleep in ks <==> sleep by {
      assert Sleep !in a && Sleep !in c && Sleep !in d;
    }
    assert Balance in ks <==> balance by {
      assert Balance !in a && Balance !in b && Balance !in d;
    }
    assert Consistency in ks <==> consistency by {
      assert Consistency !in a && Consistency !in b && Consistency !in c;
    }
    assert Recovery !in a && Recovery !in b && Recovery !in c && Recovery !in d;
  }

  /** The kinds of the fired rules, stage by stage. */
  lemma FiredKinds(o: Observations)
    ensures |FiredRules(o)| <= 4
    ensures RuleKinds(FiredRules(o)) == StageKinds(o.weekly, o.lowSleep.Some?, o.unbalanced.Some?, o.consistent)
  {
    var l, s, b, c := LoadRule(o.weekly), SleepRule(o.lowSleep), BalanceRule(o.unbalanced), ConsistencyRule(o.consistent);
    RuleKindsAppend(l, s);
    RuleKindsAppend(l + s, b);
    RuleKindsAppend(l + s + b, c);
    assert RuleKinds(l) == LoadKinds(o.weekly);
    assert RuleKinds(s) == Opt(o.lowSleep.Some?, Sleep);
    assert RuleKinds(b) == Opt(o.unbalanced.Some?, Balance);
    assert RuleKinds(c) == Opt(o.consistent, Consistency);
  }

  /** The stamped kinds: at most four, in rule order, each exactly when its stage fires. */
  lemma ObservedKinds(o: Observations, ids: seq<string>, now: Millis)
    requires |ids| >= 4
    ensures var r := Stamp(FiredRules(o), ids, now);
            var ks := Kinds(r);
            && |r| <= 4 && InRuleOrder(ks)
            && (Motivation in ks <==> o.weekly == 0)
            && (Warning in ks <==> o.weekly >= 5)
            && (Sleep in ks <==> o.lowSleep.Some?)
            && (Balance in ks <==> o.unbalanced.Some?)
            && (Consistency in ks <==> o.consistent)
            && Recovery !in ks
  {
    FiredKinds(o);
    StampKinds(FiredRules(o), ids, now);
    StageKindsInOrder(o.weekly, o.lowSleep.Some?, o.unbalanced.Some?, o.consistent);
    StageKindsMembers(o.weekly, o.lowSleep.Some?, o.unbalanced.Some?, o.consistent);
  }

  /** Each stamped insight's message carries the value its rule reports. */
  lemma StampedMessages(o: Observations, ids: seq<string>, now: Millis, i: nat)
    requires |ids| >= 4
    requires i < |FiredRules(o)|
    ensures var x := Stamp(FiredRules(o), ids, now)[i];
            && (x.insightType == Warning ==> x.message == WorkedOutTimes(o.weekly))
            && (x.insightType == Sleep ==> o.lowSleep.Some? && x.message == SleptHours(o.lowSleep.value))
            && (x.insightType == Balance ==> o.unbalanced.Some? && x.message == MostlyOfType(o.unbalanced.value))
            && (x.actionable == Some(true) <==> x.insightType in {Motivation, Warning, Sleep})
            && (x.action.Some? <==> x.actionable == Some(true))
            && (x.priority == High <==> x.insightType in {Motivation, Sleep})
            && (x.priority == Medium <==> x.insightType == Warning)
            && (x.priority == Low <==> x.insightType in {Balance, Consistency})
            && x.expiresAt == None
            && (x.insightType == Motivation ==> x.action == Some(MotivationAction))
            && (x.insightType == Warning ==> x.action == Some(WarningAction))
            && (x.insightType == Sleep ==> x.action == Some(SleepAction))
  {
    var l, s, b, c := LoadRule(o.weekly), SleepRule(o.lowSleep), BalanceRule(o.unbalanced), ConsistencyRule(o.consistent);
    var rule := FiredRules(o)[i];
    assert rule in l || rule in s || rule in b || rule in c by {
      assert rule in l + s + b + c;
    }
  }

  lemma StampPush(rules: seq<Rule>, x: Rule, ids: seq<string>, now: Millis)
    requires |ids| > |rules|
    ensures Stamp(rules + [x], ids, now) == Stamp(rules, ids, now) + [InsightFor(x, ids[|rules|], now)]
  {
  }
}
