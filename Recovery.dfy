/**
 * The recovery half of the insights store (src/store/insightsStore.ts): a
 * recovery score from sleep, weekly load and rest days, and a training
 * recommendation from that score.
 */
module Recovery {
  import opened Wrappers
  import opened WorkoutTypes
  import opened HealthTypes
  import opened InsightTypes
  import opened WorkoutHistory
  import opened Workouts

  // ---------------------------------------------------------------------
  // Recovery score
  // ---------------------------------------------------------------------

  /** The hours of sleep the score uses: a missing or zero value counts as seven hours. */
  function SleepOrDefault(h: HealthMetrics): (r: real)
    ensures r != 0.0
    ensures h.sleepHours.Some? && h.sleepHours.value != 0.0 ==> r == h.sleepHours.value
    ensures h.sleepHours.None? || h.sleepHours.value == 0.0 ==> r == 7.0
  {
    if h.sleepHours.None? || h.sleepHours.value == 0.0 then 7.0 else h.sleepHours.value
  }

  /** The sleep adjustment: +15 from eight hours, -20 under six, none in between. */
  function SleepAdjustment(hours: real): (r: int)
    ensures r == 15 <==> hours >= 8.0
    ensures r == -20 <==> hours < 6.0
    ensures r == 0 <==> 6.0 <= hours < 8.0
  {
    if hours >= 8.0 then 15 else if hours < 6.0 then -20 else 0
  }

  /** The load adjustment: +15 for an empty week, -15 from six workouts, none in between. */
  function LoadAdjustment(weekly: nat): (r: int)
    ensures r == 15 <==> weekly == 0
    ensures r == -15 <==> weekly >= 6
    ensures r == 0 <==> 1 <= weekly < 6
  {
    if weekly == 0 then 15 else if weekly >= 6 then -15 else 0
  }

  /** The rest adjustment, measured from the head of the list; none for an empty history. */
  function RestAdjustment(ws: seq<Workout>, now: Millis): (r: int)
    ensures ws == [] ==> r == 0
    ensures ws != [] ==> (r == 10 <==> DaysSince(ws[0].date, now) >= 2.0)
    ensures ws != [] ==> (r == -5 <==> DaysSince(ws[0].date, now) < 1.0)
    ensures ws != [] ==> (r == 0 <==> 1.0 <= DaysSince(ws[0].date, now) < 2.0)
  {
    if ws == [] then 0
    else
      var days := DaysSince(ws[0].date, now);
      if days >= 2.0 then 10 else if days < 1.0 then -5 else 0
  }

  /** The score before clamping: the base of 70 plus the three adjustments. */
  function RawScore(ws: seq<Workout>, h: HealthMetrics, now: Millis): (r: int)
    ensures 30 <= r <= 110
    ensures ws == [] ==> r >= 65
  {
    70 + SleepAdjustment(SleepOrDefault(h)) + LoadAdjustment(|LastWeek(ws, now)|) + RestAdjustment(ws, now)
  }

  /** The score held to the range 0 to 100. */
  function Clamp(x: int): (r: int)
    ensures 0 <= r <= 100
    ensures 0 <= x <= 100 ==> r == x
    ensures x > 100 ==> r == 100
    ensures x < 0 ==> r == 0
  {
    if x > 100 then 100 else if x < 0 then 0 else x
  }

  function TrendOf(score: int): (t: Trend)
    ensures t == Stable <==> score >= 70
    ensures t == Declining <==> 50 <= score < 70
    ensures t == Improving <==> score < 50
  {
    if score >= 70 then Stable else if score >= 50 then Declining else Improving
  }

  /** What `calculateRecoveryScore` stores in `recoveryScore`. */
  function RecoveryOf(ws: seq<Workout>, health: Option<HealthMetrics>, now: Millis): (r: Option<RecoveryScore>)
    ensures r.None? <==> health.None?
    ensures r.Some? ==> 30 <= r.value.score <= 100
    ensures r.Some? ==> r.value.factors.sleep == SleepOrDefault(health.value)
    ensures r.Some? ==> r.value.factors.workoutLoad == |LastWeek(ws, now)|
    ensures r.Some? && ws == [] ==> r.value.factors.restDays == 7.0
    ensures r.Some? && ws != [] ==> r.value.factors.restDays == DaysSince(ws[0].date, now)
    ensures r.Some? ==> r.value.lastCalculated == now && r.value.factors.heartRateVariability == None
  {
    match health
    case None => None
    case Some(h) =>
      var score := Clamp(RawScore(ws, h, now));
      var restDays := if ws == [] then 7.0 else DaysSince(ws[0].date, now);
      Some(RecoveryScore(score, Factors(SleepOrDefault(h), |LastWeek(ws, now)|, restDays, None), TrendOf(score), now))
  }

  /** The stored score is the clamped sum of the base and the three adjustments, and its trend follows the bands. */
  lemma RecoveryScoreIsClampedSum(ws: seq<Workout>, h: HealthMetrics, now: Millis)
    ensures var r := RecoveryOf(ws, Some(h), now).value;
            && r.score == Clamp(RawScore(ws, h, now))
            && 30 <= RawScore(ws, h, now) <= 110
            && (r.trend == Stable <==> r.score >= 70)
            && (r.trend == Declining <==> 50 <= r.score < 70)
            && (r.trend == Improving <==> r.score < 50)
  {
  }

  /** An empty history after at least eight hours of sleep scores exactly 100. */
  lemma RestedEmptyHistoryScoresFull(h: HealthMetrics, now: Millis)
    requires h.sleepHours.Some? && h.sleepHours.value >= 8.0
    ensures RecoveryOf([], Some(h), now).value.score == 100
    ensures RecoveryOf([], Some(h), now).value.trend == Stable
  {
  }

  /** More sleep never lowers the score, all else equal. */
  lemma ScoreMonotoneInSleep(ws: seq<Workout>, h1: HealthMetrics, h2: HealthMetrics, now: Millis)
    requires SleepOrDefault(h1) <= SleepOrDefault(h2)
    ensures RecoveryOf(ws, Some(h1), now).value.score <= RecoveryOf(ws, Some(h2), now).value.score
  {
  }

  /** In a list kept newest first (as `addWorkout` leaves it) the head is the most recent workout, so the rest factor counts from it. */
  lemma RestMeasuredFromNewest(ws: seq<Workout>, now: Millis)
    requires ws != [] && SortedByDateDesc(ws)
    ensures forall v :: v in ws ==> DaysSince(ws[0].date, now) <= DaysSince(v.date, now)
  {
    forall v | v in ws ensures DaysSince(ws[0].date, now) <= DaysSince(v.date, now) {
      var i :| 0 <= i < |ws| && ws[i] == v;
      assert ws[0].date >= v.date;
      assert now - ws[0].date <= now - v.date;
    }
  }

  /** `calculateRecoveryScore`, step by step on a running score as in the source. */
  method ScoreRecovery(ws: seq<Workout>, health: Option<HealthMetrics>, now: Millis) returns (r: Option<RecoveryScore>)
    ensures r == RecoveryOf(ws, health, now)
  {
    if health.None? {
      return None;
    }
    var h := health.value;
    var score := 70;
    var sleepHours := if h.sleepHours.Some? && h.sleepHours.value != 0.0 then h.sleepHours.value else 7.0;
    if sleepHours >= 8.0 {
      score := score + 15;
    } else if sleepHours < 6.0 {
      score := score - 20;
    }
    var weekly := LastWeek(ws, now);
    if |weekly| == 0 {
      score := score + 15;
    } else if |weekly| >= 6 {
      score := score - 15;
    }
    var restDays := 7.0;
    if ws != [] {
      var daysSinceLastWorkout := (now - ws[0].date) as real / (1000 * 60 * 60 * 24) as real;
      if daysSinceLastWorkout >= 2.0 {
        score := score + 10;
      } else if daysSinceLastWorkout < 1.0 {
        score := score - 5;
      }
      restDays := daysSinceLastWorkout;
    }
    score := if 100 < score then 100 else score;
    score := if score < 0 then 0 else score;
    var trend := if score >= 70 then Stable else if score >= 50 then Declining else Improving;
    r := Some(RecoveryScore(score, Factors(sleepHours, |weekly|, restDays, None), trend, now));
  }

  // ---------------------------------------------------------------------
  // Recommendation
  // ---------------------------------------------------------------------

  // The texts are named constants, so that a proof unfolds a name rather than a literal.
  const RestActivities: seq<string> := ["Light stretching", "Walking", "Meditation"]
  const LightActivities: seq<string> := ["Yoga", "Swimming", "Light cardio"]
  const ModerateActivities: seq<string> := ["Strength training", "Moderate cardio", "Sports"]
  const IntenseActivities: seq<string> := ["Heavy lifting", "HIIT", "Max effort training"]

  const RestMessage: string := "Your body needs recovery"
  const RestReasoning: string := "Low recovery score indicates you need rest to prevent overtraining."
  const LightMessage: string := "Go for a light workout"
  const LightReasoning: string := "Moderate recovery score suggests light activity is best today."
  const ModerateMessage: string := "Good for moderate intensity"
  const ModerateReasoning: string := "Good recovery score allows for moderate intensity workouts."
  const IntenseMessage: string := "Great day for pushing limits!"
  const IntenseReasoning: string := "Excellent recovery score - your body is ready for intense work."

  function ActivitiesFor(t: RecommendationType): seq<string> {
    match t
    case Rest => RestActivities
    case Light => LightActivities
    case Moderate => ModerateActivities
    case Intense => IntenseActivities
  }

  /** The recommendation for a score: four half-open bands. */
  function Recommend(score: int): (r: WorkoutRecommendation)
    ensures r.recType == Rest <==> score < 40
    ensures r.recType == Light <==> 40 <= score < 60
    ensures r.recType == Moderate <==> 60 <= score < 80
    ensures r.recType == Intense <==> score >= 80
    ensures r.suggestedActivities == Some(ActivitiesFor(r.recType))
  {
    if score < 40 then
      WorkoutRecommendation(Rest, RestMessage, Some(ActivitiesFor(Rest)),
        RestReasoning)
    else if score < 60 then
      WorkoutRecommendation(Light, LightMessage, Some(ActivitiesFor(Light)),
        LightReasoning)
    else if score < 80 then
      WorkoutRecommendation(Moderate, ModerateMessage, Some(ActivitiesFor(Moderate)),
        ModerateReasoning)
    else
      WorkoutRecommendation(Intense, IntenseMessage, Some(ActivitiesFor(Intense)),
        IntenseReasoning)
  }

  /** What `getRecommendation` stores: nothing without a score. */
  function RecommendationFor(rs: Option<RecoveryScore>): (r: Option<WorkoutRecommendation>)
    ensures r.None? <==> rs.None?
    ensures r.Some? ==> r.value == Recommend(rs.value.score)
  {
    match rs
    case None => None
    case Some(s) => Some(Recommend(s.score))
  }

  function Intensity(t: RecommendationType): nat {
    match t
    case Rest => 0
    case Light => 1
    case Moderate => 2
    case Intense => 3
  }

  /** A higher score never yields a less intense recommendation. */
  lemma RecommendMonotone(s1: int, s2: int)
    requires s1 <= s2
    ensures Intensity(Recommend(s1).recType) <= Intensity(Recommend(s2).recType)
  {
  }

  /** Score, then recommend: no snapshot gives no recommendation; a rested, empty week gives the intense one. */
  lemma RecommendAfterScore(ws: seq<Workout>, health: Option<HealthMetrics>, now: Millis)
    ensures health.None? ==> RecommendationFor(RecoveryOf(ws, health, now)) == None
    ensures ws == [] && health.Some? && health.value.sleepHours.Some? && health.value.sleepHours.value >= 8.0 ==>
              RecommendationFor(RecoveryOf(ws, health, now)).value.recType == Intense
  {
  }
}
