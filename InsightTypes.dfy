/** Insights, recovery scores and recommendations (src/types/insight.types.ts). */
module InsightTypes {
  import opened Wrappers
  import opened WorkoutTypes

  datatype InsightType = Recovery | Motivation | Balance | Sleep | Consistency | Warning

  datatype InsightPriority = Low | Medium | High

  /**
   * An insight's message. Fixed messages are kept as text; an interpolated
   * message is kept as its template together with the interpolated value
   * (the number formatting of the source is not modelled).
   */
  datatype Message =
    | Text(text: string)
    | WorkedOutTimes(count: nat)          // the number of workouts this week
    | SleptHours(hours: real)             // the hours slept, shown to one decimal
    | MostlyOfType(dominant: WorkoutType) // the type most workouts have

  datatype Insight = Insight(
    id: string,
    insightType: InsightType,
    priority: InsightPriority,
    title: string,
    message: Message,
    actionable: Option<bool>,
    action: Option<string>,
    createdAt: Millis,
    expiresAt: Option<Millis>)

  datatype Trend = Improving | Stable | Declining

  datatype Factors = Factors(
    sleep: real, workoutLoad: nat, restDays: real, heartRateVariability: Option<real>)

  datatype RecoveryScore = RecoveryScore(
    score: int, factors: Factors, trend: Trend, lastCalculated: Millis)

  datatype RecommendationType = Rest | Light | Moderate | Intense

  datatype WorkoutRecommendation = WorkoutRecommendation(
    recType: RecommendationType,
    message: string,
    suggestedActivities: Option<seq<string>>,
    reasoning: string)
}
