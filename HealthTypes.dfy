/** Today's health snapshot (src/types/health.types.ts), read by the insights store. */
module HealthTypes {
  import opened Wrappers

  datatype HealthMetrics = HealthMetrics(
    steps: int,
    activeEnergy: real,             // kcal
    heartRate: Option<real>,        // bpm
    restingHeartRate: Option<real>, // bpm
    sleepHours: Option<real>,
    date: int)                      // milliseconds since the epoch
}
