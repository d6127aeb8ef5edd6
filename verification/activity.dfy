/** The calorie estimate of the overview callback (MET table, elevation and
    speed adjustments, missing-profile message) and the activity guessed
    from the average speed. */
module Activity {
  import opened Outcomes
  import opened Floats
  import opened Overview

  /** The stored user settings and the selected activity; every field may be
      unset. */
  datatype Profile = Profile(
    activity: Option<string>,
    weight: Option<real>,
    height: Option<real>,
    age: Option<int>,
    sex: Option<string>)

  /** Python truthiness of the settings: unset, empty and zero are false. */
  predicate TextGiven(o: Option<string>) { o.Some? && o.value != "" }
  predicate RealGiven(o: Option<real>) { o.Some? && o.value != 0.0 }
  predicate IntGiven(o: Option<int>) { o.Some? && o.value != 0 }

  /** All five settings pass the `not ...` guard. */
  predicate Complete(p: Profile): (ok: bool)
    ensures ok ==> p.activity.Some? && p.weight.Some? && p.height.Some? && p.age.Some? && p.sex.Some?
    ensures p.activity == Some("") || p.sex == Some("") ==> !ok
    ensures p.weight == Some(0.0) || p.height == Some(0.0) || p.age == Some(0) ==> !ok
  {
    TextGiven(p.activity) && RealGiven(p.weight) && RealGiven(p.height) && IntGiven(p.age) && TextGiven(p.sex)
  }

  /** Settings entered as a non-empty activity and sex and non-zero weight,
      height and age pass the guard, so the number branch is reachable. */
  lemma EnteredSettingsComplete(activity: string, weight: real, height: real, age: int, sex: string)
    requires activity != "" && sex != "" && weight != 0.0 && height != 0.0 && age != 0
    ensures Complete(Profile(Some(activity), Some(weight), Some(height), Some(age), Some(sex)))
  {
  }

  /** The text shown instead of a number, spelled as in the application. */
  const MissingProfileMessage: string :=
    "Please select an activity and enter your personal information in setttings menu."

  /** Base MET values by activity. */
  const MetTable: map<string, real> := map["Running" := 9.8, "Cycling" := 7.5, "Walking" := 3.8]

  /** `met_values.get(activity, 1)`. */
  function BaseMet(activity: string): (met: real)
    ensures activity in MetTable ==> met == MetTable[activity]
    ensures activity !in MetTable ==> met == 1.0
    ensures met >= 1.0
  {
    if activity in MetTable then MetTable[activity] else 1.0
  }

  /** The MET after the adjustments: one more for an elevation gain over
      500 m, one more for an average speed over 20 km/h (a NaN speed
      compares false and adds nothing). */
  function AdjustedMet(activity: string, elevationGain: real, averageSpeed: Num): (met: real)
    ensures BaseMet(activity) <= met <= BaseMet(activity) + 2.0
    ensures met - BaseMet(activity)
            == (if elevationGain > 500.0 then 1.0 else 0.0) + (if Greater(averageSpeed, Finite(20.0)) then 1.0 else 0.0)
  {
    var base := BaseMet(activity);
    var climbing := if elevationGain > 500.0 then base + 1.0 else base;
    if Greater(averageSpeed, Finite(20.0)) then climbing + 1.0 else climbing
  }

  /** The calorie card: the message, or kilocalories. */
  datatype Estimate = Prompt(message: string) | Kcal(value: real)

  /** `met_value * weight * (total_time / 3600)` once the profile guard
      passes. */
  function EstimateEnergy(p: Profile, m: Metrics): (e: Estimate)
    ensures e.Prompt? <==> !Complete(p)
    ensures e.Prompt? ==> e.message == MissingProfileMessage
    ensures e.Kcal? ==>
              e.value * 3600.0
              == AdjustedMet(p.activity.value, m.topElevation - m.lowestElevation, m.averageSpeed)
                 * p.weight.value * m.totalTimeSeconds
  {
    if !Complete(p) then Prompt(MissingProfileMessage)
    else
      var met := AdjustedMet(p.activity.value, m.topElevation - m.lowestElevation, m.averageSpeed);
      Kcal(met * p.weight.value * (m.totalTimeSeconds / 3600.0))
  }

  /** A product of positive factors grows strictly with one factor. */
  lemma ProductIncreasing(met: real, a: real, b: real, t: real)
    requires met > 0.0 && t > 0.0 && a < b
    ensures met * a * t < met * b * t
  {
    var c := met * t;
    assert c > 0.0;
    assert c * a < c * b;
    assert met * a * t == c * a && met * b * t == c * b;
  }

  /** With positive time, the estimate grows strictly with the weight. */
  lemma EnergyIncreasingInWeight(p: Profile, m: Metrics, lighter: real, heavier: real)
    requires Complete(p)
    requires 0.0 < lighter < heavier
    requires m.totalTimeSeconds > 0.0
    ensures var e1 := EstimateEnergy(p.(weight := Some(lighter)), m);
            var e2 := EstimateEnergy(p.(weight := Some(heavier)), m);
            e1.Kcal? && e2.Kcal? && e1.value < e2.value
  {
    var met := AdjustedMet(p.activity.value, m.topElevation - m.lowestElevation, m.averageSpeed);
    ProductIncreasing(met, lighter, heavier, m.totalTimeSeconds / 3600.0);
  }

  /** With a positive weight, the estimate grows strictly with the time. */
  lemma EnergyIncreasingInTime(p: Profile, m: Metrics, shorter: real, longer: real)
    requires Complete(p)
    requires p.weight.value > 0.0
    requires shorter < longer
    ensures var e1 := EstimateEnergy(p, m.(totalTimeSeconds := shorter));
            var e2 := EstimateEnergy(p, m.(totalTimeSeconds := longer));
            e1.Kcal? && e2.Kcal? && e1.value < e2.value
  {
    var met := AdjustedMet(p.activity.value, m.topElevation - m.lowestElevation, m.averageSpeed);
    var w := p.weight.value;
    var c := met * w;
    assert c > 0.0;
    assert c * (shorter / 3600.0) < c * (longer / 3600.0);
  }

  /** A cycling profile of 80 kg, one hour, 25 km/h and 600 m of climbing: both
      adjustments apply, MET 9.5, 760 kcal. */
  lemma CyclingHourEstimate(m: Metrics)
    requires m.totalTimeSeconds == 3600.0 && m.averageSpeed == Finite(25.0)
    requires m.topElevation - m.lowestElevation == 600.0
    ensures EstimateEnergy(Profile(Some("Cycling"), Some(80.0), Some(175.0), Some(30), Some("Male")), m) == Kcal(760.0)
  {
    assert BaseMet("Cycling") == 7.5;
  }

  /** `update_activity_dropdown`: Cycling above 17 km/h, Running from 7 to
      17 km/h, Walking otherwise (including a NaN average). */
  function ClassifyActivity(averageSpeed: Num): (activity: string)
    ensures activity == "Cycling" <==> averageSpeed.Finite? && averageSpeed.v > 17.0
    ensures activity == "Running" <==> averageSpeed.Finite? && 7.0 <= averageSpeed.v <= 17.0
    ensures activity == "Walking" <==> !(averageSpeed.Finite? && averageSpeed.v >= 7.0)
  {
    if Greater(averageSpeed, Finite(17.0)) then "Cycling"
    else if averageSpeed.Finite? && 7.0 <= averageSpeed.v <= 17.0 then "Running"
    else "Walking"
  }

  /** Walking < Running < Cycling by typical speed. */
  function SpeedRank(activity: string): int
  {
    if activity == "Cycling" then 2 else if activity == "Running" then 1 else 0
  }

  /** A faster average never yields a slower activity, and the guessed
      activity always has its own MET value in the table. */
  lemma ClassifyMonotone(slower: real, faster: real)
    requires slower <= faster
    ensures SpeedRank(ClassifyActivity(Finite(slower))) <= SpeedRank(ClassifyActivity(Finite(faster)))
    ensures ClassifyActivity(Finite(slower)) in MetTable
  {
  }
}
