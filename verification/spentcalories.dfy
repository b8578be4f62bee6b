/** The training side of the calculation core (internal/spentcalories/spentcalories.go):
    parsing a "steps,activity,duration" record, validating the body parameters, and the
    distance, mean-speed and calorie formulas. All quantities are real numbers; Go's
    float64 rounding is not modelled. */
module SpentCalories {
  import opened Wrappers
  import opened Strings
  import opened Strconv
  import opened Durations

  /** Step length as a fraction of body height. */
  const StepLengthCoefficient: real := 0.45
  const MetersInKm: real := 1000.0
  const MinutesInHour: real := 60.0
  const RunningCaloriesCoefficient: real := 1.0
  const WalkingCaloriesCoefficient: real := 0.5

  /** One constructor per distinct error message of the package. The step and duration
      positivity errors of the record parser and of the parameter check carry the same
      message, so they share a constructor. */
  datatype Error =
    | FieldCount
    | StepsSyntax
    | StepsNotPositive
    | DurationSyntax
    | DurationNotPositive
    | WeightNotPositive
    | HeightNotPositive
    | SpeedNotPositive
    | UnknownActivity(name: string)

  /** The fields of a training record: step count, lower-cased activity label, duration. */
  datatype Training = Training(steps: int, activity: string, duration: Duration)

  /** The two activities the report knows, each with its label and calorie coefficient. */
  datatype Activity = Running | Walking {
    function Label(): string {
      match this
      case Running => "running"
      case Walking => "walking"
    }

    function Coefficient(): real {
      match this
      case Running => RunningCaloriesCoefficient
      case Walking => WalkingCaloriesCoefficient
    }
  }

  /** The numbers a training report shows; the text layout around them is not modelled. */
  datatype Report = Report(activity: Activity, hours: real, distanceKm: real, speedKmH: real, calories: real)

  // ---------------------------------------------------------------------------
  // Record parser

  /** `parseTraining`: split on commas into exactly three fields, then read the step count
      (an integer, then positive), lower-case the label, and read the duration (parseable,
      then positive). The first failing check decides the error. */
  function ParseTraining(data: string, parseDuration: DurationParser): (r: Result<Training, Error>)
    ensures var parts := Split(data, ',');
      |parts| != 3 ==> r == Failure(FieldCount)
    ensures var parts := Split(data, ',');
      |parts| == 3 && Atoi(parts[0]).None? ==> r == Failure(StepsSyntax)
    ensures var parts := Split(data, ',');
      |parts| == 3 && Atoi(parts[0]).Some? && Atoi(parts[0]).value <= 0 ==> r == Failure(StepsNotPositive)
    ensures var parts := Split(data, ',');
      |parts| == 3 && Atoi(parts[0]).Some? && Atoi(parts[0]).value > 0 && parseDuration(parts[2]).None?
      ==> r == Failure(DurationSyntax)
    ensures var parts := Split(data, ',');
      |parts| == 3 && Atoi(parts[0]).Some? && Atoi(parts[0]).value > 0
      && parseDuration(parts[2]).Some? && parseDuration(parts[2]).value <= 0
      ==> r == Failure(DurationNotPositive)
    ensures var parts := Split(data, ',');
      r.Success? ==>
        && |parts| == 3
        && Atoi(parts[0]) == Some(r.value.steps)
        && r.value.activity == ToLower(parts[1])
        && parseDuration(parts[2]) == Some(r.value.duration)
    ensures var parts := Split(data, ',');
      r.Success? <==>
        && |parts| == 3
        && Atoi(parts[0]).Some? && Atoi(parts[0]).value > 0
        && parseDuration(parts[2]).Some? && parseDuration(parts[2]).value > 0
    ensures r.Success? ==> r.value.steps > 0 && r.value.duration > 0
  {
    var parts := Split(data, ',');
    if |parts| != 3 then Failure(FieldCount)
    else match Atoi(parts[0])
      case None => Failure(StepsSyntax)
      case Some(steps) =>
        if steps <= 0 then Failure(StepsNotPositive)
        else
          var activity := ToLower(parts[1]);
          match parseDuration(parts[2])
          case None => Failure(DurationSyntax)
          case Some(duration) =>
            if duration <= 0 then Failure(DurationNotPositive)
            else Success(Training(steps, activity, duration))
  }

  /** The record is rejected for its shape exactly when it does not hold two commas;
      the empty record is one such. */
  lemma FieldCountIffNotTwoCommas(data: string, parseDuration: DurationParser)
    ensures ParseTraining(data, parseDuration) == Failure(FieldCount) <==> Count(data, ',') != 2
    ensures ParseTraining("", parseDuration) == Failure(FieldCount)
  {
  }

  /** The step count is checked before the duration field is looked at: a step error is
      the same whatever the duration parser does. */
  lemma StepsCheckedBeforeDuration(data: string, pd1: DurationParser, pd2: DurationParser)
    requires ParseTraining(data, pd1) in {Failure(FieldCount), Failure(StepsSyntax), Failure(StepsNotPositive)}
    ensures ParseTraining(data, pd2) == ParseTraining(data, pd1)
  {
  }

  /** The parser never rejects a label: two records that differ only in their label
      succeed or fail together, with the same error, and a success carries the lower-cased
      label. */
  lemma LabelNeverRejected(steps: string, label1: string, label2: string, duration: string, pd: DurationParser)
    requires ',' !in steps && ',' !in label1 && ',' !in label2 && ',' !in duration
    ensures var r1 := ParseTraining(steps + "," + label1 + "," + duration, pd);
            var r2 := ParseTraining(steps + "," + label2 + "," + duration, pd);
      && r1.Success? == r2.Success?
      && (r1.Failure? ==> r1.error == r2.error)
      && (r1.Success? ==> r1.value.activity == ToLower(label1) && r2.value.activity == ToLower(label2)
                          && r1.value.steps == r2.value.steps && r1.value.duration == r2.value.duration)
  {
    SplitThree(steps, label1, duration, ',');
    SplitThree(steps, label2, duration, ',');
  }

  /** A record of three comma-free fields is accepted exactly when its step field is a
      positive integer (in any form `Atoi` reads, such as "+5" or "007") and its duration
      field parses to a positive duration; the fields are then passed on. */
  lemma TrainingAcceptsValidFields(stepsText: string, text: string, durationText: string, pd: DurationParser)
    requires ',' !in stepsText && ',' !in text && ',' !in durationText
    ensures var r := ParseTraining(stepsText + "," + text + "," + durationText, pd);
      && (r.Success? <==>
            Atoi(stepsText).Some? && Atoi(stepsText).value > 0
            && pd(durationText).Some? && pd(durationText).value > 0)
      && (r.Success? ==>
            r.value == Training(Atoi(stepsText).value, ToLower(text), pd(durationText).value))
  {
    SplitThree(stepsText, text, durationText, ',');
  }

  /** Round trip: a record written from a positive step count, any comma-free label and
      the text of a positive duration parses back to those values (label lower-cased). */
  lemma ParseTrainingRecord(steps: int, text: string, durationText: string, pd: DurationParser)
    requires 0 < steps <= MaxInt
    requires ',' !in text && ',' !in durationText
    requires pd(durationText).Some? && pd(durationText).value > 0
    ensures ParseTraining(FormatInt(steps) + "," + text + "," + durationText, pd)
            == Success(Training(steps, ToLower(text), pd(durationText).value))
  {
    NatToStringDigits(steps);
    assert FormatInt(steps) == NatToString(steps);
    assert ',' !in FormatInt(steps) by {
      forall i | 0 <= i < |FormatInt(steps)| ensures FormatInt(steps)[i] != ',' {
        assert IsDigit(FormatInt(steps)[i]);
      }
    }
    AtoiFormatInt(steps);
    SplitThree(FormatInt(steps), text, durationText, ',');
  }

  // ---------------------------------------------------------------------------
  // Calorie model

  /** One ordered validation check: whether it passes, and the error it reports if not. */
  datatype Check = Check(passes: bool, error: Error)

  /** The error of the first failing check, or `None` when all pass. */
  function FirstFailure(checks: seq<Check>): (r: Option<Error>)
    ensures r.None? <==> forall i :: 0 <= i < |checks| ==> checks[i].passes
    ensures r.Some? ==>
      exists i :: 0 <= i < |checks| && !checks[i].passes && checks[i].error == r.value
        && forall j :: 0 <= j < i ==> checks[j].passes
    decreases |checks|
  {
    if |checks| == 0 then None
    else if !checks[0].passes then Some(checks[0].error)
    else
      var r := FirstFailure(checks[1..]);
      if r.Some? then
        ghost var i :| 0 <= i < |checks| - 1 && !checks[1..][i].passes && checks[1..][i].error == r.value
          && forall j :: 0 <= j < i ==> checks[1..][j].passes;
        assert checks[i + 1] == checks[1..][i];
        r
      else r
  }

  /** The parameter checks in the order the package performs them. */
  function ParamChecks(steps: int, weight: real, height: real, duration: Duration): seq<Check>
  {
    [ Check(steps > 0, StepsNotPositive),
      Check(weight > 0.0, WeightNotPositive),
      Check(height > 0.0, HeightNotPositive),
      Check(duration > 0, DurationNotPositive) ]
  }

  /** `validateParams`: `None` for Go's nil error. */
  function ValidateParams(steps: int, weight: real, height: real, duration: Duration): (r: Option<Error>)
    ensures r.None? <==> steps > 0 && weight > 0.0 && height > 0.0 && duration > 0
  {
    if steps <= 0 then Some(StepsNotPositive)
    else if weight <= 0.0 then Some(WeightNotPositive)
    else if height <= 0.0 then Some(HeightNotPositive)
    else if duration <= 0 then Some(DurationNotPositive)
    else None
  }

  /** The checks are made in the order steps, weight, height, duration, and the first one
      that fails decides the error. */
  lemma {:induction false} ValidateParamsFirstFailure(steps: int, weight: real, height: real, duration: Duration)
    ensures ValidateParams(steps, weight, height, duration) == FirstFailure(ParamChecks(steps, weight, height, duration))
  {
    var cs := ParamChecks(steps, weight, height, duration);
    var afterSteps, afterWeight, afterHeight := cs[1..], cs[2..], cs[3..];
    assert afterSteps[1..] == afterWeight && afterWeight[1..] == afterHeight && afterHeight[1..] == [];
    assert FirstFailure(afterHeight) == if duration > 0 then None else Some(DurationNotPositive);
    assert FirstFailure(afterWeight) == if height > 0.0 then FirstFailure(afterHeight) else Some(HeightNotPositive);
    assert FirstFailure(afterSteps) == if weight > 0.0 then FirstFailure(afterWeight) else Some(WeightNotPositive);
  }

  /** `distance`: kilometres covered by `steps` steps of `height * 0.45` metres each. */
  function Distance(steps: int, height: real): (km: real)
    ensures steps > 0 && height > 0.0 ==> km > 0.0
    ensures steps == 0 || height == 0.0 ==> km == 0.0
  {
    var stepLength := height * StepLengthCoefficient;
    steps as real * stepLength / MetersInKm
  }

  /** Distance grows strictly with the step count (for a positive height) and with the
      height (for a positive step count). */
  lemma DistanceStrictlyIncreasing(s1: int, s2: int, h1: real, h2: real)
    ensures h1 > 0.0 && s1 < s2 ==> Distance(s1, h1) < Distance(s2, h1)
    ensures s1 > 0 && h1 < h2 ==> Distance(s1, h1) < Distance(s1, h2)
  {
    if h1 > 0.0 && s1 < s2 {
      assert s1 as real * (h1 * StepLengthCoefficient) < s2 as real * (h1 * StepLengthCoefficient);
    }
    if s1 > 0 && h1 < h2 {
      assert s1 as real * (h1 * StepLengthCoefficient) < s1 as real * (h2 * StepLengthCoefficient);
    }
  }

  /** `meanSpeed`: kilometres per hour over the whole duration; 0 for a non-positive
      duration. */
  function MeanSpeed(steps: int, height: real, duration: Duration): (kmh: real)
    ensures duration <= 0 ==> kmh == 0.0
    ensures duration > 0 ==> kmh * Hours(duration) == Distance(steps, height)
  {
    if duration <= 0 then 0.0
    else Distance(steps, height) / Hours(duration)
  }

  /** With valid parameters the mean speed is positive, so the package's "speed must be
      positive" guard in `caloriesSpent` never fires over the reals. */
  lemma SpeedGuardUnreachable(steps: int, weight: real, height: real, duration: Duration)
    requires ValidateParams(steps, weight, height, duration).None?
    ensures MeanSpeed(steps, height, duration) > 0.0
  {
  }

  /** Speed times duration in minutes, per sixty minutes, is the distance again. */
  lemma SpeedTimesMinutes(steps: int, height: real, duration: Duration)
    requires duration > 0
    ensures MeanSpeed(steps, height, duration) * Minutes(duration) / MinutesInHour == Distance(steps, height)
  {
  }

  /** `caloriesSpent`: after validation, weight times speed times minutes per hour, scaled
      by the activity coefficient. Over the reals that is weight times distance times the
      coefficient, whatever the duration. */
  function CaloriesSpent(steps: int, weight: real, height: real, duration: Duration, coefficient: real)
    : (r: Result<real, Error>)
    ensures r.Failure? <==> ValidateParams(steps, weight, height, duration).Some?
    ensures r.Failure? ==> r.error == ValidateParams(steps, weight, height, duration).value
    ensures r.Success? ==> r.value == weight * Distance(steps, height) * coefficient
  {
    match ValidateParams(steps, weight, height, duration)
    case Some(e) => Failure(e)
    case None =>
      var speed := MeanSpeed(steps, height, duration);
      if speed <= 0.0 then
        SpeedGuardUnreachable(steps, weight, height, duration);
        Failure(SpeedNotPositive)
      else
        var durationMinutes := Minutes(duration);
        var calories := (weight * speed * durationMinutes) / MinutesInHour;
        CaloriesFormula(steps, weight, height, duration, coefficient);
        Success(calories * coefficient)
  }

  /** The package's calorie expression, weight times speed times minutes per sixty minutes
      times the coefficient, is weight times distance times the coefficient. */
  lemma CaloriesFormula(steps: int, weight: real, height: real, duration: Duration, coefficient: real)
    requires duration > 0
    ensures (weight * MeanSpeed(steps, height, duration) * Minutes(duration)) / MinutesInHour * coefficient
            == weight * Distance(steps, height) * coefficient
  {
  }

  /** Calories do not depend on how long the training lasted, only on whether the
      duration is positive. */
  lemma CaloriesIndependentOfDuration(steps: int, weight: real, height: real, d1: Duration, d2: Duration, coefficient: real)
    requires d1 > 0 && d2 > 0
    ensures CaloriesSpent(steps, weight, height, d1, coefficient) == CaloriesSpent(steps, weight, height, d2, coefficient)
  {
  }

  /** `RunningSpentCalories`: the calorie formula with coefficient 1. */
  function RunningSpentCalories(steps: int, weight: real, height: real, duration: Duration): (r: Result<real, Error>)
    ensures r.Success? ==> r.value == weight * Distance(steps, height)
  {
    CaloriesSpent(steps, weight, height, duration, RunningCaloriesCoefficient)
  }

  /** `WalkingSpentCalories`: the calorie formula with coefficient 0.5. */
  function WalkingSpentCalories(steps: int, weight: real, height: real, duration: Duration): (r: Result<real, Error>)
    ensures r.Success? ==> r.value == weight * Distance(steps, height) / 2.0
  {
    CaloriesSpent(steps, weight, height, duration, WalkingCaloriesCoefficient)
  }

  /** Walking burns exactly half of what running burns on the same inputs, the two fail on
      exactly the same inputs with the same error, and a success of either is positive, so
      running burns strictly more. */
  lemma WalkingIsHalfRunning(steps: int, weight: real, height: real, duration: Duration)
    ensures var run := RunningSpentCalories(steps, weight, height, duration);
            var walk := WalkingSpentCalories(steps, weight, height, duration);
      && run.Success? == walk.Success?
      && (run.Failure? ==> run.error == walk.error)
      && (run.Success? ==> walk.value == 0.5 * run.value && 0.0 < walk.value < run.value)
  {
  }

  // ---------------------------------------------------------------------------
  // Composition

  /** The activity a lower-cased label names, if any. */
  function ActivityOf(text: string): (a: Option<Activity>)
    ensures a.Some? <==> text == "running" || text == "walking"
    ensures a.Some? ==> a.value.Label() == text
  {
    if text == Running.Label() then Some(Running)
    else if text == Walking.Label() then Some(Walking)
    else None
  }

  /** `TrainingInfo` without the text layout: parse, dispatch on the label, compute. */
  function TrainingInfo(data: string, weight: real, height: real, parseDuration: DurationParser)
    : (r: Result<Report, Error>)
    ensures var p := ParseTraining(data, parseDuration);
      p.Failure? ==> r == Failure(p.error)
    ensures var p := ParseTraining(data, parseDuration);
      p.Success? && ActivityOf(p.value.activity).None? ==> r == Failure(UnknownActivity(p.value.activity))
    ensures var p := ParseTraining(data, parseDuration);
      r.Success? <==> p.Success? && ActivityOf(p.value.activity).Some? && weight > 0.0 && height > 0.0
    ensures var p := ParseTraining(data, parseDuration);
      p.Success? && ActivityOf(p.value.activity).Some? && r.Failure? ==>
        r.error == (if weight <= 0.0 then WeightNotPositive else HeightNotPositive)
    ensures var p := ParseTraining(data, parseDuration);
      r.Success? ==>
        && r.value.activity.Label() == p.value.activity
        && r.value.hours * Hour as real == p.value.duration as real
        && r.value.distanceKm == Distance(p.value.steps, height)
        && r.value.speedKmH * r.value.hours == r.value.distanceKm
        && r.value.calories == weight * r.value.distanceKm * r.value.activity.Coefficient()
        && r.value.hours > 0.0 && r.value.distanceKm > 0.0 && r.value.speedKmH > 0.0 && r.value.calories > 0.0
  {
    match ParseTraining(data, parseDuration)
    case Failure(e) => Failure(e)
    case Success(t) =>
      var dist := Distance(t.steps, height);
      var speed := MeanSpeed(t.steps, height, t.duration);
      match ActivityOf(t.activity)
      case None => Failure(UnknownActivity(t.activity))
      case Some(a) =>
        var calories :=
          match a
          case Running => RunningSpentCalories(t.steps, weight, height, t.duration)
          case Walking => WalkingSpentCalories(t.steps, weight, height, t.duration);
        match calories
        case Failure(e) => Failure(e)
        case Success(c) =>
          WalkingIsHalfRunning(t.steps, weight, height, t.duration);
          SpeedGuardUnreachable(t.steps, weight, height, t.duration);
          Success(Report(a, Hours(t.duration), dist, speed, c))
  }
}
