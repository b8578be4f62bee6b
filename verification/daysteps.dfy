/** The daily-steps side of the calculation core (internal/daysteps/daysteps.go): parsing a
    "steps,duration" record and the distance walked with a fixed step length. */
module DaySteps {
  import opened Wrappers
  import opened Strings
  import opened Strconv
  import opened Durations

  /** Length of one step, in metres; unlike the training side it does not depend on height. */
  const StepLength: real := 0.65
  const MetersInKm: real := 1000.0

  /** One constructor per error message of `parsePackage`. */
  datatype Error = FieldCount | StepsSyntax | StepsNotPositive | DurationSyntax

  /** Go's result triple `(steps, duration, err)`; `err == None` stands for a nil error. */
  datatype Package = Package(steps: int, duration: Duration, err: Option<Error>)

  /** `parsePackage`: exactly two comma fields, a positive integer step count, then a
      duration the duration parser accepts, of any sign. On failure the numbers are zero. */
  function ParsePackage(data: string, parseDuration: DurationParser): (r: Package)
    ensures r.err.Some? ==> r.steps == 0 && r.duration == 0
    ensures var parts := Split(data, ',');
      |parts| != 2 ==> r.err == Some(FieldCount)
    ensures var parts := Split(data, ',');
      |parts| == 2 && Atoi(parts[0]).None? ==> r.err == Some(StepsSyntax)
    ensures var parts := Split(data, ',');
      |parts| == 2 && Atoi(parts[0]).Some? && Atoi(parts[0]).value <= 0 ==> r.err == Some(StepsNotPositive)
    ensures var parts := Split(data, ',');
      |parts| == 2 && Atoi(parts[0]).Some? && Atoi(parts[0]).value > 0 && parseDuration(parts[1]).None?
      ==> r.err == Some(DurationSyntax)
    ensures var parts := Split(data, ',');
      r.err.None? ==>
        && |parts| == 2
        && Atoi(parts[0]) == Some(r.steps)
        && parseDuration(parts[1]) == Some(r.duration)
    ensures var parts := Split(data, ',');
      r.err.None? <==>
        && |parts| == 2
        && Atoi(parts[0]).Some? && Atoi(parts[0]).value > 0
        && parseDuration(parts[1]).Some?
    ensures r.err.None? ==> r.steps > 0
  {
    var parts := Split(data, ',');
    if |parts| != 2 then Package(0, 0, Some(FieldCount))
    else match Atoi(parts[0])
      case None => Package(0, 0, Some(StepsSyntax))
      case Some(steps) =>
        if steps <= 0 then Package(0, 0, Some(StepsNotPositive))
        else match parseDuration(parts[1])
          case None => Package(0, 0, Some(DurationSyntax))
          case Some(duration) => Package(steps, duration, None)
  }

  /** The record is rejected for its shape exactly when it does not hold one comma; the
      empty record is one such. */
  lemma FieldCountIffNotOneComma(data: string, parseDuration: DurationParser)
    ensures ParsePackage(data, parseDuration).err == Some(FieldCount) <==> Count(data, ',') != 1
    ensures ParsePackage("", parseDuration) == Package(0, 0, Some(FieldCount))
  {
  }

  /** The step count is checked before the duration field is looked at. */
  lemma StepsCheckedBeforeDuration(data: string, pd1: DurationParser, pd2: DurationParser)
    requires ParsePackage(data, pd1).err in {Some(FieldCount), Some(StepsSyntax), Some(StepsNotPositive)}
    ensures ParsePackage(data, pd2) == ParsePackage(data, pd1)
  {
  }

  /** The record parser succeeds exactly when the step field holds a positive integer and the
      duration parser accepts the duration field; the duration is passed on unchanged, so a
      zero or negative duration is accepted. */
  lemma PackageAcceptsAnyParsedDuration(stepsText: string, durationText: string, pd: DurationParser)
    requires ',' !in stepsText && ',' !in durationText
    ensures var r := ParsePackage(stepsText + "," + durationText, pd);
      && (r.err.None? <==> Atoi(stepsText).Some? && Atoi(stepsText).value > 0 && pd(durationText).Some?)
      && (r.err.None? ==> r.steps == Atoi(stepsText).value && r.duration == pd(durationText).value)
  {
    SplitTwo(stepsText, durationText, ',');
    assert stepsText + [','] + durationText == stepsText + "," + durationText;
  }

  /** Round trip: a record written from a positive step count and a duration text the
      parser accepts reads back as that step count and that duration. */
  lemma ParsePackageRecord(steps: int, durationText: string, pd: DurationParser)
    requires 0 < steps <= MaxInt
    requires ',' !in durationText
    requires pd(durationText).Some?
    ensures ParsePackage(FormatInt(steps) + "," + durationText, pd) == Package(steps, pd(durationText).value, None)
  {
    NatToStringDigits(steps);
    assert FormatInt(steps) == NatToString(steps);
    assert ',' !in FormatInt(steps) by {
      forall i | 0 <= i < |FormatInt(steps)| ensures FormatInt(steps)[i] != ',' {
        assert IsDigit(FormatInt(steps)[i]);
      }
    }
    AtoiFormatInt(steps);
    PackageAcceptsAnyParsedDuration(FormatInt(steps), durationText, pd);
  }

  /** Kilometres covered by `steps` steps of the fixed step length. */
  function DayDistance(steps: int): (km: real)
    ensures steps > 0 ==> km > 0.0
    ensures km * MetersInKm / StepLength == steps as real
  {
    var distanceMeters := steps as real * StepLength;
    distanceMeters / MetersInKm
  }

  /** More steps, strictly more distance. */
  lemma DayDistanceStrictlyIncreasing(s1: int, s2: int)
    requires s1 < s2
    ensures DayDistance(s1) < DayDistance(s2)
  {
  }

  /** What `DayActionInfo` reports: nothing (the empty string), or the step count and the
      distance. The calorie figure and the text layout are not modelled. */
  datatype DaySummary = Empty | Summary(steps: int, distanceKm: real)

  /** `DayActionInfo`: parse the record and report steps and distance; any parse error
      yields the empty report. Its second "non-positive steps" guard cannot fire after a
      successful parse. */
  function DayActionInfo(data: string, parseDuration: DurationParser): (r: DaySummary)
    ensures r.Empty? <==> ParsePackage(data, parseDuration).err.Some?
    ensures r.Summary? ==>
      && r.steps == ParsePackage(data, parseDuration).steps
      && r.steps > 0
      && r.distanceKm * MetersInKm == r.steps as real * StepLength
  {
    var p := ParsePackage(data, parseDuration);
    if p.err.Some? then Empty
    else if p.steps <= 0 then Empty
    else Summary(p.steps, DayDistance(p.steps))
  }
}
