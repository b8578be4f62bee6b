/** Concrete records worked through the daily-steps model, and the one place where the two
    record parsers disagree: the sign of the duration. */
module DayStepsScenarios {
  import opened Wrappers
  import opened Strings
  import opened Strconv
  import opened Durations
  import opened DaySteps
  import SpentCalories

  /** "-5,1h0m" is refused for its step count, whatever the duration parser does. */
  lemma NegativeStepsRejected(pd: DurationParser)
    ensures ParsePackage("-5,1h0m", pd) == Package(0, 0, Some(StepsNotPositive))
    ensures DayActionInfo("-5,1h0m", pd) == Empty
  {
    AtoiSamples();
    SplitTwo("-5", "1h0m", ',');
    assert "-5" + [','] + "1h0m" == "-5,1h0m";
  }

  /** 4000 steps of 0.65 m make 2.6 km. */
  lemma FourThousandSteps(pd: DurationParser)
    requires pd("1h0m") == Some(Hour)
    ensures DayActionInfo("4000,1h0m", pd) == Summary(4000, 2.6)
  {
    AtoiSamples();
    SplitTwo("4000", "1h0m", ',');
    assert "4000" + [','] + "1h0m" == "4000,1h0m";
  }

  lemma SplitNegativeDurationSamples()
    ensures Split("4000,-1h", ',') == ["4000", "-1h"]
    ensures Split("4000,walking,-1h", ',') == ["4000", "walking", "-1h"]
  {
    SplitTwo("4000", "-1h", ',');
    assert "4000" + [','] + "-1h" == "4000,-1h";
    SplitThree("4000", "walking", "-1h", ',');
    assert "4000" + [','] + "walking" + [','] + "-1h" == "4000,walking,-1h";
  }

  /** A negative duration passes the daily-steps parser but not the training parser. */
  lemma NegativeDurationParsersDisagree(pd: DurationParser)
    requires pd("-1h") == Some(-Hour)
    ensures ParsePackage("4000,-1h", pd) == Package(4000, -Hour, None)
    ensures SpentCalories.ParseTraining("4000,walking,-1h", pd) == Failure(SpentCalories.DurationNotPositive)
  {
    AtoiSamples();
    SplitNegativeDurationSamples();
  }
}
