/** Concrete records worked through the training model: the sample record of the package's
    own documentation comment, a running record with its numbers, and rejected records.
    Each record's split, step count and lower-cased label are established first by small
    lemmas of their own. */
module TrainingScenarios {
  import opened Wrappers
  import opened Strings
  import opened Strconv
  import opened Durations
  import opened SpentCalories

  lemma SplitWalkingSample()
    ensures Split("3456,Ходьба,3h00m", ',') == ["3456", "Ходьба", "3h00m"]
  {
    SplitThree("3456", "Ходьба", "3h00m", ',');
    assert "3456" + [','] + "Ходьба" + [','] + "3h00m" == "3456,Ходьба,3h00m";
  }

  lemma SplitRunningSample()
    ensures Split("3456,Running,1h0m", ',') == ["3456", "Running", "1h0m"]
  {
    SplitThree("3456", "Running", "1h0m", ',');
    assert "3456" + [','] + "Running" + [','] + "1h0m" == "3456,Running,1h0m";
  }

  lemma SplitZeroSample()
    ensures Split("5,Ходьба,0h0m", ',') == ["5", "Ходьба", "0h0m"]
  {
    SplitThree("5", "Ходьба", "0h0m", ',');
    assert "5" + [','] + "Ходьба" + [','] + "0h0m" == "5,Ходьба,0h0m";
  }

  lemma SplitSprintingSample()
    ensures Split("5,sprinting,1h0m", ',') == ["5", "sprinting", "1h0m"]
  {
    SplitThree("5", "sprinting", "1h0m", ',');
    assert "5" + [','] + "sprinting" + [','] + "1h0m" == "5,sprinting,1h0m";
  }

  lemma SplitNegativeSample()
    ensures Split("-5,running,1h0m", ',') == ["-5", "running", "1h0m"]
  {
    SplitThree("-5", "running", "1h0m", ',');
    assert "-5" + [','] + "running" + [','] + "1h0m" == "-5,running,1h0m";
  }

  lemma LowerSamples()
    ensures ToLower("Ходьба") == "ходьба"
    ensures ToLower("Running") == "running"
    ensures ToLower("sprinting") == "sprinting"
  {
  }

  /** The documented sample "3456,Ходьба,3h00m" parses, but its Cyrillic label lower-cases
      to "ходьба", which the report does not know: the report is refused. */
  lemma LocalizedLabelRejected(pd: DurationParser)
    requires pd("3h00m") == Some(3 * Hour)
    ensures ParseTraining("3456,Ходьба,3h00m", pd) == Success(Training(3456, "ходьба", 3 * Hour))
    ensures TrainingInfo("3456,Ходьба,3h00m", 75.0, 1.75, pd) == Failure(UnknownActivity("ходьба"))
  {
    AtoiSamples();
    SplitWalkingSample();
    LowerSamples();
  }

  lemma ParseRunningSample(pd: DurationParser)
    requires pd("1h0m") == Some(Hour)
    ensures ParseTraining("3456,Running,1h0m", pd) == Success(Training(3456, "running", Hour))
  {
    AtoiSamples();
    SplitRunningSample();
    LowerSamples();
  }

  /** A running record of 3456 steps over one hour, for 75 kg and 1.75 m: 2.7216 km at
      2.7216 km/h, and 204.12 kcal. */
  lemma RunningSample(pd: DurationParser)
    requires pd("1h0m") == Some(Hour)
    ensures TrainingInfo("3456,Running,1h0m", 75.0, 1.75, pd)
            == Success(Report(Running, 1.0, 2.7216, 2.7216, 204.12))
  {
    ParseRunningSample(pd);
    assert Hour as real == 3_600_000_000_000.0;
    assert Hours(Hour) == 1.0;
    assert Distance(3456, 1.75) == 2.7216;
    assert MeanSpeed(3456, 1.75, Hour) == 2.7216;
    assert RunningSpentCalories(3456, 75.0, 1.75, Hour) == Success(204.12);
  }

  /** A zero duration is refused by the parser. */
  lemma ZeroDurationRejected(pd: DurationParser)
    requires pd("0h0m") == Some(0)
    ensures TrainingInfo("5,Ходьба,0h0m", 75.0, 1.75, pd) == Failure(DurationNotPositive)
  {
    AtoiSamples();
    SplitZeroSample();
  }

  lemma ParseSprintingSample(pd: DurationParser)
    requires pd("1h0m") == Some(Hour)
    ensures ParseTraining("5,sprinting,1h0m", pd) == Success(Training(5, "sprinting", Hour))
  {
    AtoiSamples();
    SplitSprintingSample();
    LowerSamples();
  }

  /** A label other than running or walking is refused, before the body parameters are
      looked at. */
  lemma UnknownActivityRejected(weight: real, height: real, pd: DurationParser)
    requires pd("1h0m") == Some(Hour)
    ensures TrainingInfo("5,sprinting,1h0m", weight, height, pd) == Failure(UnknownActivity("sprinting"))
  {
    ParseSprintingSample(pd);
  }

  /** A negative step count is refused whatever the duration text says. */
  lemma NegativeStepsRejected(pd: DurationParser)
    ensures TrainingInfo("-5,running,1h0m", 75.0, 1.75, pd) == Failure(StepsNotPositive)
  {
    AtoiSamples();
    SplitNegativeSample();
  }
}
