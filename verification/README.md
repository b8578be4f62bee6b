# Fitness-record calculation core, modelled in Dafny

This project models the calculation core of a small Go fitness utility. The core reads a
comma-separated activity record, validates its fields, and computes distance, mean speed
and calories burned from closed-form formulas. It has two packages:

- `spentcalories` reads a training record `steps,activity,duration`, for example
  `3456,running,1h0m`. It checks the body parameters (weight, height) and computes
  distance, mean speed and calories. Running uses calorie coefficient 1.0 and walking 0.5.
- `daysteps` reads a daily record `steps,duration` and computes the distance walked
  with a fixed step length of 0.65 m. Any parse error gives an empty report.

Modules and files:

| file | module | models |
|---|---|---|
| `wrappers.dfy` | `Wrappers` | `Option` and `Result`, standing for Go's `(value, error)` returns |
| `strings.dfy` | `Strings` | `strings.Split` on one character, its inverse `Join`, and `strings.ToLower` |
| `strconv.dfy` | `Strconv` | `strconv.Atoi` on a 64-bit platform, with `FormatInt` (`strconv.Itoa`) as its inverse |
| `durations.dfy` | `Durations` | `time.Duration` as a count of nanoseconds, `Hours()`, `Minutes()`, and the type of `time.ParseDuration` |
| `spentcalories.dfy` | `SpentCalories` | `parseTraining`, `validateParams`, `distance`, `meanSpeed`, `caloriesSpent`, `RunningSpentCalories`, `WalkingSpentCalories`, `TrainingInfo` |
| `daysteps.dfy` | `DaySteps` | `parsePackage`, and the distance and empty-on-error behaviour of `DayActionInfo` |
| `training_scenarios.dfy`, `daysteps_scenarios.dfy` | `TrainingScenarios`, `DayStepsScenarios` | concrete records worked through the model |

Modelling choices:

- All quantities are Dafny `real`, so the formulas are exact.
- A `time.Duration` is an `int` count of nanoseconds. `Hours()` is d / 3.6e12 and `Minutes()` is d / 6e10.
- `time.ParseDuration` is not modelled. Every operation that needs it takes it as a parameter
  `parseDuration: string -> Option<Duration>`. Every property holds for every such parser.
- Each distinct Go error message is one constructor of an `Error` datatype. The parser and
  `validateParams` use the same message for non-positive steps, so they share a constructor.
  The same holds for a non-positive duration.
- `TrainingInfo` returns a `Report` holding the numbers the Go report prints: activity,
  hours, distance, speed and calories. `DayActionInfo` returns `Empty` (Go's `""`) or a
  `Summary` of steps and distance.

Behaviour of the code worth knowing, each point stated by a member:

- Only labels that lower-case to "running" or "walking" are accepted
  (internal/spentcalories/spentcalories.go:130-137). The package's own doc comment at
  internal/spentcalories/spentcalories.go:26 gives the sample `3456,Ходьба,3h00m`; it
  parses, but `TrainingInfo` refuses it with `UnknownActivity("ходьба")`
  (`TrainingScenarios.LocalizedLabelRejected`).
- `parsePackage` never checks the sign of the duration
  (internal/daysteps/daysteps.go:35-40), so zero and negative durations are accepted, while
  `parseTraining` refuses them (`DaySteps.PackageAcceptsAnyParsedDuration`,
  `DayStepsScenarios.NegativeDurationParsersDisagree`).
- `DayActionInfo` swallows every parse error and returns the empty string
  (internal/daysteps/daysteps.go:44-48; `DaySteps.DayActionInfo`).
- `distance` multiplies height by 0.45 to get a step length and divides by 1000 to get
  kilometres (internal/spentcalories/spentcalories.go:78-81), so height is in metres; the
  samples here use 1.75.

## Model

| member | source | states |
|---|---|---|
| Strings.Split | internal/spentcalories/spentcalories.go:29 | The pieces hold no separator and number one more than the separators in the record |
| Strings.LowerRune | internal/spentcalories/spentcalories.go:45 | A lowered rune is never one of the modelled capitals, and a rune that is not a capital is left unchanged |
| Strings.JoinSplit | internal/spentcalories/spentcalories.go:29 | Re-joining the pieces of `strings.Split` with the separator gives back the original record |
| Strings.SplitJoin | internal/spentcalories/spentcalories.go:29-30 | Splitting separator-free fields joined by the separator gives back exactly those fields, so a record's field count is its comma count plus one |
| Strings.SplitTwo | internal/daysteps/daysteps.go:22-23 | Two comma-free fields joined by one comma split into exactly those two fields |
| Strings.SplitThree | internal/spentcalories/spentcalories.go:29-30 | Three comma-free fields joined by commas split into exactly those three fields |
| Strings.ToLower | internal/spentcalories/spentcalories.go:45 | Lower-casing keeps the length and lowers each rune on its own |
| Strings.ToLowerIdempotent | internal/spentcalories/spentcalories.go:45 | Lower-casing an already lower-cased label changes nothing |
| Strings.LowerRuneToAscii | internal/spentcalories/spentcalories.go:45 | The runes that lower to an ASCII letter are that letter, its capital, and for 'i' and 'k' one non-ASCII capital (U+0130, U+212A); these decide which labels reach "running" or "walking" |
| Strconv.Atoi | internal/spentcalories/spentcalories.go:35-39 | A step field is accepted exactly when it is an optional sign and at least one digit, with a value inside the 64-bit range; the value read is the decimal value of the digits, negated after a '-' |
| Strconv.AtoiLeadingZero | internal/spentcalories/spentcalories.go:35 | With or without a sign, a leading zero does not change the value read: "007" reads as 7 and "-007" as -7 |
| Strconv.AtoiLeadingZeroSamples | internal/daysteps/daysteps.go:28 | "007" reads as 7 and "-0" reads as 0 |
| Strconv.AtoiFormatInt | internal/spentcalories/spentcalories.go:35 | Every 64-bit integer printed in decimal is read back as itself |
| Strconv.AtoiPlusSign | internal/daysteps/daysteps.go:28 | A leading '+' does not change the step count read |
| Durations.Hours | internal/spentcalories/spentcalories.go:88 | A duration in hours, times the nanoseconds in an hour, is the duration; it is positive exactly when the duration is |
| Durations.Minutes | internal/spentcalories/spentcalories.go:102 | A duration in minutes, times the nanoseconds in a minute, is the duration; it is positive exactly when the duration is |
| Durations.MinutesAreSixtyHours | internal/spentcalories/spentcalories.go:102-103 | The minute reading of a duration is sixty times its hour reading |
| SpentCalories.ParseTraining | internal/spentcalories/spentcalories.go:28-58 | Wrong field count, bad step number, non-positive steps, bad duration and non-positive duration each give their own error, in that order; the record is accepted exactly when all five checks pass, and then carries the step count, the lower-cased label and the duration |
| SpentCalories.TrainingAcceptsValidFields | internal/spentcalories/spentcalories.go:28-58 | Three comma-free fields are accepted exactly when the step field is a positive integer in any form Atoi reads (such as "+5" or "007") and the duration parses to a positive value; the result is those values with the label lower-cased |
| SpentCalories.FieldCountIffNotTwoCommas | internal/spentcalories/spentcalories.go:29-33 | The field-count error happens exactly when the record does not hold two commas, including the empty record |
| SpentCalories.StepsCheckedBeforeDuration | internal/spentcalories/spentcalories.go:35-47 | A field-count or step error is the same whatever the duration parser does: the duration field is not looked at before the steps pass |
| SpentCalories.LabelNeverRejected | internal/spentcalories/spentcalories.go:45 | Two records that differ only in the label succeed or fail together with the same error; a success carries the lower-cased label |
| SpentCalories.ParseTrainingRecord | internal/spentcalories/spentcalories.go:28-58 | A record written from a positive step count, a comma-free label and the text of a positive duration parses back to those values |
| SpentCalories.ValidateParams | internal/spentcalories/spentcalories.go:61-75 | No error exactly when steps, weight, height and duration are all positive |
| SpentCalories.ValidateParamsFirstFailure | internal/spentcalories/spentcalories.go:61-75 | The error returned is that of the first failing check in the order steps, weight, height, duration, and every earlier check passed |
| SpentCalories.Distance | internal/spentcalories/spentcalories.go:78-81 | Distance is positive for positive steps and height and zero when either is zero |
| SpentCalories.DistanceStrictlyIncreasing | internal/spentcalories/spentcalories.go:78-81 | Distance grows strictly with steps for a positive height, and with height for a positive step count |
| SpentCalories.MeanSpeed | internal/spentcalories/spentcalories.go:84-89 | Speed is 0 for a non-positive duration; otherwise speed times hours is the distance |
| SpentCalories.SpeedGuardUnreachable | internal/spentcalories/spentcalories.go:97-100 | With valid parameters the mean speed is positive, so the "speed must be positive" error never occurs |
| SpentCalories.SpeedTimesMinutes | internal/spentcalories/spentcalories.go:97-103 | Speed times minutes divided by sixty is the distance again |
| SpentCalories.CaloriesSpent | internal/spentcalories/spentcalories.go:92-107 | Fails exactly when validation fails, with validation's error; otherwise the calories are weight times distance times the coefficient |
| SpentCalories.CaloriesFormula | internal/spentcalories/spentcalories.go:102-104 | The code's formula weight × speed × minutes / 60 × coefficient equals weight × distance × coefficient for a positive duration |
| SpentCalories.CaloriesIndependentOfDuration | internal/spentcalories/spentcalories.go:92-107 | Any two positive durations give the same calorie result |
| SpentCalories.RunningSpentCalories | internal/spentcalories/spentcalories.go:110-112 | Running calories are weight times distance |
| SpentCalories.WalkingSpentCalories | internal/spentcalories/spentcalories.go:115-117 | Walking calories are half of weight times distance |
| SpentCalories.WalkingIsHalfRunning | internal/spentcalories/spentcalories.go:110-117 | Walking and running fail on the same inputs with the same error; on success walking is exactly half of running, both are positive, and running is strictly more |
| SpentCalories.ActivityOf | internal/spentcalories/spentcalories.go:21-24 | Exactly the labels "running" and "walking" name an activity, and the activity's label is the label given |
| SpentCalories.TrainingInfo | internal/spentcalories/spentcalories.go:120-152 | Parser errors pass through unchanged; an unknown lower-cased label is refused before weight and height are checked; otherwise only a non-positive weight or height fails; a report carries positive hours, distance, speed and calories that agree with each other and with the activity's coefficient |
| TrainingScenarios.LocalizedLabelRejected | internal/spentcalories/spentcalories.go:26-28 | The documented sample "3456,Ходьба,3h00m" parses to label "ходьба", and the report refuses it as an unknown activity |
| TrainingScenarios.RunningSample | internal/spentcalories/spentcalories.go:120-149 | "3456,Running,1h0m" for 75 kg and 1.75 m reports 1 hour, 2.7216 km, 2.7216 km/h and 204.12 kcal |
| TrainingScenarios.ZeroDurationRejected | internal/spentcalories/spentcalories.go:52-55 | A zero duration is refused with the duration error |
| TrainingScenarios.UnknownActivityRejected | internal/spentcalories/spentcalories.go:135-136 | "sprinting" is refused as an unknown activity for any weight and height |
| TrainingScenarios.NegativeStepsRejected | internal/spentcalories/spentcalories.go:40-43 | A negative step count is refused whatever the duration parser does |
| DaySteps.ParsePackage | internal/daysteps/daysteps.go:21-41 | Wrong field count, bad step number, non-positive steps and bad duration each give their own error, in that order, with steps and duration zero; the record is accepted exactly when all four checks pass, and then carries steps > 0 and the parsed duration unchanged |
| DaySteps.FieldCountIffNotOneComma | internal/daysteps/daysteps.go:22-25 | The field-count error happens exactly when the record does not hold one comma, including the empty record |
| DaySteps.StepsCheckedBeforeDuration | internal/daysteps/daysteps.go:28-35 | A field-count or step error is the same whatever the duration parser does |
| DaySteps.PackageAcceptsAnyParsedDuration | internal/daysteps/daysteps.go:35-40 | A two-field record succeeds exactly when its step field is a positive integer and its duration parses, whatever the duration's sign, and the duration is passed on unchanged |
| DaySteps.ParsePackageRecord | internal/daysteps/daysteps.go:21-41 | A record written from a positive step count and a parseable duration text reads back as those values |
| DaySteps.DayDistance | internal/daysteps/daysteps.go:53-56 | The distance in km, times 1000 and divided by the 0.65 m step, is the step count; it is positive for positive steps |
| DaySteps.DayDistanceStrictlyIncreasing | internal/daysteps/daysteps.go:53-56 | More steps give strictly more distance |
| DaySteps.DayActionInfo | internal/daysteps/daysteps.go:43-56 | The report is empty exactly when the record parser fails; otherwise it carries the parsed positive step count and its distance at 0.65 m per step |
| DayStepsScenarios.NegativeStepsRejected | internal/daysteps/daysteps.go:32-34 | "-5,1h0m" is refused for its step count and gives the empty report |
| DayStepsScenarios.FourThousandSteps | internal/daysteps/daysteps.go:53-56 | "4000,1h0m" reports 4000 steps and 2.6 km |
| DayStepsScenarios.NegativeDurationParsersDisagree | internal/daysteps/daysteps.go:35-40 | A negative duration passes the daily-steps parser but the training parser refuses it |

## Left out

- Report text: the `fmt.Sprintf` layouts, `%.2f` rounding and `strings.Title` capitalisation
  are library formatting. `Report` and `DaySummary` hold only the numbers reported.
- Duration grammar: `time.ParseDuration` is a parameter of the model, not a definition. Its
  results are not bounded to the 64-bit range of `time.Duration`.
- Floating point: all quantities are exact reals. In float64 the speed guard of
  `caloriesSpent` can fire through underflow; over the reals it cannot (`SpentCalories.SpeedGuardUnreachable`).
- SpentCalories.ValidateParams: does not model NaN. In float64 a NaN weight or height
  fails every `<= 0` test (internal/spentcalories/spentcalories.go:65-70) and the speed
  guard (internal/spentcalories/spentcalories.go:98), so Go accepts it and reports NaN
  figures. Reals have no NaN, so the model's "no error exactly when all are positive" and
  `SpentCalories.TrainingInfo`'s "a report has positive calories" hold only for
  non-NaN inputs.
- Strings.ToLower: Go strings are bytes, while the model's strings are sequences of Unicode
  scalar values, so a record holding invalid UTF-8 cannot be written in the model. For such
  a label Go's `strings.ToLower` replaces each invalid byte with U+FFFD, which would change
  the activity label and the `UnknownActivity` name; the model does not cover this.
- Logging: the `log.Println` call in `DayActionInfo` is I/O.
- DayActionInfo's calorie figure: the call `spentcalories.WalkingSpentCalories(weight, height, duration)`
  at internal/daysteps/daysteps.go:59 does not match the four-argument, two-result
  signature at internal/spentcalories/spentcalories.go:115, so that file does not compile
  as written. The model leaves out the calorie figure and the `weight` and `height`
  parameters, which only that call uses.
- Strconv.Atoi: Go's syntax error and range error are both `None`. The order in which Go
  finds them is not modelled, because both turn into the same step-count error.
- SpentCalories.ParseTraining: on an error Go's named results keep partly filled values.
  The model returns only the error, because the only caller throws those values away.
- Strings.ToLower: covers ASCII, the Latin-1 capitals, the Cyrillic capitals U+0400–U+042F,
  and the two capitals that lower into ASCII (U+0130, U+212A). Other scripts keep their case.
- Error texts: the Russian messages and the `%w` / `%v` wrapping are represented by
  constructors, one per message.
