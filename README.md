# Fitness scoring and validation layer of frontuv

This project models, in Dafny, the logic core of the frontuv fitness app.
The rest of the app is screens and plumbing around that core.

- **Rubrics.** Raw measurements (seconds, centimetres, metres) are turned
  into 0..10 scores by the strength, speed, flexibility and endurance
  rubrics.
- **Test sessions.** Each of the four test screens is a small state
  machine: a stopwatch, a minimum-time gate, range and plausibility checks,
  one score per accepted step, and a 0..100 result.
- **Aggregates.** The results screen averages the four categories, and the
  progress screen builds per-category series over the stored history and
  averages them.
- **Forms.** The BMI and its category, the physical-data form, the
  registration form, the credential-recovery form and the motivational
  message each have their rules.
- **State.** An in-memory user store and the test menu's write-once
  completion flags.

Each source file has its own module. Shared pieces sit in their own
modules:

- `JsMath`: `Math.round`, clamping and sums.
- `TextRules`: JavaScript white space, trimming, ASCII upper-casing, and
  the e-mail and student-ID patterns.
- `Bmi`: the BMI formula and `toFixed(2)`.
- `Wrappers`: `Option`.

Modelling conventions:

- **Numbers are unbounded reals.** `Math.round(x)` is `(x + 0.5).Floor`,
  so halves round towards +infinity, as in JavaScript.
- **Text boxes.** A number read from a text box is an `Option<real>`;
  `None` stands for the empty text or for `NaN`.
- **Strength stopwatch.** It counts tenths of a second as an integer. The
  source's `+(prev + 0.1).toFixed(1)` tick is exact on tenths.
- **Screens with state.** Each such screen is a class: fields are the
  React state, and methods are its handlers and timer ticks.
- **Callbacks.** `onFinish` is the outcome a handler returns.
- **Leaving the screen.** `navigation.goBack()` ends a session; a finished
  session is not called again (`requires !Done()`).

Two behaviours of the code, kept as written:

- **Lateral-flexion rubric.** For 14 < v < 14.25 cm it gives 4 points, not
  the 5..7 of its own band comment. The reason is that `Math.round(-0.6)`
  is -1. `Flexibility.LateralScore` states 4..7 on (14, 18] and 5..7 from
  14.25 cm on.
- **Endurance screen.** The confirm button and the distance field are
  enabled only after the 60-second unlock and while the stopwatch is
  stopped. Only a successful confirm stops the stopwatch, so once it runs
  the screen offers no way to reach either. The handlers themselves check
  neither condition, so `Resistance.ResistanceTest.Confirm` and
  `Resistance.ResistanceTest.Enter` model them as callable in any state,
  and `Resistance.ResistanceTest.ConfirmEnabled` states the button
  condition separately.

## Model

| member | source | states |
|---|---|---|
| JsMath.Round | src/screens/StrengthTestScreen.tsx:26 | `Math.round` gives the integer within half a unit of x, halves going up |
| JsMath.RoundMonotonic | src/screens/SpeedTestScreen.tsx:34 | rounding never reverses an order, which every monotonicity proof uses |
| JsMath.Clamp | src/screens/FlexibilityTestScreen.tsx:48 | `Math.min(Math.max(x, lo), hi)` lies in [lo, hi], is x inside it, and is lo below and hi above |
| JsMath.Total | src/screens/StrengthTestScreen.tsx:195 | `reduce((a, b) => a + b, 0)` over integer scores (a definition; JsMath.TotalBounds bounds it) |
| JsMath.TotalBounds | src/screens/StrengthTestScreen.tsx:195 | a sum of n integer scores in lo..hi lies in n*lo..n*hi (by induction) |
| JsMath.Sum | src/screens/ProgressScreen.tsx:120 | `reduce((a, b) => a + b, 0)` over reals (a definition; JsMath.SumPermutation and Progress.AvgBounds state its properties) |
| JsMath.SumPermutation | src/screens/ResultsScreen.tsx:10-12 | a sum of reals does not depend on the order of its terms (by induction) |
| Strength.TimeScore | src/screens/StrengthTestScreen.tsx:21-27 | the generic time rubric is in 0..10, is 10 up to tOpt and 0 from tLim on |
| Strength.TimeScoreBetween | src/screens/StrengthTestScreen.tsx:26 | strictly between tOpt and tLim the score is round((tLim - t)/(tLim - tOpt)*10) |
| Strength.TimeScoreNonIncreasing | src/screens/StrengthTestScreen.tsx:21-59 | a longer time never scores more, for each of the five rubrics |
| Strength.PushUpsScore | src/screens/StrengthTestScreen.tsx:21-27 | 0..10; full marks up to 20 s, nothing from 45 s |
| Strength.SquatsScore | src/screens/StrengthTestScreen.tsx:29-35 | 0..10; full marks up to 25 s, nothing from 50 s |
| Strength.PullUpsScore | src/screens/StrengthTestScreen.tsx:37-43 | 0..10; full marks up to 15 s, nothing from 40 s |
| Strength.DipsScore | src/screens/StrengthTestScreen.tsx:45-51 | 0..10; full marks up to 20 s, nothing from 45 s |
| Strength.DeadliftScore | src/screens/StrengthTestScreen.tsx:53-59 | 0..10; full marks up to 20 s, nothing from 45 s |
| Strength.ExerciseAt | src/screens/StrengthTestScreen.tsx:74-130 | the exercise table: name, repetitions and minimum time of the five exercises, in order (a definition, no contract) |
| Strength.ExerciseScore | src/screens/StrengthTestScreen.tsx:74-130 | each exercise's rubric on its time in tenths: 0..10, full marks at or below the exercise's minimum time (the minimum is the rubric's optimum), nothing from 50 s on |
| Strength.FinalScore | src/screens/StrengthTestScreen.tsx:195-198 | round(sum/5*10) (a definition; Strength.FinalScoreRange states its value and range) |
| Strength.FinalScoreRange | src/screens/StrengthTestScreen.tsx:195-198 | five scores in 0..10 give round(sum/5*10) = 2*sum, in 0..100 |
| Strength.StrengthTest.Done | src/screens/StrengthTestScreen.tsx:193-200 | all five scores are recorded, after which the screen is left (a definition) |
| Strength.StrengthTest.constructor | src/screens/StrengthTestScreen.tsx:62-65 | a session starts at exercise 0 with no scores, time 0 and the stopwatch stopped |
| Strength.StrengthTest.Start | src/screens/StrengthTestScreen.tsx:160-163 | starting resets the time to 0 and runs the stopwatch, leaving scores and exercise unchanged |
| Strength.StrengthTest.Tick | src/screens/StrengthTestScreen.tsx:136-140 | each tick adds one tenth of a second while running |
| Strength.StrengthTest.OpenHelp | src/screens/StrengthTestScreen.tsx:149-152 | opening the help pauses the stopwatch and changes nothing else |
| Strength.StrengthTest.NextEnabled | src/screens/StrengthTestScreen.tsx:220-228 | the next button is shown only while running and is enabled from the exercise's minimum time on (a definition; Strength.StrengthTest.Next states that an enabled press is never refused) |
| Strength.StrengthTest.Next | src/screens/StrengthTestScreen.tsx:165-230 | under the minimum nothing changes; otherwise the stopwatch stops and exactly one score is appended; then the next exercise starts at time 0, or after the fifth the 0..100 result is returned; a press on the enabled button is never refused |
| Speed.SpeedScore | src/screens/SpeedTestScreen.tsx:25-35 | 10 up to 6 s, exactly 8 on (6, 8], at most 8 after 8 s, 0 from 12 s, always 0..10 |
| Speed.SpeedScoreBetween | src/screens/SpeedTestScreen.tsx:34 | on (8, 12) the score is round((12 - t)/4*8) |
| Speed.SpeedScoreAtTen | src/screens/SpeedTestScreen.tsx:34 | 10 s scores 4 |
| Speed.SpeedScoreNonIncreasing | src/screens/SpeedTestScreen.tsx:25-35 | a slower time never scores more |
| Speed.FinalScore | src/screens/SpeedTestScreen.tsx:82-83 | the result is the rubric times ten: a multiple of 10 in 0..100 |
| Speed.SpeedTest.constructor | src/screens/SpeedTestScreen.tsx:39-40 | the stopwatch starts stopped at 0 |
| Speed.SpeedTest.Start | src/screens/SpeedTestScreen.tsx:65-67 | starting runs the stopwatch from 0 (it is at 0 whenever stopped) |
| Speed.SpeedTest.Tick | src/screens/SpeedTestScreen.tsx:49-51 | each tick adds one second while running |
| Speed.SpeedTest.ConfirmEnabled | src/screens/SpeedTestScreen.tsx:117-124 | the confirm button is enabled while running from 6 s on (a definition; Speed.SpeedTest.Confirm finishes exactly when it holds) |
| Speed.SpeedTest.Confirm | src/screens/SpeedTestScreen.tsx:69-91 | refused when not running or under 6 s, with nothing changed; otherwise the scaled score is returned and stopping resets the timer to 0; it finishes exactly when the confirm button is enabled |
| Flexibility.HamstringScore | src/screens/FlexibilityTestScreen.tsx:47-67 | clamped to [0, 45]: 0 at 0 cm, the commented bands 1-2/3-4/5-7/8-9, 10 above 34 cm, always 0..10 |
| Flexibility.VSitScore | src/screens/FlexibilityTestScreen.tsx:79-99 | clamped to [0, 35]: 0 at 0 cm, bands 1-2/3-4/5-7/8-9, 10 above 30 cm, always 0..10 |
| Flexibility.LateralScore | src/screens/FlexibilityTestScreen.tsx:111-131 | clamped to [0, 30]: 0 up to 4 cm, bands 1-2/3-4, then 4-7 on (14, 18] (5-7 from 14.25), 8-9, 10 above 25 cm |
| Flexibility.BackScratchScore | src/screens/FlexibilityTestScreen.tsx:143-147 | clamped to [0, 15]: 10 at 0 cm or less, 0 from 15 cm, always 0..10 |
| Flexibility.BackScratchPoints | src/screens/FlexibilityTestScreen.tsx:146 | 0 cm gives 10, 7.5 cm gives 5 and 15 cm gives 0 |
| Flexibility.HamstringNonDecreasing | src/screens/FlexibilityTestScreen.tsx:47-67 | more reach never scores less |
| Flexibility.VSitNonDecreasing | src/screens/FlexibilityTestScreen.tsx:79-99 | more reach never scores less |
| Flexibility.LateralNonDecreasing | src/screens/FlexibilityTestScreen.tsx:111-131 | more reach never scores less, across the JS rounding of each band |
| Flexibility.BackScratchNonIncreasing | src/screens/FlexibilityTestScreen.tsx:143-147 | a larger gap never scores more |
| Flexibility.StretchAt | src/screens/FlexibilityTestScreen.tsx:36-149 | the stretch table: name and accepted centimetre range of the four stretches, in order (a definition, no contract) |
| Flexibility.StretchScore | src/screens/FlexibilityTestScreen.tsx:151-152 | the rubric of the current stretch is in 0..10 |
| Flexibility.FinalScore | src/screens/FlexibilityTestScreen.tsx:187-189 | round(sum/4*10) (a definition; Flexibility.FinalScoreRange states its range) |
| Flexibility.FinalScoreRange | src/screens/FlexibilityTestScreen.tsx:187-189 | four scores in 0..10 give round(sum/4*10), in 0..100 |
| Flexibility.FlexibilityTest.Done | src/screens/FlexibilityTestScreen.tsx:185-191 | all four scores are recorded, after which the screen is left (a definition) |
| Flexibility.FlexibilityTest.constructor | src/screens/FlexibilityTestScreen.tsx:28-30 | a session starts at the first stretch with an empty entry and no scores |
| Flexibility.FlexibilityTest.Enter | src/screens/FlexibilityTestScreen.tsx:221 | typing replaces the entry and nothing else |
| Flexibility.FlexibilityTest.Next | src/screens/FlexibilityTestScreen.tsx:164-193 | NaN or out of [minCm, maxCm] is refused with nothing changed; otherwise exactly one score is appended and the entry cleared, then the next stretch or the 0..100 result |
| Resistance.SpeedBandScore | src/screens/ResistanceTestScreen.tsx:37-55 | 10 from 6 m/s, 7-9 on [4, 6), 4-6 on [3, 4), 1-3 on [2, 3), 0 below 2, always 0..10 |
| Resistance.ResistanceScore | src/screens/ResistanceTestScreen.tsx:37-38 | the rubric of distance/time: 10 when distance >= 6*time, 0 when below 2*time |
| Resistance.SpeedBandNonDecreasing | src/screens/ResistanceTestScreen.tsx:37-55 | a faster average never scores less |
| Resistance.ExampleFourMetresPerSecond | src/screens/ResistanceTestScreen.tsx:120-121 | 240 m in 60 s gives 70 |
| Resistance.ResistanceTest.constructor | src/screens/ResistanceTestScreen.tsx:58-61 | empty distance, timer 0, stopped, distance entry locked |
| Resistance.ResistanceTest.Start | src/screens/ResistanceTestScreen.tsx:70-79 | clears the distance, sets the timer to 0, runs, relocks the entry; confirm is disabled |
| Resistance.ResistanceTest.Tick | src/screens/ResistanceTestScreen.tsx:76-90 | one second more; the entry unlocks once the timer reaches 60 and stays unlocked |
| Resistance.ResistanceTest.Enter | src/screens/ResistanceTestScreen.tsx:147-156 | typing replaces the distance and nothing else |
| Resistance.ResistanceTest.ConfirmEnabled | src/screens/ResistanceTestScreen.tsx:169-176 | the confirm button, like the distance field, is enabled after the unlock while stopped (a definition; Start and Tick state that it is off while running) |
| Resistance.ResistanceTest.Confirm | src/screens/ResistanceTestScreen.tsx:97-128 | refused before the 60 s unlock, for NaN or non-positive distance, and above 8 m/s; otherwise the rubric times ten, a multiple of 10 in 0..100 |
| Resistance.ExampleImplausibleRun | src/screens/ResistanceTestScreen.tsx:108-117 | 1000 m after 60 ticks is refused as incoherent |
| Progress.SortedByFecha | src/screens/ProgressScreen.tsx:88 | the order the comparator asks for: dates ascending (a definition; Progress.SortByFecha establishes it) |
| Progress.SortByFecha | src/screens/ProgressScreen.tsx:88 | the history is sorted ascending by date, in place, and is a permutation of the input |
| Progress.Avg | src/screens/ProgressScreen.tsx:119-120 | the average of an empty series is 0 |
| Progress.AvgBounds | src/screens/ProgressScreen.tsx:119-120 | a series of values in 0..100 averages into 0..100 |
| Progress.GeneralAvg | src/screens/ProgressScreen.tsx:127 | four averages in 0..100 give a general average in 0..100 |
| Progress.ComputeChartData | src/screens/ProgressScreen.tsx:99-127 | every series has the history's length, its i-th entry is the i-th day's field, the averages are those of the series, the general average is 0 for no history and 0..100 for in-range scores |
| Progress.LoadProgress | src/screens/ProgressScreen.tsx:79-127 | the history is sorted and permuted in place, then charted in that order, with each series' average and the general average (0 for no history, 0..100 for in-range scores) |
| Results.Promedio | src/screens/ResultsScreen.tsx:10-12 | four category results in 0..100 give an overall result in 0..100 |
| Results.PromedioExamples | src/screens/ResultsScreen.tsx:10-12 | [80, 60, 70, 90] gives 75; all 100 gives 100; all 0 gives 0 |
| Results.PromedioOrderIndependent | src/screens/ResultsScreen.tsx:10-12 | any reordering of the four results gives the same overall result |
| Bmi.Round2 | src/screens/PhysicalEvaluationScreen.tsx:60 | `toFixed(2)` read back is a whole number of hundredths within half a hundredth of the value, which determines it |
| Bmi.Round2Monotonic | src/screens/PhysicalEvaluationScreen.tsx:60 | two-decimal rounding never reverses an order |
| Bmi.Exact | src/screens/PhysicalEvaluationScreen.tsx:57-60 | weight over the square of the height in metres, before rounding (a definition) |
| Bmi.Compute | src/screens/PhysicalEvaluationScreen.tsx:56-64 | a BMI exists exactly when weight and height parse to positive numbers, and it is the formula p/(h/100)^2 to two decimals |
| Bmi.ComputeNearExact | src/screens/InputDataScreen.tsx:13-18 | the shown BMI is within 0.005 of the exact formula |
| Bmi.ExampleSeventyKilos | src/screens/InputDataScreen.tsx:13-18 | 70 kg at 175 cm shows 22.86 |
| PhysicalEvaluation.Category | src/screens/PhysicalEvaluationScreen.tsx:67-77 | empty exactly when there is no positive BMI; else Bajo peso below 18.5, Peso normal below 25, Sobrepeso below 30, Obesidad from 30 |
| PhysicalEvaluation.CategoryMonotonic | src/screens/PhysicalEvaluationScreen.tsx:70-74 | a higher positive BMI never falls into a lower category |
| PhysicalEvaluation.CategoryOfRoundedValue | src/screens/PhysicalEvaluationScreen.tsx:60-71 | the category is read from the two-decimal value: 18.497 shows 18.50 and is Peso normal |
| PhysicalEvaluation.MeasureProblem | src/screens/PhysicalEvaluationScreen.tsx:87-88 | a measurement passes exactly when it is a number in (0, max] |
| PhysicalEvaluation.Problem | src/screens/PhysicalEvaluationScreen.tsx:87-107 | each field's rule and its message, None when it passes (a definition; the lemmas below state its properties) |
| PhysicalEvaluation.Accepted | src/screens/PhysicalEvaluationScreen.tsx:87-113 | the forms that get through, stated field by field (a definition; PhysicalEvaluation.NoProblemIffAccepted ties it to the rules) |
| PhysicalEvaluation.Required | src/screens/PhysicalEvaluationScreen.tsx:93-104 | a choice passes exactly when it is not empty, else its message |
| PhysicalEvaluation.NoProblemIffAccepted | src/screens/PhysicalEvaluationScreen.tsx:87-107 | no rule fires exactly when every measurement is in range, every choice is made, and the goal (and the exercise type when exercising) is not blank |
| PhysicalEvaluation.ExerciseTypeOnlyWhenExercising | src/screens/PhysicalEvaluationScreen.tsx:105-106 | the exercise type is required only when the answer is Sí |
| PhysicalEvaluation.MeasurementErrors | src/screens/PhysicalEvaluationScreen.tsx:87-99 | weight, height, waist and hip get an entry exactly when out of range, with the rule's message |
| PhysicalEvaluation.SelectionErrors | src/screens/PhysicalEvaluationScreen.tsx:93-104 | each unmade choice gets exactly its message |
| PhysicalEvaluation.AnswerErrors | src/screens/PhysicalEvaluationScreen.tsx:105-107 | the blank goal, and the blank exercise type of someone who exercises, get their messages |
| PhysicalEvaluation.ValidateAndContinue | src/screens/PhysicalEvaluationScreen.tsx:79-116 | a field has an error exactly when its rule fails, with that rule's message; the screen moves on, carrying the BMI, exactly when there is none |
| PhysicalEvaluation.AcceptedHasBmi | src/screens/PhysicalEvaluationScreen.tsx:56-91 | an accepted form always has a BMI |
| PhysicalEvaluation.TinyWeightHasNoCategory | src/screens/PhysicalEvaluationScreen.tsx:60-70 | an accepted form can still show BMI 0.00 and no category (0.01 kg at 215 cm) |
| InputData.Parsed | src/screens/InputDataScreen.tsx:13-14 | `parseFloat` of the empty text gives no number (a definition; InputData.SubmitIffPositive assumes it) |
| InputData.ShownImc | src/screens/InputDataScreen.tsx:12-22 | the BMI text is set exactly when both parsed values are positive, and cleared otherwise |
| InputData.HandleSubmit | src/screens/InputDataScreen.tsx:24-31 | refused while weight, height or BMI is empty; otherwise it moves on with the BMI |
| InputData.SubmitIffPositive | src/screens/InputDataScreen.tsx:13-28 | submission succeeds exactly when both parsed values are positive: the emptiness checks are implied |
| InputData.NonNumericBlocks | src/screens/InputDataScreen.tsx:16-28 | non-numeric text blocks submission |
| TextRules.IsSpace | src/screens/RegisterScreen.tsx:46-51 | the characters JavaScript's `\s` and `trim()` treat as white space or line terminators (a definition) |
| TextRules.IsBlank | src/screens/RegisterScreen.tsx:46-48 | `!s.trim()`: the empty text is blank, and a text with any character outside JavaScript white space is not |
| TextRules.IsMatricula | src/screens/RegisterScreen.tsx:55 | `/^ZS\d{8}$/i`; an accepted ID has no white space and no @ |
| TextRules.IsEmail | src/screens/RegisterScreen.tsx:51 | `/^[^\s@]+@[^\s@]+\.[^\s@]+$/`; an accepted address has at least five characters, an @ and a dot |
| TextRules.UpperChar | src/services/UserService.ts:39 | a lower-case ASCII letter becomes its own capital (code minus 32); capitals result exactly from ASCII letters; everything else is left alone |
| TextRules.Upper | src/services/UserService.ts:39 | `toUpperCase()` as UpperChar applied to each character (a definition; TextRules.SameIgnoringCaseIff states its effect on comparisons) |
| TextRules.SameIgnoringCase | src/services/UserService.ts:39-46 | `a.toUpperCase() === b.toUpperCase()` (a definition; TextRules.SameIgnoringCaseIff characterises it) |
| TextRules.SameIgnoringCaseIff | src/services/UserService.ts:39 | equal after upper-casing exactly when of equal length and equal letter by letter up to case |
| TextRules.MatriculaUpToCase | src/screens/RegisterScreen.tsx:55 | a valid student ID upper-cases to ZS..., and any text equal to it up to case is valid too |
| TextRules.EmailHasOneAt | src/screens/RegisterScreen.tsx:51 | an accepted address has exactly one @ and no white space |
| TextRules.EmailExampleAccepted | src/screens/RegisterScreen.tsx:51 | jeshua@example.com passes the address pattern |
| TextRules.EmailExamplesRejected | src/screens/RegisterScreen.tsx:51 | a@b (no dot in the domain) and @example.com (empty local part) fail it |
| TextRules.MatriculaIsNotEmail | src/screens/RecoverCredentialsScreen.tsx:43-46 | a student ID never also passes as an address |
| Users.SeedUser | src/services/UserService.ts:20-30 | the seed account, field by field (a definition) |
| Users.CredentialsMatch | src/services/UserService.ts:39 | the ID equal up to case and the password exactly equal (a definition) |
| Users.AnyMatch | src/services/UserService.ts:37-41 | true exactly when some user's ID matches up to case and the password matches exactly |
| Users.FirstById | src/services/UserService.ts:44-48 | the first index whose ID matches up to case, and none exactly when no ID matches |
| Users.FirstByIdStable | src/services/UserService.ts:33-48 | appending a user never changes an existing lookup result (by induction) |
| Users.UserService.constructor | src/services/UserService.ts:18-31 | the store holds exactly the seed user |
| Users.UserService.AddUser | src/services/UserService.ts:33-35 | appends at the end with no duplicate check; the new credentials validate; an existing lookup is unchanged |
| Users.UserService.ValidateCredentials | src/services/UserService.ts:37-41 | true exactly when some stored user matches the ID up to case and the password exactly |
| Users.UserService.GetUserByMatricula | src/services/UserService.ts:44-48 | the first user whose ID matches up to case; undefined exactly when there is none |
| Users.SeedAccountLogsIn | src/services/UserService.ts:18-41 | after construction ZS24000001 / abc123456 validates, and so does the lower-case ID |
| Register.NewUser | src/screens/RegisterScreen.tsx:64-74 | the new account keeps the typed fields, with empty career, semester and sex |
| Register.Message | src/screens/RegisterScreen.tsx:46-58 | each field's error message (a definition) |
| Register.FieldOk | src/screens/RegisterScreen.tsx:46-58 | each field's rule: names not blank after trimming, address and ID patterns, password length 6..15, confirmation equal (a definition; Register.Validate ties it to the error map) |
| Register.NameErrors | src/screens/RegisterScreen.tsx:46-48 | each name blank after trimming gets Campo requerido |
| Register.AccountErrors | src/screens/RegisterScreen.tsx:50-58 | address, ID, password length 6..15 and confirmation each get their message exactly when they fail |
| Register.Accepted | src/screens/RegisterScreen.tsx:46-61 | the forms that get through: every field rule holds (a definition; Register.Validate ties it to the error map) |
| Register.Validate | src/screens/RegisterScreen.tsx:43-61 | a field has an error exactly when its rule fails, with that rule's message; no error exactly when the form is accepted |
| Register.ValidateAndRegister | src/screens/RegisterScreen.tsx:43-77 | the account is appended exactly when there is no error, after which its credentials validate; otherwise the store is unchanged |
| Register.AcceptedAccount | src/screens/RegisterScreen.tsx:46-58 | an accepted form yields a 10-character ID upper-casing to ZS, a 6..15 password equal to its confirmation, one @ in the address, non-blank names |
| Recover.ValidateAndSend | src/screens/RecoverCredentialsScreen.tsx:36-50 | sent exactly when the input is not blank and is an address or a student ID; the error is empty exactly when sent, else the blank or invalid message |
| Recover.PatternsAreNotBlank | src/screens/RecoverCredentialsScreen.tsx:38-46 | every text either pattern accepts is sent: the blank check never rejects it |
| Recover.UntrimmedIdRefused | src/screens/RecoverCredentialsScreen.tsx:44-46 | the patterns see the untrimmed text: " ZS24000001" is refused while "zs24000001" is sent |
| PruebasMenu.Marked | src/screens/PruebasMenuScreen.tsx:21-23 | marking sets that category's flag and leaves the others unchanged |
| PruebasMenu.AllDone | src/screens/PruebasMenuScreen.tsx:15 | `Object.values(completadas).every(Boolean)`: every flag is set (a definition; PruebasMenu.AllDoneIffEveryCategory characterises it) |
| PruebasMenu.MarkedKeepsFlags | src/screens/PruebasMenuScreen.tsx:7-23 | marking never clears a flag, and marking twice is marking once |
| PruebasMenu.MarkAllSets | src/screens/PruebasMenuScreen.tsx:21-23 | after a sequence of marks a flag is set exactly when it was set before or was marked (by induction) |
| PruebasMenu.AllDoneIffEveryCategory | src/screens/PruebasMenuScreen.tsx:7-19 | from the all-false start, all flags are set exactly when every category has reported |
| PruebasMenu.Menu.constructor | src/screens/PruebasMenuScreen.tsx:7-12 | all four flags start false and every button is enabled |
| PruebasMenu.Menu.ButtonEnabled | src/screens/PruebasMenuScreen.tsx:36-55 | a category's button is enabled while its flag is not set (a definition; the constructor and MarcarCompletada state how it changes) |
| PruebasMenu.Menu.MarcarCompletada | src/screens/PruebasMenuScreen.tsx:14-53 | sets exactly that flag and disables its button; the move to the motivational screen fires exactly when all flags are set |
| PruebasMenu.Menu.OnFinish | src/screens/PruebasMenuScreen.tsx:25-28 | the score a test reports is dropped; only completion is recorded |
| PruebasMenu.RunInOrder | src/screens/PruebasMenuScreen.tsx:14-28 | on a fresh menu, the move fires after a report exactly when every category has reported by then |
| Motivational.Puntaje | src/screens/MotivationalScreen.tsx:16-17 | strength x1.5 + flexibility x1.2 + endurance x10 - speed x2 (a definition; Motivational.TierMonotonic and Motivational.SimulatedIsMiddle state its properties) |
| Motivational.TierOf | src/screens/MotivationalScreen.tsx:19-21 | exactly one tier: top from 100, middle on [70, 100), base below 70 |
| Motivational.MessageOf | src/screens/MotivationalScreen.tsx:19-21 | the message of each tier (a definition) |
| Motivational.GenerarMensaje | src/screens/MotivationalScreen.tsx:12-22 | the top, middle or base message exactly when the weighted score is >= 100, in [70, 100), or < 70 |
| Motivational.TierMonotonic | src/screens/MotivationalScreen.tsx:16-21 | more strength, flexibility or endurance, or a shorter speed time, never lowers the tier |
| Motivational.SimulatedIsMiddle | src/screens/MotivationalScreen.tsx:5-21 | the built-in sample scores 78.6 and gets the middle message |

## Left out

- Timers, alerts, navigation, modals and links. Intervals become explicit
  `Tick` calls. `Alert` messages become outcome values. `navigation.goBack`
  becomes "the session is over". `Linking.openURL` and the help modal's
  contents are not modelled.
- Floating-point arithmetic. All arithmetic is exact over reals, so
  binary rounding of doubles such as `(12 - t) / 4 * 8` is not modelled.
- `toFixed` is modelled only as the numeric value it prints, not as text.
  `Bmi.Round2` rounds half up to hundredths of the exact value, ignoring the
  binary representation of the double.
- Text parsing. `parseFloat` and `Number` differ on text such as "70kg"
  or "  ". The model gives each field one parsed value (`Option<real>`),
  shared by the BMI and the validation.
- Regular-expression engines. The e-mail and student-ID patterns are
  written out as string predicates.
- `toUpperCase` is modelled for ASCII letters only, because non-ASCII
  case mapping is a Unicode table.
- Password length counts characters, not the UTF-16 code units of
  `String.length`.
- Progress dates:
  - `new Date(fecha)` is modelled as an integer key;
  - the "day/month" chart labels are the keys themselves;
  - the AsyncStorage load and the chart rendering are not modelled;
  - `Progress.SortByFecha` proves sorted and a permutation, but not that
    equal dates keep their order, which JavaScript's `sort` also
    guarantees.
- `Bmi.Compute` is not proved monotone in weight or height. That
  property needs nonlinear real arithmetic, which the proofs avoid.
- The menu waits 800 ms before it replaces itself with the motivational
  screen. The delay is not modelled; `toMotivational` marks the moment the
  effect schedules the move.
- Resistance.ResistanceTest.Tick models the intended one-second interval.
  In the source, `handleStart` (src/screens/ResistanceTestScreen.tsx:70-79)
  creates the interval, and the effect's cleanup (lines 91-93) clears it on
  the very next render, because `isRunning` is one of the effect's
  dependencies. So the timer as written never leaves 0, and the 60-second
  unlock (lines 87-90) is never reached. The model does not capture that
  lost interval.
- `Resistance.ResistanceScore` requires a positive time. The screen only
  divides after the 60-second unlock, and the rubric's behaviour for a
  zero time (an infinite or NaN speed) is not modelled.
- `Strength.StrengthTest.Next` and `Flexibility.FlexibilityTest.Next`
  require an unfinished session. After the last step the source leaves
  the screen.
- These files are not part of this model:
  - src/services/ApiService.ts, src/services/RoutineService.ts and
    src/utils/TokenManager.ts: network, storage and token plumbing.
  - src/screens/EvaluationScreen.tsx: its results come from
    `Math.random`.
  - src/screens/LoginScreen.tsx: it calls an `authenticate` that
    UserService does not define. Only `validateCredentials` is modelled.
  - The remaining screens, navigation, components and configuration
    carry no logic of their own.
