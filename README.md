# Fitness tracker calculations and forms, in Dafny

This project models the computational core of a small fitness-tracking web
application. The core lives in five React view components:

- **Calorie calculator** (`CalorieCalculator.tsx`):
  - the age from a birth date;
  - the basal metabolic rate (BMR), by the Mifflin-St Jeor equation;
  - a table of MET values and the calories an exercise session burns;
  - a goal-directed performance score from 1 to 100, with its colour band;
  - the recalculation that fills the view's four displayed values.
- **Progress dashboard** (`ProgressDashboard.tsx`):
  - its own copy of the BMR formula;
  - the per-day rows of burned and net calories;
  - goal progress, weekly averages, the days-to-goal estimate and today's net balance.
- **Workout list** (`MyWorkouts.tsx`):
  - the fixed list of fourteen sample workouts;
  - the inclusive date-range filter;
  - the in-place sort, newest first;
  - the totals and the average weight.
- **Registration form** (`RegisterPage.tsx`):
  - per-field validation into an error dictionary, including the email pattern;
  - the normalised record that is submitted;
  - the single-field update on input.
- **Profile form** (`ProfilePage.tsx`):
  - validation with an optional password;
  - the update record that is sent;
  - the clearing of the password after a successful update;
  - the goal label and the single-field update.

Modelling conventions:

- Numbers are exact rationals (`real`).
- A value JavaScript would make NaN is `None`. This covers a failed `parseFloat`, an invalid `Date`, and arithmetic on either.
- `Math.round` is `Floor(x + 1/2)`, so halves go up.
- "Today" is always a parameter.
- The GOAL field is one `Goals.Goal` datatype covering both vocabularies: 'lose weight' / 'gain weight' / 'maintain weight' and 'weight_loss' / 'muscle_gain'. Any other string is kept as `Other`.
- Workout dates in the list are day numbers counted from 1970-01-01.
- Strings are `seq<char>`. White space is the ECMAScript set matched by `trim` and `\s`.

Module layout:

| file | module |
|---|---|
| `common.dfy` | Option, rounding and sums |
| `text.dfy` | trim and lower-casing |
| `goals.dfy` | the goal vocabulary |
| `calorie_calculator.dfy` | the calorie calculator |
| `progress_dashboard.dfy` | the progress dashboard |
| `my_workouts.dfy` | the workout list |
| `register_page.dfy` | the registration form |
| `profile_page.dfy` | the profile form |

Imperative code is modelled as methods:

- The workout sort is an insertion sort on an `array`.
- The dashboard's day loop is a `while` loop.
- Each form's `validateForm` is a method that fills a map check by check, in the source's order. It is proved equal, field by field, to a declarative `FieldError` function.

## Model

| member | source | states |
|---|---|---|
| Common.JsRound | src/components/CalorieCalculator.tsx:57 | Math.round gives the integer within half a unit of x, with halves going up |
| Common.RoundShift | src/components/CalorieCalculator.tsx:51-57 | rounding commutes with adding a whole number |
| Common.RoundMonotonic | src/components/CalorieCalculator.tsx:87 | rounding never reverses an order |
| Common.RoundInRange | src/components/CalorieCalculator.tsx:183 | a value within half a unit of [lo, hi] rounds into [lo, hi] |
| Common.SumOfAppend | src/components/MyWorkouts.tsx:251-253 | a reduce-sum over a concatenation is the sum of the two sums |
| Common.SumOfPermutation | src/components/MyWorkouts.tsx:251-253 | a reduce-sum does not depend on the order of its terms |
| Common.SumOfBounds | src/components/MyWorkouts.tsx:257-258 | n terms within [lo, hi] sum to within [n*lo, n*hi] |
| Common.SumOfNonNegative | src/components/ProgressDashboard.tsx:129 | a sum of non-negative terms is non-negative |
| Common.MeanBounds | src/components/MyWorkouts.tsx:257-258 | a mean of terms within [lo, hi] lies within [lo, hi] |
| Common.SubsequenceOfItself | src/components/MyWorkouts.tsx:201 | a list is a subsequence of itself (the unfiltered case) |
| Text.SkipSpace | src/components/RegisterPage.tsx:51 | the first position from i that does not hold white space: everything before it from i is white space |
| Text.BackSpace | src/components/RegisterPage.tsx:51 | the position after the last character that is not white space: everything after it up to j is white space |
| Text.TrimSplits | src/components/RegisterPage.tsx:51 | trim cuts a string into white space, a core that neither starts nor ends with white space, and white space |
| Text.TrimEmptyIffAllSpace | src/components/RegisterPage.tsx:51-52 | `!s.trim()` holds exactly when s is all white space (empty included) |
| Text.TrimIdempotent | src/components/RegisterPage.tsx:85-91 | trimming a trimmed string changes nothing |
| Text.TrimNoop | src/components/RegisterPage.tsx:87 | a string that neither starts nor ends with white space is its own trim |
| Text.ToLower | src/components/RegisterPage.tsx:87 | same length; each character is lower-cased on its own |
| Text.LowerCharSpace | src/components/RegisterPage.tsx:87 | lower-casing neither creates nor removes white space |
| Text.ToLowerIdempotent | src/components/RegisterPage.tsx:87 | lower-casing twice is lower-casing once |
| Text.TrimToLower | src/components/RegisterPage.tsx:87 | trim and lower-case commute |
| Goals.Parse | src/components/CalorieCalculator.tsx:104-181 | a stored GOAL string maps to a well-formed goal; it is Other exactly when it is none of the five known strings |
| Goals.NameOfParse | src/components/ProgressDashboard.tsx:153-154 | reading a stored goal loses nothing: its name is the string |
| Goals.ParseOfName | src/components/ProgressDashboard.tsx:190-191 | every well-formed goal is read back from its name |
| CalorieCalculator.Age | src/components/CalorieCalculator.tsx:31-40 | the age is the year difference, or one less exactly when (month, day) today is before the birthday's (month, day) |
| CalorieCalculator.AgeIsWholeYears | src/components/CalorieCalculator.tsx:31-40 | the age is the number of whole years lived: birthday n is reached exactly when n is at most the age |
| CalorieCalculator.Bmr | src/components/CalorieCalculator.tsx:43-58 | 0 when weight, height or birth date is unreadable; otherwise the rounded Mifflin-St Jeor value, +5 when the gender lower-cases to "male" and -161 otherwise |
| CalorieCalculator.MifflinStJeor | src/components/CalorieCalculator.tsx:51-55 | the published equation the BMR is stated against; the equation for men is exactly 166 above the one for everyone else |
| CalorieCalculator.BmrSexDifference | src/components/CalorieCalculator.tsx:51-57 | for the same body and date the male BMR is exactly 166 above any other gender's |
| CalorieCalculator.BmrMonotonic | src/components/CalorieCalculator.tsx:43-58 | heavier, taller or younger never lowers the BMR |
| CalorieCalculator.BmrExamples | src/components/CalorieCalculator.tsx:43-58 | 70 kg, 175 cm, 30 years, "Male" gives 1649; 60 kg, 165 cm, 25 years, "female" gives 1345 |
| CalorieCalculator.MetValue | src/components/CalorieCalculator.tsx:61-75 | the table's value for the ten listed exercises, 3.5 for every other key; always positive |
| CalorieCalculator.CaloriesBurned | src/components/CalorieCalculator.tsx:78-88 | 0 when weight or duration is unreadable, 0 for zero minutes, never negative for non-negative inputs |
| CalorieCalculator.CaloriesBurnedMonotonic | src/components/CalorieCalculator.tsx:78-88 | for a non-negative weight, more minutes never burn fewer calories |
| CalorieCalculator.CaloriesBurnedExamples | src/components/CalorieCalculator.tsx:78-88 | running 30 min at 80 kg burns 412; an unlisted exercise for 60 min at 70 kg burns 257 |
| CalorieCalculator.Net | src/components/CalorieCalculator.tsx:99 | the net balance is what the intake leaves after the BMR and the exercise: net + BMR + burned = intake |
| CalorieCalculator.DirectedScore | src/components/CalorieCalculator.tsx:110-128 | the four bands for a balance in the goal's direction, as written: never below 1, and at least 196 in the excellent band 500..750 |
| CalorieCalculator.ExcellentBandAsWritten | src/components/CalorieCalculator.tsx:115 | the excellent-band formula as written (numerator 750): at least 196 everywhere in 500..750 |
| CalorieCalculator.ExcellentBandScore | src/components/CalorieCalculator.tsx:114-115 | the excellent band as its comment describes it (numerator 125): within 76..100 over 500..750 |
| CalorieCalculator.WrongWayScore | src/components/CalorieCalculator.tsx:109 | a surplus when losing (or a deficit when gaining) scores in [1, 25) |
| CalorieCalculator.MaintainScore | src/components/CalorieCalculator.tsx:160-175 | a deviation up to 50 / 150 / 300 / beyond scores within [76, 100] / [51, 76) / [26, 51) / [1, 25) before rounding |
| CalorieCalculator.RawScore | src/components/CalorieCalculator.tsx:104-181 | the goal switch as written: never below 1, and 50 for every goal other than the calculator's three |
| CalorieCalculator.ClampScore | src/components/CalorieCalculator.tsx:183 | the final score is always in 1..100; it is the rounded raw score whenever that rounds into 1..100, and 100 for anything higher |
| CalorieCalculator.ClampMonotonic | src/components/CalorieCalculator.tsx:183 | rounding and clamping never reverse the order of two raw scores |
| CalorieCalculator.Performance | src/components/CalorieCalculator.tsx:91-184 | calculatePerformance as written: 0 when the intake is unreadable or the BMR is 0; otherwise an integer in 1..100, and 50 for an unrecognised goal |
| CalorieCalculator.RawScoreIntended | src/components/CalorieCalculator.tsx:112-115 | the goal switch with the excellent band corrected: 500..750 in the goal's direction scores 76..100 |
| CalorieCalculator.PerformanceIntended | src/components/CalorieCalculator.tsx:91-184 | calculatePerformance with the excellent band corrected: the same 0, 1..100 and 50 cases as the code as written |
| CalorieCalculator.RegistrationGoalsScoreNeutral | src/components/CalorieCalculator.tsx:178-180 | every goal the registration form offers is unknown to the calculator, so the score is always 50 |
| CalorieCalculator.GainMirrorsLose | src/components/CalorieCalculator.tsx:132-157 | 'gain weight' scores a net balance exactly as 'lose weight' scores its negation |
| CalorieCalculator.WrongDirectionScoresLow | src/components/CalorieCalculator.tsx:106-109 | losing with a surplus, or gaining with a deficit, scores 1..25 |
| CalorieCalculator.ExcellentBandSaturates | src/components/CalorieCalculator.tsx:112-115 | as written, calculatePerformance returns exactly 100 for every deficit (losing) or surplus (gaining) of 500..750 |
| CalorieCalculator.ExcellentBandExample | src/components/CalorieCalculator.tsx:112-115 | losing with intake 1149 and BMR 1649 (a deficit of 500) scores 100 as written and 76 with the band corrected |
| CalorieCalculator.ExcellentBandInRange | src/components/CalorieCalculator.tsx:113-115 | the corrected excellent band is 100 only at 625, falls off monotonically with the distance from 625, and rounds into 76..100 |
| CalorieCalculator.ExcellentBandScoresGreen | src/components/CalorieCalculator.tsx:141-143 | with the band corrected, a deficit (losing) or surplus (gaining) of 500..750 scores 76..100 and shows green |
| CalorieCalculator.DirectedScoreRises | src/components/CalorieCalculator.tsx:110-128 | up to the ideal 625, a larger balance in the goal's direction never scores lower, and scores at least 30 |
| CalorieCalculator.DirectedScoreFalls | src/components/CalorieCalculator.tsx:110-128 | beyond the ideal 625, a larger balance in the goal's direction never scores higher |
| CalorieCalculator.WrongWayScoreFalls | src/components/CalorieCalculator.tsx:109 | a larger balance against the goal's direction never scores higher |
| CalorieCalculator.LoseRawTracksIdeal | src/components/CalorieCalculator.tsx:105-130 | for 'lose weight' the raw score rises as the net balance climbs towards -625 and falls from there on, through the surplus side too |
| CalorieCalculator.PerformanceTracksIdeal | src/components/CalorieCalculator.tsx:91-184 | the score rises as the net balance approaches the goal's ideal (-625 when losing, +625 when gaining) and falls as it moves away beyond it |
| CalorieCalculator.MaintainScoreFalls | src/components/CalorieCalculator.tsx:158-176 | for 'maintain weight' a larger imbalance, in either direction, never scores higher |
| CalorieCalculator.PerformanceColor | src/components/CalorieCalculator.tsx:214-219 | one of the four colours; green exactly from 76, yellow exactly for 51..75, orange exactly for 26..50, red exactly below 26 |
| CalorieCalculator.MaintainIgnoresSign | src/components/CalorieCalculator.tsx:160-162 | 'maintain weight' depends only on the size of the net balance, not its sign |
| CalorieCalculator.MaintainBands | src/components/CalorieCalculator.tsx:160-176 | deviation up to 50 / 150 / 300 / beyond scores 76..100 / 51..75 / 26..50 / 1..25, and these are shown green / yellow / orange / red |
| CalorieCalculator.NetIntake | src/components/CalorieCalculator.tsx:191 | the net balance is NaN exactly when the intake is; otherwise the `Net` of intake, BMR and burned |
| CalorieCalculator.RecalculateAsWritten | src/components/CalorieCalculator.tsx:187-212 | BMR, burned and net are fresh, but the performance is calculatePerformance as written scored with the previous display's BMR and burned |
| CalorieCalculator.Recalculate | src/components/CalorieCalculator.tsx:187-212 | corrected effect and Calculate button: the performance (the scorer as written) is scored on the BMR and burned computed in the same pass, and all four values are filled from the current inputs |
| CalorieCalculator.FirstPerformanceStale | src/components/CalorieCalculator.tsx:25-28 | as written, the first recalculation shows 0 even when the fresh values score 1..100 |
| CalorieCalculator.FirstPerformanceStaleExample | src/components/CalorieCalculator.tsx:93-96 | a concrete user on whom the first display shows 0 where at least 1 is due |
| CalorieCalculator.RecalculationCatchesUp | src/components/CalorieCalculator.tsx:187-198 | running the as-written recalculation twice on unchanged inputs gives the fresh display |
| CalorieCalculator.RecalculateConsistent | src/components/CalorieCalculator.tsx:91-99 | the fresh display scores 0 exactly when its net is NaN or its BMR is 0, and otherwise scores the net it shows |
| ProgressDashboard.DashboardBmr | src/components/ProgressDashboard.tsx:63-84 | 0 when weight, height or birth date is unreadable |
| ProgressDashboard.DashboardBmrAgrees | src/components/ProgressDashboard.tsx:63-84 | the dashboard's BMR equals the calculator's for every user and date |
| ProgressDashboard.DatePart | src/components/ProgressDashboard.tsx:128 | `split('T')[0]` is the longest prefix without a 'T' |
| ProgressDashboard.DayWorkouts | src/components/ProgressDashboard.tsx:128 | keeps exactly the workouts whose date part is the day, each as many times as it occurs |
| ProgressDashboard.DayBurned | src/components/ProgressDashboard.tsx:128-129 | 0 for a day without workouts; never negative when no workout has negative calories |
| ProgressDashboard.DayBurnedSnoc | src/components/ProgressDashboard.tsx:129 | a new workout adds its calories (missing counts as 0) to its own day and to no other |
| ProgressDashboard.DayBurnedAppend | src/components/ProgressDashboard.tsx:129 | a day's total over two batches of workouts is the sum of the two totals |
| ProgressDashboard.DayEntry | src/components/ProgressDashboard.tsx:123-141 | a row carries the day, its intake, the day's burned sum, and the net with intake = net + BMR + burned |
| ProgressDashboard.GenerateCalorieData | src/components/ProgressDashboard.tsx:114-145 | one row per day of the range, in order, each being that day's entry |
| ProgressDashboard.GoalProgress | src/components/ProgressDashboard.tsx:148-158 | 0 with no data; always within 0..100; min(100, abs(change)*10) for weight_loss and min(100, abs(change)*20) for muscle_gain; for other goals NaN when unchanged, else 100 |
| ProgressDashboard.GoalProgressIgnoresDirection | src/components/ProgressDashboard.tsx:156 | moving d kg up or d kg down gives the same progress |
| ProgressDashboard.WeeklyAverages | src/components/ProgressDashboard.tsx:161-177 | unchanged with no rows; otherwise the rounded means of intake, burned and net, and the current BMR |
| ProgressDashboard.RoundedMeanInRange | src/components/ProgressDashboard.tsx:172-174 | a rounded mean of values within whole-number bounds stays within them |
| ProgressDashboard.WeeklyAveragesBounded | src/components/ProgressDashboard.tsx:161-177 | each average lies within the bounds of its daily values |
| ProgressDashboard.DaysToGoal | src/components/ProgressDashboard.tsx:180-197 | 0 with fewer than 7 weights; 999 when the daily change is below 0.01; otherwise round(10 or 5 or 0 / abs(daily change)), within 0..1000; NaN only for an unreadable profile weight |
| ProgressDashboard.FindDay | src/components/ProgressDashboard.tsx:202 | the index of the first row dated the day, or none when no row is |
| ProgressDashboard.TodayNet | src/components/ProgressDashboard.tsx:200-204 | the net of the first row dated today, 0 when there is none |
| MyWorkouts.SampleWorkouts | src/components/MyWorkouts.tsx:32-189 | the sample list holds fourteen workouts |
| MyWorkouts.SampleDates | src/components/MyWorkouts.tsx:32-189 | sample k is dated 2024-05-30 minus k days, so the list is strictly newest first |
| MyWorkouts.SampleIdsDistinct | src/components/MyWorkouts.tsx:32-189 | the sample ids are pairwise distinct |
| MyWorkouts.KeepInRange | src/components/MyWorkouts.tsx:202-210 | keeps a workout exactly when it is within both inclusive bounds; a subsequence that keeps each kept workout's multiplicity |
| MyWorkouts.FilterByDate | src/components/MyWorkouts.tsx:201-211 | with no bounds the list is unchanged; otherwise exactly the in-range workouts, as a subsequence |
| MyWorkouts.SortNewestFirst | src/components/MyWorkouts.tsx:214 | the array ends newest first and is a permutation of what it held |
| MyWorkouts.InsertNewestFirst | src/components/MyWorkouts.tsx:214 | inserting element i into a newest-first prefix makes a[..i + 1] newest first, leaves a[i + 1..] untouched, and keeps the contents a permutation |
| MyWorkouts.SortedPermutationOfStrict | src/components/MyWorkouts.tsx:214 | a newest-first permutation of a strictly newest-first list is that list |
| MyWorkouts.FilterAndSort | src/components/MyWorkouts.tsx:198-214 | the shown list is newest first, a permutation of the filtered list, and holds exactly the in-range workouts |
| MyWorkouts.FetchWorkouts | src/components/MyWorkouts.tsx:191-230 | the same for the sample list; with no bounds the sample is shown unchanged |
| MyWorkouts.WithWeight | src/components/MyWorkouts.tsx:256 | keeps exactly the workouts with a positive weight, with their multiplicities |
| MyWorkouts.CalculateTotals | src/components/MyWorkouts.tsx:248-263 | all zeros for an empty list; the average weight is 0 when no workout has a weight |
| MyWorkouts.AvgWeightBounds | src/components/MyWorkouts.tsx:256-258 | the average weight lies between the smallest and largest recorded weight |
| MyWorkouts.TotalsIgnoreOrder | src/components/MyWorkouts.tsx:248-263 | the totals do not depend on the order of the list |
| MyWorkouts.TotalsAppend | src/components/MyWorkouts.tsx:251-253 | duration, calories and net-intake totals add up over a concatenation (a missing net intake counts as 0) |
| RegisterPage.Set | src/components/RegisterPage.tsx:34-37 | the named field takes the value and every other field keeps its own |
| RegisterPage.EmailPatternMeaning | src/components/RegisterPage.tsx:55 | the pattern matches exactly when there is no white space, exactly one '@' that is not first, and after it a '.' that is neither the domain's first nor its last character |
| RegisterPage.FieldError | src/components/RegisterPage.tsx:51-67 | the rule of each field; every failing rule has a non-empty message, and the password passes exactly with at least 6 characters |
| RegisterPage.CheckField | src/components/RegisterPage.tsx:51-67 | one check adds the field's message when it fails and changes nothing otherwise |
| RegisterPage.CheckNext | src/components/RegisterPage.tsx:49-67 | after the checks so far, the dictionary holds exactly those fields' messages |
| RegisterPage.RecordStep | src/components/RegisterPage.tsx:49-67 | one more check keeps the dictionary exact for the fields checked so far |
| RegisterPage.ValidateForm | src/components/RegisterPage.tsx:48-71 | each field has an entry exactly when its rule fails, with that rule's message; the form is valid exactly when the dictionary is empty, that is, when no field fails |
| RegisterPage.TextFieldRules | src/components/RegisterPage.tsx:51-52 | name, surname, height and weight pass exactly when they are not all white space |
| RegisterPage.PresenceRules | src/components/RegisterPage.tsx:58-67 | gender, birth date and goal pass exactly when non-empty (untrimmed); the password passes exactly with at least 6 characters |
| RegisterPage.EmailNotBlank | src/components/RegisterPage.tsx:53-57 | an address the pattern accepts is never blank |
| RegisterPage.EmailRule | src/components/RegisterPage.tsx:53-57 | the email passes exactly when the untrimmed string matches the pattern |
| RegisterPage.SpacePasswordAccepted | src/components/RegisterPage.tsx:58-62 | six spaces pass the password check |
| RegisterPage.Normalise | src/components/RegisterPage.tsx:84-94 | name, surname, height and weight are trimmed; the email is trimmed then lower-cased; password, gender, birth date and goal are copied |
| RegisterPage.NormaliseIdempotent | src/components/RegisterPage.tsx:84-94 | normalising a normalised record changes nothing |
| RegisterPage.TrimNoSpace | src/components/RegisterPage.tsx:87 | a string without white space is its own trim |
| RegisterPage.LowerKeepsEmail | src/components/RegisterPage.tsx:87 | lower-casing keeps an acceptable address acceptable |
| RegisterPage.TrimKeepsEmail | src/components/RegisterPage.tsx:87 | trimming leaves an acceptable address unchanged |
| RegisterPage.TrimmedNotBlank | src/components/RegisterPage.tsx:85-91 | a field that is not blank stays non-blank once trimmed |
| RegisterPage.NormalisedField | src/components/RegisterPage.tsx:84-94 | a record field that passes its check still passes it after trimming (and, for the email, lower-casing) |
| RegisterPage.NormalisedEmail | src/components/RegisterPage.tsx:87 | a valid email stays valid after trim and lower-case |
| RegisterPage.NormalisedStaysValid | src/components/RegisterPage.tsx:84-94 | a record that passes validation still passes it after normalisation |
| RegisterPage.EmptyFormRefused | src/components/RegisterPage.tsx:17-27 | the empty form fails every one of the nine checks |
| RegisterPage.HandleSubmit | src/components/RegisterPage.tsx:73-121 | the errors become validateForm's; a record is produced exactly when the form is valid; it is the normalised form, passes validation itself, and the form is reset to empty |
| RegisterPage.HandleInputChange | src/components/RegisterPage.tsx:32-46 | only the named field changes; its error, if present, becomes empty; every other error is unchanged and no key is added or removed |
| ProfilePage.InitialForm | src/components/ProfilePage.tsx:22-30 | the form starts with the user's values and an empty password |
| ProfilePage.Set | src/components/ProfilePage.tsx:38-41 | the named field takes the value and every other field keeps its own |
| ProfilePage.FieldError | src/components/ProfilePage.tsx:55-63 | the rule of each field; every failing rule has a non-empty message, and the password passes exactly when empty or at least 6 characters long |
| ProfilePage.CheckField | src/components/ProfilePage.tsx:55-63 | one check adds the field's message when it fails and changes nothing otherwise |
| ProfilePage.CheckNext | src/components/ProfilePage.tsx:53-63 | after the checks so far, the dictionary holds exactly those fields' messages |
| ProfilePage.RecordStep | src/components/ProfilePage.tsx:53-63 | one more check keeps the dictionary exact for the fields checked so far |
| ProfilePage.ValidateForm | src/components/ProfilePage.tsx:52-67 | each of the seven fields has an entry exactly when its rule fails, with that rule's message; valid exactly when empty |
| ProfilePage.PasswordRule | src/components/ProfilePage.tsx:57-59 | the password passes exactly when it is empty or has at least 6 characters |
| ProfilePage.TextFieldRules | src/components/ProfilePage.tsx:55-61 | name, surname, height and weight pass exactly when they are not all white space |
| ProfilePage.InitialPasswordAccepted | src/components/ProfilePage.tsx:22-30 | the freshly opened form has no password error |
| ProfilePage.BuildUpdate | src/components/ProfilePage.tsx:80-92 | the four text fields are trimmed, birth date and goal copied, and the untrimmed password is included exactly when it is not all white space; no email or gender field exists |
| ProfilePage.SpacePasswordDropped | src/components/ProfilePage.tsx:57-59 | six or more spaces pass validation but are not sent |
| ProfilePage.SentPasswordAccepted | src/components/ProfilePage.tsx:90-92 | a password that is sent after validation has at least 6 characters and is not all white space |
| ProfilePage.UpdateFieldsNotBlank | src/components/ProfilePage.tsx:80-87 | after validation no field of the update is blank |
| ProfilePage.HandleSubmit | src/components/ProfilePage.tsx:69-127 | the errors become validateForm's; the update is sent exactly when the form is valid; the password is cleared exactly when it was sent and the server accepted it |
| ProfilePage.ClearedPasswordNeutral | src/components/ProfilePage.tsx:119 | the cleared password passes validation and is not sent next time |
| ProfilePage.HandleInputChange | src/components/ProfilePage.tsx:36-50 | only the named field changes; its error, if present, becomes empty; every other error is unchanged |
| ProfilePage.UpperChar | src/components/ProfilePage.tsx:131-133 | ASCII lower-case letters become upper-case; other characters are unchanged |
| ProfilePage.FormatGoalDisplay | src/components/ProfilePage.tsx:129-136 | the label has the stored goal's length and differs from it only for the three calculator goals |
| ProfilePage.FormatGoalCapitalises | src/components/ProfilePage.tsx:129-136 | the three calculator goals get their first letter capitalised; any other value is shown unchanged |
| ProfilePage.FormatGoalChangesCalculatorGoals | src/components/ProfilePage.tsx:129-136 | the label differs from the stored goal exactly for the calculator's three goals, and has the same length |
| ProfilePage.FormatGoalIdempotent | src/components/ProfilePage.tsx:129-136 | formatting a label again leaves it alone |

## Left out

- IEEE-754 floating point: numbers are exact rationals. Rounding of intermediate values, Infinity beyond the one clamped case in goal progress, and `-0` are not modelled.
- `parseFloat` and `new Date(string)`: the parsed value is an input, with `None` for NaN or an invalid date. Time zones are not modelled.
- The clock: every `new Date()` read becomes a "today" parameter.
- In `ProgressDashboard.tsx`, the random mock data is an input:
  - `generateWeightData` (lines 87-111) is left out; the weight series is a parameter of goal progress and days to goal;
  - the simulated intake (lines 132-133) is the `intakes` parameter;
  - the enumeration of calendar days between the range's bounds (lines 120-125) is the `days` parameter.
- SVG chart rendering, all markup, CSS, `alert`, `console.log`, `fetch`, `localStorage` and the server: none is computation of the core.
- Registration's `handleSubmit` only logs the record; the model returns it instead.
- The profile update's server round trip is the `serverAccepts` parameter of `ProfilePage.HandleSubmit`. Propagating `data.user` to the parent is not modelled.
- `isSubmitting` and `showPassword` flags, and React batching of `setFormData` and `setErrors`: the model applies both updates to the same previous state.
- In `MyWorkouts.tsx`:
  - the loading and error flags are not modelled;
  - the fallback branch in `catch` (lines 220-227) is not modelled, because the sample path cannot throw in the model.
- `Text.ToLower`: lower-cases only ASCII letters. JavaScript's `toLowerCase` also maps other scripts.
- String length counts code points. JavaScript counts UTF-16 code units, so the 6-character password rule differs for characters outside the Basic Multilingual Plane.
- `MyWorkouts.SortNewestFirst`: proves sorted-and-permutation but not stability, which `Array.prototype.sort` guarantees.
- `CalorieCalculator.MetValue`: the lookup does not model inherited object keys such as "constructor". The exercise always comes from the page's select list.
- `MyWorkouts.FilterByDate`: date strings that `new Date` cannot read are not modelled. There, every comparison with an invalid date is false, so nothing would be filtered out.
- `ProgressDashboard.DayWorkouts`: a `caloriesBurned` of NaN or 0 counts as 0 through `|| 0`. The model has only "missing or 0".
- `ProgressDashboard.WeeklyAverages`: the model returns the new averages instead of setting state.
- The order of the dashboard's effect (`ProgressDashboard.tsx` lines 206-218) is not modelled. It calls `calculateGoalProgress`, `getTodayNetCalories`, `calculateEstimatedDaysToGoal` and `calculateWeeklyAverages` right after `setWeightData` and `setCalorieData`. Those functions therefore read the previous run's series, which are empty on the first load. This is the same stale read as in the calculator. The model passes the fresh series to each function as a parameter.
- `ProgressDashboard.DayWorkouts`: states which workouts are kept and how many times each, but not their order. The day's sum does not depend on order (`Common.SumOfPermutation`).

## Findings

| source | as written | input that shows it | evidently intended | confidence | as-written member | corrected member |
|---|---|---|---|---|---|---|
| src/components/CalorieCalculator.tsx:115 and :143 | excellent band `76 + ((750 - abs(d - 625)) / 125) * 24` | 'lose weight', intake 1149, BMR 1649, nothing burned (a deficit of 500): the raw score is 196, clamped to 100, so every deficit from 500 to 750 shows 100 | numerator 125, giving the 76..100 range the comment names and a peak at 625 | not executed | CalorieCalculator.ExcellentBandSaturates | CalorieCalculator.PerformanceIntended |
| src/components/CalorieCalculator.tsx:93-95 and :187-198 | performance is scored with the `bmr` and `caloriesBurned` state of the previous render | a 70 kg, 175 cm, 30-year-old man opening the page (BMR 1649, intake 2000): the state BMR is still 0, so the performance shows 0 | score with the values just computed | not executed | CalorieCalculator.FirstPerformanceStaleExample | CalorieCalculator.RecalculateConsistent |

Each finding is corrected on its own:

- `Performance`, `RawScore` and `DirectedScore` compute what the code computes, with `ExcellentBandAsWritten`. `ExcellentBandSaturates` and `ExcellentBandExample` state the saturation about `Performance` itself.
- `PerformanceIntended` and `RawScoreIntended` use `ExcellentBandScore`, with 125. `ExcellentBandInRange` and `ExcellentBandScoresGreen` prove the 76..100 range, the peak at 625 and the green colour about them.
- `RecalculateAsWritten` reproduces the stale read and scores with `Performance`.
- `Recalculate` scores the values of the same pass, also with `Performance`. That way it differs from the code only in the second finding, and `RecalculationCatchesUp` can relate the two.
