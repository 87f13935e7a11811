/**
 * The progress dashboard's calculations: its own copy of the BMR formula, the
 * per-day burned/net calorie rows, goal progress, weekly averages, the
 * days-to-goal estimate and today's net balance. The simulated intake and
 * weight series are inputs here, and "today" is a parameter.
 */
module ProgressDashboard {
  import opened Common
  import opened Text
  import opened Goals
  import CalorieCalculator

  type CivilDate = CalorieCalculator.CivilDate

  /** calculateBMR as the dashboard writes it: the age is computed inline before the NaN test. */
  function DashboardBmr(weight: Option<real>, height: Option<real>, birth: Option<CivilDate>,
                        gender: string, today: CivilDate): (bmr: int)
    ensures weight.None? || height.None? || birth.None? ==> bmr == 0
  {
    var age: Option<int> :=
      if birth.None? then None
      else
        var b := birth.value;
        var years := today.year - b.year;
        var monthDiff := today.month - b.month;
        Some(if monthDiff < 0 || (monthDiff == 0 && today.day < b.day) then years - 1 else years);
    if weight.None? || height.None? || age.None? then 0
    else if ToLower(gender) == "male" then
      JsRound(10.0 * weight.value + 6.25 * height.value - 5.0 * age.value as real + 5.0)
    else
      JsRound(10.0 * weight.value + 6.25 * height.value - 5.0 * age.value as real - 161.0)
  }

  /** The dashboard and the calculator compute the same BMR for the same user and date. */
  lemma DashboardBmrAgrees(weight: Option<real>, height: Option<real>, birth: Option<CivilDate>,
                           gender: string, today: CivilDate)
    ensures DashboardBmr(weight, height, birth, gender, today)
            == CalorieCalculator.Bmr(weight, height, birth, gender, today)
  {
  }

  // ------------------------------------------------------- per-day calories

  /** The fields of a workout the dashboard reads. */
  datatype Workout = Workout(date: string, caloriesBurned: Option<real>)

  /** `date.split('T')[0]`: everything before the first 'T'. */
  function DatePart(s: string): (r: string)
    ensures |r| <= |s| && r == s[..|r|]
    ensures 'T' !in r
    ensures |r| < |s| ==> s[|r|] == 'T'
  {
    if s == [] || s[0] == 'T' then [] else [s[0]] + DatePart(s[1..])
  }

  /** `workouts.filter(w => w.date.split('T')[0] === day)`. */
  function DayWorkouts(workouts: seq<Workout>, day: string): (r: seq<Workout>)
    ensures |r| <= |workouts|
    ensures forall w :: w in r <==> w in workouts && DatePart(w.date) == day
    ensures forall w :: multiset(r)[w] == if DatePart(w.date) == day then multiset(workouts)[w] else 0
  {
    if workouts == [] then []
    else
      var init, w := workouts[..|workouts| - 1], workouts[|workouts| - 1];
      var rest := DayWorkouts(init, day);
      assert workouts == init + [w];
      assert multiset(workouts) == multiset(init) + multiset{w};
      if DatePart(w.date) == day then rest + [w] else rest
  }

  /** `w.caloriesBurned || 0`: a missing value counts as 0. */
  function BurnedOrZero(w: Workout): real {
    w.caloriesBurned.GetOr(0.0)
  }

  /** The calories burned on a day: the sum over that day's workouts. */
  function DayBurned(workouts: seq<Workout>, day: string): (total: real)
    ensures (forall w :: w in workouts ==> DatePart(w.date) != day) ==> total == 0.0
    ensures (forall w :: w in workouts ==> BurnedOrZero(w) >= 0.0) ==> total >= 0.0
  {
    var ws := DayWorkouts(workouts, day);
    SumOfNonNegative(ws, BurnedOrZero);
    SumOf(ws, BurnedOrZero)
  }

  /** Adding a workout adds its calories to its own day and to no other. */
  lemma DayBurnedSnoc(workouts: seq<Workout>, w: Workout, day: string)
    ensures DayBurned(workouts + [w], day)
            == DayBurned(workouts, day) + (if DatePart(w.date) == day then BurnedOrZero(w) else 0.0)
  {
    assert (workouts + [w])[..|workouts + [w]| - 1] == workouts;
    if DatePart(w.date) == day {
      SumOfAppend(DayWorkouts(workouts, day), [w], BurnedOrZero);
      assert [w][..0] == [];
    }
  }

  /** The day's total over two batches of workouts is the sum of the two days' totals. */
  lemma {:induction false} DayBurnedAppend(ws: seq<Workout>, vs: seq<Workout>, day: string)
    ensures DayBurned(ws + vs, day) == DayBurned(ws, day) + DayBurned(vs, day)
    decreases |vs|
  {
    if vs == [] {
      assert ws + vs == ws;
    } else {
      var init, w := vs[..|vs| - 1], vs[|vs| - 1];
      assert vs == init + [w];
      assert ws + vs == (ws + init) + [w];
      DayBurnedAppend(ws, init, day);
      DayBurnedSnoc(ws + init, w, day);
      DayBurnedSnoc(init, w, day);
    }
  }

  /** A row of the calorie chart. */
  datatype CalorieEntry = CalorieEntry(date: string, intake: real, burned: real, net: real)

  /** The row for one day: burned from that day's workouts, net = intake - BMR - burned. */
  function DayEntry(day: string, intake: int, bmr: int, workouts: seq<Workout>): (e: CalorieEntry)
    ensures e.date == day && e.intake == intake as real
    ensures e.burned == DayBurned(workouts, day)
    ensures e.intake == e.net + bmr as real + e.burned
  {
    var burned := DayBurned(workouts, day);
    CalorieEntry(day, intake as real, burned, intake as real - bmr as real - burned)
  }

  /**
   * The deterministic part of generateCalorieData: one row per day of the
   * range, pushed in order. `days` is the range's ISO dates and `intakes` the
   * day's (simulated) intake.
   */
  method GenerateCalorieData(days: seq<string>, intakes: seq<int>, bmr: int, workouts: seq<Workout>)
    returns (data: seq<CalorieEntry>)
    requires |intakes| == |days|
    ensures |data| == |days|
    ensures forall i :: 0 <= i < |days| ==> data[i] == DayEntry(days[i], intakes[i], bmr, workouts)
  {
    data := [];
    var i := 0;
    while i < |days|
      invariant 0 <= i <= |days|
      invariant |data| == i
      invariant forall j :: 0 <= j < i ==> data[j] == DayEntry(days[j], intakes[j], bmr, workouts)
    {
      var dateStr := days[i];
      var dayWorkouts := DayWorkouts(workouts, dateStr);
      var caloriesBurned := SumOf(dayWorkouts, BurnedOrZero);
      var intake := intakes[i];
      var net := intake as real - bmr as real - caloriesBurned;
      data := data + [CalorieEntry(dateStr, intake as real, caloriesBurned, net)];
      i := i + 1;
    }
  }

  // ---------------------------------------------------------- goal progress

  datatype WeightEntry = WeightEntry(date: string, weight: real)

  /**
   * calculateGoalProgress: |current - start| / |target - start| * 100 clamped
   * to 0..100, where the target is 10 kg below the start for 'weight_loss', 5
   * kg above for 'muscle_gain' and the start itself otherwise. For any other
   * goal the divisor is 0: a changed weight gives Infinity, clamped to 100, and
   * an unchanged one gives 0/0, NaN, which the clamp keeps (None).
   */
  function GoalProgress(weights: seq<WeightEntry>, goal: Goal): (progress: Option<real>)
    ensures weights == [] ==> progress == Some(0.0)
    ensures progress.Some? ==> 0.0 <= progress.value <= 100.0
    ensures weights != [] && goal == WeightLoss ==>
              progress == Some(Min(100.0, Abs(weights[|weights| - 1].weight - weights[0].weight) * 10.0))
    ensures weights != [] && goal == MuscleGain ==>
              progress == Some(Min(100.0, Abs(weights[|weights| - 1].weight - weights[0].weight) * 20.0))
    ensures weights != [] && goal != WeightLoss && goal != MuscleGain ==>
              (progress.None? <==> weights[|weights| - 1].weight == weights[0].weight)
              && (progress.Some? ==> progress.value == 100.0)
  {
    if weights == [] then Some(0.0)
    else
      var startWeight := weights[0].weight;
      var currentWeight := weights[|weights| - 1].weight;
      var targetWeight := if goal == WeightLoss then startWeight - 10.0
                          else if goal == MuscleGain then startWeight + 5.0
                          else startWeight;
      var moved := Abs(currentWeight - startWeight);
      var span := Abs(targetWeight - startWeight);
      if span == 0.0 then
        (if moved == 0.0 then None else Some(100.0))
      else
        Some(Min(100.0, Max(0.0, moved / span * 100.0)))
  }

  /** Progress counts movement in either direction: gaining weight advances a 'weight_loss' goal as much as losing it. */
  lemma GoalProgressIgnoresDirection(weights: seq<WeightEntry>, goal: Goal, d: real)
    requires |weights| >= 2
    ensures var up := weights[|weights| - 1 := WeightEntry(weights[|weights| - 1].date, weights[0].weight + d)];
            var down := weights[|weights| - 1 := WeightEntry(weights[|weights| - 1].date, weights[0].weight - d)];
            GoalProgress(up, goal) == GoalProgress(down, goal)
  {
  }

  // --------------------------------------------------------- weekly averages

  datatype Averages = Averages(intake: int, burned: int, net: int, bmr: int)

  function Intake(e: CalorieEntry): real { e.intake }
  function Burned(e: CalorieEntry): real { e.burned }
  function NetOf(e: CalorieEntry): real { e.net }

  /**
   * calculateWeeklyAverages: with no rows the averages stay as they were;
   * otherwise each of intake, burned and net is the rounded mean of the rows,
   * and bmr is the current BMR.
   */
  function WeeklyAverages(previous: Averages, data: seq<CalorieEntry>, bmr: int): (avg: Averages)
    ensures data == [] ==> avg == previous
    ensures data != [] ==> avg.bmr == bmr
    ensures data != [] ==> avg.intake == JsRound(SumOf(data, Intake) / |data| as real)
    ensures data != [] ==> avg.burned == JsRound(SumOf(data, Burned) / |data| as real)
    ensures data != [] ==> avg.net == JsRound(SumOf(data, NetOf) / |data| as real)
  {
    if data == [] then previous
    else
      var days := |data| as real;
      Averages(JsRound(SumOf(data, Intake) / days), JsRound(SumOf(data, Burned) / days),
               JsRound(SumOf(data, NetOf) / days), bmr)
  }

  /** A rounded mean of values within whole-number bounds stays within them. */
  lemma RoundedMeanInRange(data: seq<CalorieEntry>, f: CalorieEntry -> real, lo: int, hi: int)
    requires |data| > 0
    requires forall i :: 0 <= i < |data| ==> lo as real <= f(data[i]) <= hi as real
    ensures lo <= JsRound(SumOf(data, f) / |data| as real) <= hi
  {
    MeanBounds(data, f, lo as real, hi as real);
    RoundInRange(SumOf(data, f) / |data| as real, lo, hi);
  }

  /** Each average lies between the smallest and the largest daily value. */
  lemma WeeklyAveragesBounded(previous: Averages, data: seq<CalorieEntry>, bmr: int,
                              intakeLo: int, intakeHi: int, burnedLo: int, burnedHi: int, netLo: int, netHi: int)
    requires data != []
    requires forall i :: 0 <= i < |data| ==> intakeLo as real <= data[i].intake <= intakeHi as real
    requires forall i :: 0 <= i < |data| ==> burnedLo as real <= data[i].burned <= burnedHi as real
    requires forall i :: 0 <= i < |data| ==> netLo as real <= data[i].net <= netHi as real
    ensures var avg := WeeklyAverages(previous, data, bmr);
            intakeLo <= avg.intake <= intakeHi && burnedLo <= avg.burned <= burnedHi && netLo <= avg.net <= netHi
  {
    RoundedMeanInRange(data, Intake, intakeLo, intakeHi);
    RoundedMeanInRange(data, Burned, burnedLo, burnedHi);
    RoundedMeanInRange(data, NetOf, netLo, netHi);
  }

  // ------------------------------------------------------------ days to goal

  /** The mean daily change over the last seven weight entries. */
  function DailyChange(weights: seq<WeightEntry>): real
    requires |weights| >= 7
  {
    (weights[|weights| - 1].weight - weights[|weights| - 7].weight) / 7.0
  }

  /**
   * calculateEstimatedDaysToGoal: 0 with fewer than seven weights; 999 when the
   * last seven entries move less than 0.01 kg a day; otherwise the remaining
   * kilograms (10 for 'weight_loss', 5 for 'muscle_gain', 0 for any other goal)
   * over the daily change, rounded. An unreadable profile weight makes the
   * remainder NaN (None).
   */
  function DaysToGoal(weights: seq<WeightEntry>, profileWeight: Option<real>, goal: Goal): (days: Option<int>)
    ensures |weights| < 7 ==> days == Some(0)
    ensures |weights| >= 7 && Abs(DailyChange(weights)) < 0.01 ==> days == Some(999)
    ensures days.None? <==> |weights| >= 7 && Abs(DailyChange(weights)) >= 0.01 && profileWeight.None?
    ensures days.Some? ==> 0 <= days.value <= 1000
    ensures |weights| >= 7 && Abs(DailyChange(weights)) >= 0.01 && profileWeight.Some? ==>
              days == Some(if goal == WeightLoss then JsRound(10.0 / Abs(DailyChange(weights)))
                           else if goal == MuscleGain then JsRound(5.0 / Abs(DailyChange(weights)))
                           else 0)
  {
    if weights == [] || |weights| < 7 then Some(0)
    else
      var recent := weights[|weights| - 7..];
      var weightChange := recent[|recent| - 1].weight - recent[0].weight;
      var dailyWeightChange := weightChange / 7.0;
      if Abs(dailyWeightChange) < 0.01 then Some(999)
      else if profileWeight.None? then None
      else
        var currentWeight := profileWeight.value;
        var targetWeight := if goal == WeightLoss then currentWeight - 10.0
                            else if goal == MuscleGain then currentWeight + 5.0
                            else currentWeight;
        var remainingWeight := Abs(targetWeight - currentWeight);
        var daysToGoal := remainingWeight / Abs(dailyWeightChange);
        assert 0.0 <= daysToGoal <= 1000.0 by {
          assert remainingWeight <= 10.0;
          assert remainingWeight / Abs(dailyWeightChange) <= 10.0 / Abs(dailyWeightChange) <= 10.0 / 0.01;
        }
        RoundInRange(daysToGoal, 0, 1000);
        Some(JsRound(daysToGoal))
  }

  // ------------------------------------------------------------- today's net

  /** The index of the first row dated `day` (Array.prototype.find). */
  function FindDay(data: seq<CalorieEntry>, day: string): (k: Option<nat>)
    ensures k.Some? ==> k.value < |data| && data[k.value].date == day
                        && forall j :: 0 <= j < k.value ==> data[j].date != day
    ensures k.None? ==> forall j :: 0 <= j < |data| ==> data[j].date != day
  {
    if data == [] then None
    else if data[0].date == day then Some(0)
    else
      var k := FindDay(data[1..], day);
      if k.None? then None else Some(k.value + 1)
  }

  /** getTodayNetCalories: the net of the first row dated today, 0 if there is none. */
  function TodayNet(data: seq<CalorieEntry>, today: string): (net: real)
    ensures (forall j :: 0 <= j < |data| ==> data[j].date != today) ==> net == 0.0
    ensures forall k :: (0 <= k < |data| && data[k].date == today
                         && forall j :: 0 <= j < k ==> data[j].date != today) ==> net == data[k].net
  {
    var k := FindDay(data, today);
    if k.None? then 0.0 else data[k.value].net
  }
}
