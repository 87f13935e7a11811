/**
 * The calorie calculator view's arithmetic: age from a birth date, basal
 * metabolic rate by the Mifflin-St Jeor equation, calories burned by the MET
 * formula, and the goal-directed performance score (1..100) with its colour.
 * Numbers are exact rationals; a field that parseFloat or Date cannot read
 * (JavaScript NaN) is None. "Today" is a parameter instead of a clock read.
 */
module CalorieCalculator {
  import opened Common
  import opened Text
  import opened Goals

  /** A calendar date as getFullYear / getMonth() + 1 / getDate report it. */
  datatype CivilDate = CivilDate(year: int, month: int, day: int)

  /** (m1, d1) comes strictly before (m2, d2) within a year. */
  predicate MonthDayBefore(m1: int, d1: int, m2: int, d2: int) {
    m1 < m2 || (m1 == m2 && d1 < d2)
  }

  /** calculateAge: the year difference, one less while this year's birthday is still ahead. */
  function Age(birth: CivilDate, today: CivilDate): (age: int)
    ensures age == today.year - birth.year || age == today.year - birth.year - 1
    ensures age == today.year - birth.year - 1
            <==> MonthDayBefore(today.month, today.day, birth.month, birth.day)
  {
    var age := today.year - birth.year;
    var monthDiff := today.month - birth.month;
    if monthDiff < 0 || (monthDiff == 0 && today.day < birth.day) then age - 1 else age
  }

  /** The n-th birthday (month and day of birth in year birth.year + n) is on or before today. */
  predicate BirthdayReached(birth: CivilDate, n: int, today: CivilDate) {
    var y := birth.year + n;
    y < today.year || (y == today.year && !MonthDayBefore(today.month, today.day, birth.month, birth.day))
  }

  /** The age is the number of whole years lived: that birthday is reached and the next is not. */
  lemma AgeIsWholeYears(birth: CivilDate, today: CivilDate)
    ensures BirthdayReached(birth, Age(birth, today), today)
    ensures !BirthdayReached(birth, Age(birth, today) + 1, today)
    ensures forall n :: BirthdayReached(birth, n, today) <==> n <= Age(birth, today)
  {
  }

  /**
   * Mifflin-St Jeor (1990): 10 w + 6.25 h - 5 a + 5 for men, - 161 otherwise,
   * so the equations for men and women differ by exactly 166.
   */
  function MifflinStJeor(weight: real, height: real, age: int, male: bool): (e: real)
    ensures male ==> e == MifflinStJeor(weight, height, age, false) + 166.0
    decreases if male then 1 else 0
  {
    10.0 * weight + 6.25 * height - 5.0 * age as real + (if male then 5.0 else -161.0)
  }

  predicate IsMale(gender: string) {
    ToLower(gender) == "male"
  }

  /** calculateBMR: 0 when weight, height or the birth date is unreadable, otherwise the rounded equation. */
  function Bmr(weight: Option<real>, height: Option<real>, birth: Option<CivilDate>,
               gender: string, today: CivilDate): (bmr: int)
    ensures weight.None? || height.None? || birth.None? ==> bmr == 0
    ensures weight.Some? && height.Some? && birth.Some? ==>
              bmr == JsRound(MifflinStJeor(weight.value, height.value, Age(birth.value, today), IsMale(gender)))
  {
    if weight.None? || height.None? || birth.None? then 0
    else
      var age := Age(birth.value, today);
      var bmrValue := if IsMale(gender)
        then 10.0 * weight.value + 6.25 * height.value - 5.0 * age as real + 5.0
        else 10.0 * weight.value + 6.25 * height.value - 5.0 * age as real - 161.0;
      JsRound(bmrValue)
  }

  /** For the same body and date, the male BMR is exactly 166 above any other gender's. */
  lemma BmrSexDifference(weight: real, height: real, birth: CivilDate, today: CivilDate, other: string)
    requires !IsMale(other)
    ensures Bmr(Some(weight), Some(height), Some(birth), "male", today)
            == Bmr(Some(weight), Some(height), Some(birth), other, today) + 166
  {
    var x := MifflinStJeor(weight, height, Age(birth, today), false);
    assert ToLower("male") == "male";
    assert MifflinStJeor(weight, height, Age(birth, today), true) == x + 166 as real;
    RoundShift(x, 166);
  }

  /** A heavier or taller person, or a younger one, never gets a lower BMR. */
  lemma BmrMonotonic(w1: real, w2: real, h1: real, h2: real, b1: CivilDate, b2: CivilDate,
                     gender: string, today: CivilDate)
    requires w1 <= w2 && h1 <= h2 && Age(b2, today) <= Age(b1, today)
    ensures Bmr(Some(w1), Some(h1), Some(b1), gender, today) <= Bmr(Some(w2), Some(h2), Some(b2), gender, today)
  {
    var male := IsMale(gender);
    RoundMonotonic(MifflinStJeor(w1, h1, Age(b1, today), male), MifflinStJeor(w2, h2, Age(b2, today), male));
  }

  /** The worked examples: 70 kg, 175 cm, 30 years, male gives 1649; 60 kg, 165 cm, 25 years, female gives 1345. */
  lemma BmrExamples()
    ensures Bmr(Some(70.0), Some(175.0), Some(CivilDate(1994, 6, 15)), "Male", CivilDate(2024, 6, 15)) == 1649
    ensures Bmr(Some(60.0), Some(165.0), Some(CivilDate(1999, 12, 31)), "female", CivilDate(2025, 12, 30)) == 1345
  {
    assert ToLower("Male") == "male";
    assert ToLower("female")[0] != 'm';
    assert JsRound(1648.75) == 1649;
    assert JsRound(1345.25) == 1345;
  }

  /** getMETValue's table. */
  const MetTable: map<string, real> := map[
    "walking" := 3.5, "jogging" := 7.0, "running" := 9.8, "cycling" := 6.8, "swimming" := 8.0,
    "weightlifting" := 6.0, "yoga" := 2.5, "dancing" := 4.8, "basketball" := 8.0, "tennis" := 7.3]

  /** getMETValue: the table entry, and 3.5 for a missing (or zero, by `||`) entry. */
  function MetValue(exercise: string): (met: real)
    ensures met > 0.0
    ensures exercise in MetTable ==> met == MetTable[exercise]
    ensures exercise !in MetTable ==> met == 3.5
  {
    if exercise in MetTable && MetTable[exercise] != 0.0 then MetTable[exercise] else 3.5
  }

  /** calculateCaloriesBurned: round(MET * 3.5 * weight / 200 * minutes), 0 when weight or minutes is unreadable. */
  function CaloriesBurned(weight: Option<real>, minutes: Option<real>, exercise: string): (kcal: int)
    ensures weight.None? || minutes.None? ==> kcal == 0
    ensures weight.Some? && minutes == Some(0.0) ==> kcal == 0
    ensures weight.Some? && minutes.Some? && weight.value >= 0.0 && minutes.value >= 0.0 ==> kcal >= 0
  {
    if weight.None? || minutes.None? then 0
    else
      var calories := (MetValue(exercise) * 3.5 * weight.value) / 200.0 * minutes.value;
      JsRound(calories)
  }

  /** For a non-negative weight, a longer session never burns fewer calories. */
  lemma CaloriesBurnedMonotonic(weight: real, m1: real, m2: real, exercise: string)
    requires weight >= 0.0 && m1 <= m2
    ensures CaloriesBurned(Some(weight), Some(m1), exercise) <= CaloriesBurned(Some(weight), Some(m2), exercise)
  {
    var rate := (MetValue(exercise) * 3.5 * weight) / 200.0;
    assert rate >= 0.0;
    assert rate * m2 - rate * m1 == rate * (m2 - m1) >= 0.0;
    RoundMonotonic(rate * m1, rate * m2);
  }

  /** The worked examples: running 30 min at 80 kg is 412 kcal; an unknown exercise 60 min at 70 kg is 257 kcal. */
  lemma CaloriesBurnedExamples()
    ensures CaloriesBurned(Some(80.0), Some(30.0), "running") == 412
    ensures CaloriesBurned(Some(70.0), Some(60.0), "rowing") == 257
  {
    assert (9.8 * 3.5 * 80.0) / 200.0 * 30.0 == 411.6;
    assert JsRound(411.6) == 412;
    assert (3.5 * 3.5 * 70.0) / 200.0 * 60.0 == 257.25;
    assert JsRound(257.25) == 257;
  }

  // ---------------------------------------------------------------- scoring

  /** Net balance = intake - BMR - exercise. */
  function Net(intake: real, bmr: int, burned: int): (net: real)
    ensures net + bmr as real + burned as real == intake
  {
    intake - bmr as real - burned as real
  }

  /**
   * Score for a balance in the goal's direction (a deficit when losing, a
   * surplus when gaining), as written: the excellent band uses
   * ExcellentBandAsWritten, so it is never below 196 there.
   */
  function DirectedScore(x: real): (s: real)
    ensures s >= 1.0
    ensures 500.0 <= x <= 750.0 ==> s >= 196.0
  {
    if 500.0 <= x <= 750.0 then ExcellentBandAsWritten(x)
    else if 300.0 <= x <= 900.0 then 75.0 - (Min(Abs(x - 625.0) - 125.0, 275.0) / 275.0) * 24.0
    else if 100.0 <= x <= 1200.0 then 50.0 - (Min(Abs(x - 625.0) - 400.0, 475.0) / 475.0) * 24.0
    else Max(1.0, 25.0 - Min((Abs(x - 625.0) - 875.0) / 50.0, 24.0))
  }

  /** The excellent-band formula as the source writes it: 76 + ((750 - |x - 625|) / 125) * 24. */
  function ExcellentBandAsWritten(x: real): (s: real)
    ensures 500.0 <= x <= 750.0 ==> s >= 196.0
  {
    76.0 + ((750.0 - Abs(x - 625.0)) / 125.0) * 24.0
  }

  /**
   * The "excellent range" (76..100) score the comments describe: 100 at the
   * ideal 625, falling by 24 over the 125 to either edge of the band. The
   * source writes 750 where this has 125.
   */
  function ExcellentBandScore(x: real): (s: real)
    ensures 500.0 <= x <= 750.0 ==> 76.0 <= s <= 100.0
  {
    76.0 + ((125.0 - Abs(x - 625.0)) / 125.0) * 24.0
  }

  /** Score for a balance against the goal's direction (a surplus when losing, a deficit when gaining). */
  function WrongWayScore(x: real): (s: real)
    requires x > 0.0
    ensures 1.0 <= s < 25.0
  {
    Max(1.0, 25.0 - Min(x / 50.0, 24.0))
  }

  /** Score for 'maintain weight' from the deviation |net|: 76..100, 51..75, 26..50 and 1..25 by band. */
  function MaintainScore(deviation: real): (s: real)
    requires deviation >= 0.0
    ensures deviation <= 50.0 ==> 76.0 <= s <= 100.0
    ensures 50.0 < deviation <= 150.0 ==> 51.0 <= s < 76.0
    ensures 150.0 < deviation <= 300.0 ==> 26.0 <= s < 51.0
    ensures 300.0 < deviation ==> 1.0 <= s < 25.0
  {
    if deviation <= 50.0 then 100.0 - (deviation / 50.0) * 24.0
    else if deviation <= 150.0 then 75.0 - ((deviation - 50.0) / 100.0) * 24.0
    else if deviation <= 300.0 then 50.0 - ((deviation - 150.0) / 150.0) * 24.0
    else Max(1.0, 25.0 - Min((deviation - 300.0) / 50.0, 24.0))
  }

  predicate IsCalculatorGoal(goal: Goal) {
    goal == LoseWeight || goal == GainWeight || goal == MaintainWeight
  }

  /** The `switch (user.GOAL)` of calculatePerformance as written, before rounding and clamping. */
  function RawScore(net: real, goal: Goal): (score: real)
    ensures !IsCalculatorGoal(goal) ==> score == 50.0
    ensures score >= 1.0
  {
    match goal
    case LoseWeight => if net > 0.0 then WrongWayScore(net) else DirectedScore(Abs(net))
    case GainWeight => if net < 0.0 then WrongWayScore(Abs(net)) else DirectedScore(net)
    case MaintainWeight => MaintainScore(Abs(net))
    case _ => 50.0
  }

  /** `Math.max(1, Math.min(100, Math.round(score)))`. */
  function ClampScore(raw: real): (score: int)
    ensures 1 <= score <= 100
    ensures 0.5 <= raw < 100.5 ==> score == JsRound(raw)
    ensures raw >= 100.5 ==> score == 100
  {
    var r := JsRound(raw);
    if r > 100 then 100 else if r < 1 then 1 else r
  }

  /** Rounding and clamping keep the order of raw scores. */
  lemma ClampMonotonic(x: real, y: real)
    requires x <= y
    ensures ClampScore(x) <= ClampScore(y)
  {
    RoundMonotonic(x, y);
  }

  /**
   * calculatePerformance as written, with the BMR and the calories burned as
   * arguments: 0 when the intake is unreadable or the BMR is 0, otherwise the
   * rounded raw score clamped into 1..100, and 50 for a goal it does not know.
   */
  function Performance(intake: Option<real>, bmr: int, burned: int, goal: Goal): (score: int)
    ensures intake.None? || bmr == 0 ==> score == 0
    ensures intake.Some? && bmr != 0 ==> 1 <= score <= 100
    ensures intake.Some? && bmr != 0 && !IsCalculatorGoal(goal) ==> score == 50
  {
    if intake.None? || bmr == 0 then 0
    else ClampScore(RawScore(Net(intake.value, bmr, burned), goal))
  }

  /** The goal switch with the excellent band as its comments describe it (numerator 125). */
  function RawScoreIntended(net: real, goal: Goal): (score: real)
    ensures goal == LoseWeight && 500.0 <= -net <= 750.0 ==> 76.0 <= score <= 100.0
    ensures goal == GainWeight && 500.0 <= net <= 750.0 ==> 76.0 <= score <= 100.0
    ensures !IsCalculatorGoal(goal) ==> score == 50.0
  {
    if goal == LoseWeight && 500.0 <= -net <= 750.0 then ExcellentBandScore(-net)
    else if goal == GainWeight && 500.0 <= net <= 750.0 then ExcellentBandScore(net)
    else RawScore(net, goal)
  }

  /** calculatePerformance with the excellent band corrected; everything else as written. */
  function PerformanceIntended(intake: Option<real>, bmr: int, burned: int, goal: Goal): (score: int)
    ensures intake.None? || bmr == 0 ==> score == 0
    ensures intake.Some? && bmr != 0 ==> 1 <= score <= 100
    ensures intake.Some? && bmr != 0 && !IsCalculatorGoal(goal) ==> score == 50
  {
    if intake.None? || bmr == 0 then 0
    else ClampScore(RawScoreIntended(Net(intake.value, bmr, burned), goal))
  }

  /** Every goal offered by the registration form reaches the calculator as an unknown goal: the score is always 50. */
  lemma RegistrationGoalsScoreNeutral(intake: real, bmr: int, burned: int, stored: string)
    requires stored in {"weight_loss", "muscle_gain", "maintenance", "endurance", "strength"}
    requires bmr != 0
    ensures Performance(Some(intake), bmr, burned, Parse(stored)) == 50
  {
  }

  /** 'gain weight' scores a net balance exactly as 'lose weight' scores its opposite. */
  lemma GainMirrorsLose(net: real)
    ensures RawScore(net, GainWeight) == RawScore(-net, LoseWeight)
  {
    if net < 0.0 {
      assert Abs(net) == -net;
    } else {
      assert Abs(-net) == net;
    }
  }

  /** Eating against the goal's direction scores in the red band, 1..25. */
  lemma WrongDirectionScoresLow(intake: real, bmr: int, burned: int, goal: Goal)
    requires bmr != 0
    requires (goal == LoseWeight && Net(intake, bmr, burned) > 0.0) || (goal == GainWeight && Net(intake, bmr, burned) < 0.0)
    ensures 1 <= Performance(Some(intake), bmr, burned, goal) <= 25
  {
    var net := Net(intake, bmr, burned);
    var raw := RawScore(net, goal);
    assert 1.0 <= raw < 25.0;
    RoundInRange(raw, 1, 25);
  }

  /**
   * As written, every deficit (when losing) or surplus (when gaining) of
   * 500..750 scores exactly 100: the excellent band is at least 196 before
   * clamping.
   */
  lemma ExcellentBandSaturates(intake: real, bmr: int, burned: int, goal: Goal)
    requires bmr != 0
    requires goal == LoseWeight || goal == GainWeight
    requires var x := if goal == LoseWeight then -Net(intake, bmr, burned) else Net(intake, bmr, burned);
             500.0 <= x <= 750.0
    ensures Performance(Some(intake), bmr, burned, goal) == 100
  {
    var net := Net(intake, bmr, burned);
    var x := if goal == LoseWeight then -net else net;
    if goal == LoseWeight {
      assert Abs(net) == x;
    }
    assert RawScore(net, goal) >= 196.0;
  }

  /**
   * The smallest such input: losing weight with an intake of 1149 against a
   * BMR of 1649 is a deficit of 500, the bottom of the excellent band. As
   * written it scores 100; the band as described gives 76.
   */
  lemma ExcellentBandExample()
    ensures Performance(Some(1149.0), 1649, 0, LoseWeight) == 100
    ensures PerformanceIntended(Some(1149.0), 1649, 0, LoseWeight) == 76
  {
    ExcellentBandSaturates(1149.0, 1649, 0, LoseWeight);
    assert Net(1149.0, 1649, 0) == -500.0;
    assert ExcellentBandScore(500.0) == 76.0;
    RoundOfInteger(76);
  }

  /** The intended excellent band peaks at the ideal 625 and falls off symmetrically and monotonically. */
  lemma ExcellentBandInRange(x: real, y: real)
    requires 500.0 <= x <= 750.0 && 500.0 <= y <= 750.0
    ensures ExcellentBandScore(x) == 100.0 <==> x == 625.0
    ensures Abs(x - 625.0) <= Abs(y - 625.0) ==> ExcellentBandScore(y) <= ExcellentBandScore(x)
    ensures 76 <= JsRound(ExcellentBandScore(x)) <= 100
  {
    RoundInRange(ExcellentBandScore(x), 76, 100);
  }

  /** With the band corrected, a deficit (when losing) or a surplus (when gaining) of 500..750 scores 76..100, shown green. */
  lemma ExcellentBandScoresGreen(intake: real, bmr: int, burned: int, goal: Goal)
    requires bmr != 0
    requires goal == LoseWeight || goal == GainWeight
    requires var x := if goal == LoseWeight then -Net(intake, bmr, burned) else Net(intake, bmr, burned);
             500.0 <= x <= 750.0
    ensures 76 <= PerformanceIntended(Some(intake), bmr, burned, goal) <= 100
    ensures PerformanceColor(PerformanceIntended(Some(intake), bmr, burned, goal)) == Green
  {
    var raw := RawScoreIntended(Net(intake, bmr, burned), goal);
    RoundInRange(raw, 76, 100);
  }

  // ----------------------------------------------------------- score shape

  /** Below the ideal 625, a larger deficit (or surplus) in the goal's direction never scores lower. */
  lemma DirectedScoreRises(x: real, y: real)
    requires 0.0 <= x <= y <= 625.0
    ensures 30.0 <= DirectedScore(x) <= DirectedScore(y)
  {
  }

  /** Above the ideal 625, a larger deficit (or surplus) never scores higher. */
  lemma DirectedScoreFalls(x: real, y: real)
    requires 625.0 <= x <= y
    ensures DirectedScore(y) <= DirectedScore(x)
  {
  }

  /** A larger surplus when losing weight never scores higher. */
  lemma WrongWayScoreFalls(x: real, y: real)
    requires 0.0 < x <= y
    ensures WrongWayScore(y) <= WrongWayScore(x)
  {
  }

  /**
   * For 'lose weight' the raw score rises as the net balance approaches the
   * ideal -625 from below and falls as it moves above it, through the
   * surplus side too.
   */
  lemma LoseRawTracksIdeal(n1: real, n2: real)
    requires n1 <= n2
    ensures n2 <= -625.0 ==> RawScore(n1, LoseWeight) <= RawScore(n2, LoseWeight)
    ensures -625.0 <= n1 ==> RawScore(n2, LoseWeight) <= RawScore(n1, LoseWeight)
  {
    if n2 <= -625.0 {
      DirectedScoreFalls(-n2, -n1);
    }
    if -625.0 <= n1 {
      if 0.0 < n1 {
        WrongWayScoreFalls(n1, n2);
      } else if 0.0 < n2 {
        DirectedScoreRises(-n1, -n1);
      } else {
        DirectedScoreRises(-n2, -n1);
      }
    }
  }

  /**
   * The score follows the goal's ideal balance: for 'lose weight' it rises as
   * the net balance moves up towards -625 and falls beyond it; for 'gain
   * weight' the same about +625.
   */
  lemma PerformanceTracksIdeal(i1: real, b1: int, c1: int, i2: real, b2: int, c2: int)
    requires b1 != 0 && b2 != 0
    requires Net(i1, b1, c1) <= Net(i2, b2, c2)
    ensures Net(i2, b2, c2) <= -625.0 ==>
              Performance(Some(i1), b1, c1, LoseWeight) <= Performance(Some(i2), b2, c2, LoseWeight)
    ensures -625.0 <= Net(i1, b1, c1) ==>
              Performance(Some(i2), b2, c2, LoseWeight) <= Performance(Some(i1), b1, c1, LoseWeight)
    ensures Net(i2, b2, c2) <= 625.0 ==>
              Performance(Some(i1), b1, c1, GainWeight) <= Performance(Some(i2), b2, c2, GainWeight)
    ensures 625.0 <= Net(i1, b1, c1) ==>
              Performance(Some(i2), b2, c2, GainWeight) <= Performance(Some(i1), b1, c1, GainWeight)
  {
    var n1, n2 := Net(i1, b1, c1), Net(i2, b2, c2);
    LoseRawTracksIdeal(n1, n2);
    LoseRawTracksIdeal(-n2, -n1);
    GainMirrorsLose(n1);
    GainMirrorsLose(n2);
    if n2 <= -625.0 {
      ClampMonotonic(RawScore(n1, LoseWeight), RawScore(n2, LoseWeight));
    }
    if -625.0 <= n1 {
      ClampMonotonic(RawScore(n2, LoseWeight), RawScore(n1, LoseWeight));
    }
    if n2 <= 625.0 {
      ClampMonotonic(RawScore(n1, GainWeight), RawScore(n2, GainWeight));
    }
    if 625.0 <= n1 {
      ClampMonotonic(RawScore(n2, GainWeight), RawScore(n1, GainWeight));
    }
  }

  /** For 'maintain weight' a larger imbalance, in either direction, never scores higher. */
  lemma MaintainScoreFalls(d1: real, d2: real, i1: real, b1: int, c1: int, i2: real, b2: int, c2: int)
    requires 0.0 <= d1 <= d2
    requires b1 != 0 && b2 != 0
    ensures MaintainScore(d2) <= MaintainScore(d1)
    ensures Abs(Net(i1, b1, c1)) <= Abs(Net(i2, b2, c2)) ==>
              Performance(Some(i2), b2, c2, MaintainWeight) <= Performance(Some(i1), b1, c1, MaintainWeight)
  {
    var a1, a2 := Abs(Net(i1, b1, c1)), Abs(Net(i2, b2, c2));
    if a1 <= a2 {
      assert MaintainScore(a2) <= MaintainScore(a1);
      ClampMonotonic(MaintainScore(a2), MaintainScore(a1));
    }
  }

  // ---------------------------------------------------------------- colours

  const Green := "#4CAF50"
  const Yellow := "#FFC107"
  const Orange := "#FF9800"
  const Red := "#F44336"

  /** getPerformanceColor: green from 76, yellow from 51, orange from 26, red below. */
  function PerformanceColor(score: int): (colour: string)
    ensures colour in {Green, Yellow, Orange, Red}
    ensures colour == Green <==> score >= 76
    ensures colour == Yellow <==> 51 <= score < 76
    ensures colour == Orange <==> 26 <= score < 51
    ensures colour == Red <==> score < 26
  {
    if score >= 76 then Green
    else if score >= 51 then Yellow
    else if score >= 26 then Orange
    else Red
  }

  /** 'maintain weight' scores only the size of the imbalance, never its sign. */
  lemma MaintainIgnoresSign(intake: real, bmr: int, burned: int, intake': real, burned': int)
    requires Abs(Net(intake, bmr, burned)) == Abs(Net(intake', bmr, burned'))
    ensures Performance(Some(intake), bmr, burned, MaintainWeight)
            == Performance(Some(intake'), bmr, burned', MaintainWeight)
  {
  }

  /** For 'maintain weight' the score bands line up with the colour thresholds. */
  lemma MaintainBands(intake: real, bmr: int, burned: int)
    requires bmr != 0
    ensures var dev := Abs(Net(intake, bmr, burned));
            var score := Performance(Some(intake), bmr, burned, MaintainWeight);
            && (dev <= 50.0 ==> 76 <= score <= 100 && PerformanceColor(score) == Green)
            && (50.0 < dev <= 150.0 ==> 51 <= score <= 75 && PerformanceColor(score) == Yellow)
            && (150.0 < dev <= 300.0 ==> 26 <= score <= 50 && PerformanceColor(score) == Orange)
            && (300.0 < dev ==> 1 <= score <= 25 && PerformanceColor(score) == Red)
  {
    var dev := Abs(Net(intake, bmr, burned));
    var raw := MaintainScore(dev);
    if dev <= 50.0 {
      RoundInRange(raw, 76, 100);
    } else if dev <= 150.0 {
      RoundInRange(raw, 51, 75);
    } else if dev <= 300.0 {
      RoundInRange(raw, 26, 50);
    } else {
      RoundInRange(raw, 1, 25);
    }
  }

  // ----------------------------------------------------------- recalculation

  /** What the calculator shows: its four state values; a NaN net balance is None. */
  datatype Display = Display(bmr: int, caloriesBurned: int, totalNetIntake: Option<real>, performance: int)

  /** The state before the first recalculation. */
  const InitialDisplay: Display := Display(0, 0, Some(0.0), 0)

  /** The user's stored fields and the three inputs, as read by parseFloat and Date. */
  datatype Inputs = Inputs(
    weight: Option<real>, height: Option<real>, birth: Option<CivilDate>, gender: string, goal: Goal,
    intake: Option<real>, exercise: string, minutes: Option<real>)

  function NetIntake(inputs: Inputs, bmr: int, burned: int): (net: Option<real>)
    ensures net.Some? <==> inputs.intake.Some?
    ensures net.Some? ==> net.value == Net(inputs.intake.value, bmr, burned)
  {
    if inputs.intake.None? then None else Some(Net(inputs.intake.value, bmr, burned))
  }

  /**
   * The effect and handleCalculate as written: BMR, calories burned and net
   * balance are computed afresh, but the performance is scored with the BMR and
   * calories burned still held from the previous display.
   */
  function RecalculateAsWritten(shown: Display, inputs: Inputs, today: CivilDate): (r: Display)
    ensures r.bmr == Bmr(inputs.weight, inputs.height, inputs.birth, inputs.gender, today)
    ensures r.caloriesBurned == CaloriesBurned(inputs.weight, inputs.minutes, inputs.exercise)
    ensures r.totalNetIntake == NetIntake(inputs, r.bmr, r.caloriesBurned)
    ensures r.performance == Performance(inputs.intake, shown.bmr, shown.caloriesBurned, inputs.goal)
  {
    var newBmr := Bmr(inputs.weight, inputs.height, inputs.birth, inputs.gender, today);
    var newBurned := CaloriesBurned(inputs.weight, inputs.minutes, inputs.exercise);
    Display(newBmr, newBurned, NetIntake(inputs, newBmr, newBurned),
            Performance(inputs.intake, shown.bmr, shown.caloriesBurned, inputs.goal))
  }

  /** The recalculation with the performance scored on the values it has just computed. */
  function Recalculate(inputs: Inputs, today: CivilDate): (r: Display)
    ensures r.bmr == Bmr(inputs.weight, inputs.height, inputs.birth, inputs.gender, today)
    ensures r.caloriesBurned == CaloriesBurned(inputs.weight, inputs.minutes, inputs.exercise)
    ensures r.totalNetIntake == NetIntake(inputs, r.bmr, r.caloriesBurned)
    ensures r.performance == Performance(inputs.intake, r.bmr, r.caloriesBurned, inputs.goal)
  {
    var newBmr := Bmr(inputs.weight, inputs.height, inputs.birth, inputs.gender, today);
    var newBurned := CaloriesBurned(inputs.weight, inputs.minutes, inputs.exercise);
    Display(newBmr, newBurned, NetIntake(inputs, newBmr, newBurned),
            Performance(inputs.intake, newBmr, newBurned, inputs.goal))
  }

  /**
   * As written, the first recalculation after the page opens always shows a
   * performance of 0, even when the fresh BMR and intake would score 1..100.
   */
  lemma FirstPerformanceStale(inputs: Inputs, today: CivilDate)
    requires inputs.intake.Some?
    requires Bmr(inputs.weight, inputs.height, inputs.birth, inputs.gender, today) != 0
    ensures RecalculateAsWritten(InitialDisplay, inputs, today).performance == 0
    ensures 1 <= Recalculate(inputs, today).performance <= 100
  {
  }

  /** The worked example: a 70 kg, 175 cm, 30-year-old man opening the page sees 0 where 1..100 is due. */
  lemma FirstPerformanceStaleExample()
    ensures var inputs := Inputs(Some(70.0), Some(175.0), Some(CivilDate(1994, 6, 15)), "Male", LoseWeight,
                                 Some(2000.0), "walking", Some(60.0));
            && RecalculateAsWritten(InitialDisplay, inputs, CivilDate(2024, 6, 15)).performance == 0
            && Recalculate(inputs, CivilDate(2024, 6, 15)).performance >= 1
  {
    BmrExamples();
    var inputs := Inputs(Some(70.0), Some(175.0), Some(CivilDate(1994, 6, 15)), "Male", LoseWeight,
                         Some(2000.0), "walking", Some(60.0));
    FirstPerformanceStale(inputs, CivilDate(2024, 6, 15));
  }

  /**
   * A second recalculation with unchanged inputs catches up: as written, the
   * display lags the fresh one by exactly one run, whatever it showed before.
   */
  lemma RecalculationCatchesUp(shown: Display, inputs: Inputs, today: CivilDate)
    ensures RecalculateAsWritten(RecalculateAsWritten(shown, inputs, today), inputs, today)
            == Recalculate(inputs, today)
  {
  }

  /**
   * The fresh display is consistent: its score is 0 exactly when the intake is
   * unreadable or the BMR is 0, and otherwise it scores the net balance it shows.
   */
  lemma RecalculateConsistent(inputs: Inputs, today: CivilDate)
    ensures var r := Recalculate(inputs, today);
            && (r.performance == 0 <==> r.totalNetIntake.None? || r.bmr == 0)
            && (r.totalNetIntake.Some? && r.bmr != 0 ==>
                  r.performance == ClampScore(RawScore(r.totalNetIntake.value, inputs.goal)))
  {
  }
}
