/**
 * The workout history view: the fixed sample list it shows, the inclusive
 * date-range filter and most-recent-first sort of fetchWorkouts, and the
 * totals of calculateTotals. Dates are day numbers (days since 1970-01-01,
 * which is how `new Date('YYYY-MM-DD')` orders them); an empty range field is
 * None.
 */
module MyWorkouts {
  import opened Common

  datatype Workout = Workout(
    id: string,
    name: string,
    kind: string,              // the source's `type`
    duration: real,
    date: int,
    caloriesBurned: real,
    notes: Option<string>,
    weight: Option<real>,
    netIntake: Option<real>)

  /** getSampleWorkoutData: fourteen workouts, one a day from 2024-05-30 back to 2024-05-17. */
  function SampleWorkouts(): (ws: seq<Workout>)
    ensures |ws| == 14
  {
    [
      Workout("sample-1", "Running", "cardio", 55.0, 19873 /* 2024-05-30 */, 385.0, Some("Long morning run"), Some(72.3), Some(450.0)),
      Workout("sample-2", "Strength Training", "strength", 50.0, 19872 /* 2024-05-29 */, 280.0, Some("Full body strength workout"), Some(72.5), Some(320.0)),
      Workout("sample-3", "Cycling", "cardio", 60.0, 19871 /* 2024-05-28 */, 420.0, Some("Mountain bike trail"), Some(72.1), Some(520.0)),
      Workout("sample-4", "Swimming", "cardio", 40.0, 19870 /* 2024-05-27 */, 320.0, Some("Pool laps and freestyle"), Some(72.6), Some(380.0)),
      Workout("sample-5", "Running", "cardio", 45.0, 19869 /* 2024-05-26 */, 309.0, Some("Morning run in the park"), Some(72.8), Some(350.0)),
      Workout("sample-6", "Walking", "cardio", 35.0, 19868 /* 2024-05-25 */, 137.0, Some("Evening walk"), Some(73.0), Some(180.0)),
      Workout("sample-7", "Strength Training", "strength", 60.0, 19867 /* 2024-05-24 */, 285.0, Some("Upper body workout"), Some(73.1), Some(340.0)),
      Workout("sample-8", "Cycling", "cardio", 50.0, 19866 /* 2024-05-23 */, 380.0, Some("Outdoor cycling"), Some(73.3), Some(420.0)),
      Workout("sample-9", "Yoga", "flexibility", 30.0, 19865 /* 2024-05-22 */, 95.0, Some("Morning yoga session"), Some(73.4), Some(120.0)),
      Workout("sample-10", "Running", "cardio", 40.0, 19864 /* 2024-05-21 */, 275.0, Some("Interval training"), Some(73.5), Some(310.0)),
      Workout("sample-11", "Swimming", "cardio", 45.0, 19863 /* 2024-05-20 */, 340.0, Some("Pool workout"), Some(73.7), Some(390.0)),
      Workout("sample-12", "Walking", "cardio", 25.0, 19862 /* 2024-05-19 */, 98.0, Some("Quick walk"), Some(73.8), Some(130.0)),
      Workout("sample-13", "Strength Training", "strength", 55.0, 19861 /* 2024-05-18 */, 260.0, Some("Full body workout"), Some(73.9), Some(300.0)),
      Workout("sample-14", "Dancing", "cardio", 40.0, 19860 /* 2024-05-17 */, 200.0, Some("Dance class"), Some(74.0), Some(240.0))
    ]
  }

  /** Dates strictly decrease along the sequence. */
  predicate StrictlyNewestFirst(ws: seq<Workout>) {
    forall i, j :: 0 <= i < j < |ws| ==> ws[i].date > ws[j].date
  }

  /** Dates never increase along the sequence (most recent first). */
  predicate NewestFirst(ws: seq<Workout>) {
    forall i, j :: 0 <= i < j < |ws| ==> ws[i].date >= ws[j].date
  }

  /** The sample's dates strictly decrease, one day at a time from 2024-05-30. */
  lemma SampleDates()
    ensures forall k :: 0 <= k < 14 ==> SampleWorkouts()[k].date == 19873 - k
    ensures StrictlyNewestFirst(SampleWorkouts())
  {
    var ws := SampleWorkouts();
    assert forall k :: 0 <= k < 14 ==> ws[k].date == 19873 - k;
  }

  /** The sample's ids, 'sample-1' to 'sample-14', are pairwise distinct. */
  lemma SampleIdsDistinct()
    ensures forall i, j :: 0 <= i < j < 14 ==> SampleWorkouts()[i].id != SampleWorkouts()[j].id
  {
    var ws := SampleWorkouts();
    assert forall k :: 0 <= k < 14 ==> |ws[k].id| == (if k < 9 then 8 else 9);
    assert forall k :: 0 <= k < 9 ==> ws[k].id[7] == "123456789"[k];
    assert forall k :: 9 <= k < 14 ==> ws[k].id[8] == "01234"[k - 9];
  }

  // ------------------------------------------------------------- date filter

  /** The filter's test: no start or on/after it, and no end or on/before it. */
  predicate InRange(w: Workout, start: Option<int>, end: Option<int>) {
    (start.None? || w.date >= start.value) && (end.None? || w.date <= end.value)
  }

  /** `workoutData.filter(...)`: the workouts in range, in their original order. */
  function KeepInRange(ws: seq<Workout>, start: Option<int>, end: Option<int>): (r: seq<Workout>)
    ensures |r| <= |ws|
    ensures forall w :: w in r <==> w in ws && InRange(w, start, end)
    ensures IsSubsequence(r, ws)
    ensures forall w :: multiset(r)[w] == if InRange(w, start, end) then multiset(ws)[w] else 0
  {
    if ws == [] then []
    else
      var rest := KeepInRange(ws[1..], start, end);
      assert ws == [ws[0]] + ws[1..];
      if InRange(ws[0], start, end) then [ws[0]] + rest
      else
        assert rest != [] ==> rest[0] != ws[0] by {
          if rest != [] {
            assert rest[0] in rest;
          }
        }
        rest
  }

  /** fetchWorkouts' filtering step: applied only when a start or an end is given. */
  function FilterByDate(ws: seq<Workout>, start: Option<int>, end: Option<int>): (r: seq<Workout>)
    ensures start.None? && end.None? ==> r == ws
    ensures forall w :: w in r <==> w in ws && InRange(w, start, end)
    ensures IsSubsequence(r, ws) && |r| <= |ws|
  {
    if start.Some? || end.Some? then KeepInRange(ws, start, end)
    else
      SubsequenceOfItself(ws);
      ws
  }

  // ------------------------------------------------------------------- sort

  /** Swap-based insertion sort, most recent first: the array ends up a sorted permutation of itself. */
  method SortNewestFirst(a: array<Workout>)
    modifies a
    ensures NewestFirst(a[..])
    ensures multiset(a[..]) == multiset(old(a[..]))
  {
    var i := 0;
    while i < a.Length
      invariant 0 <= i <= a.Length
      invariant NewestFirst(a[..i])
      invariant multiset(a[..]) == multiset(old(a[..]))
    {
      InsertNewestFirst(a, i);
      i := i + 1;
    }
  }

  /** Moves a[i] left past every older entry, so that a[..i + 1] becomes sorted. */
  method InsertNewestFirst(a: array<Workout>, i: nat)
    requires i < a.Length
    requires NewestFirst(a[..i])
    modifies a
    ensures NewestFirst(a[..i + 1])
    ensures a[i + 1..] == old(a[i + 1..])
    ensures multiset(a[..]) == multiset(old(a[..]))
  {
    InsertionStart(a[..], i);
    var j := i;
    while j > 0 && a[j - 1].date < a[j].date
      invariant 0 <= j <= i
      invariant Inserting(a[..], j, i)
      invariant multiset(a[..]) == multiset(old(a[..]))
      invariant a[i + 1..] == old(a[i + 1..])
    {
      ghost var before := a[..];
      a[j - 1], a[j] := a[j], a[j - 1];
      assert a[..] == Swap(before, j - 1, j);
      InsertionStep(before, j, i);
      j := j - 1;
    }
    InsertionDone(a[..], j, i);
  }

  /**
   * The state of one insertion pass over s[..i + 1]: the moving entry sits at
   * j and is newer than everything after it, and the rest is in order.
   */
  ghost predicate Inserting(s: seq<Workout>, j: nat, i: nat) {
    && j <= i < |s|
    && (forall p, q :: 0 <= p < q <= i && p != j && q != j ==> s[p].date >= s[q].date)
    && (forall q :: j < q <= i ==> s[j].date > s[q].date)
  }

  function Swap(s: seq<Workout>, x: nat, y: nat): (r: seq<Workout>)
    requires x < |s| && y < |s|
    ensures |r| == |s| && multiset(r) == multiset(s)
  {
    s[x := s[y]][y := s[x]]
  }

  lemma InsertionStart(s: seq<Workout>, i: nat)
    requires i < |s| && NewestFirst(s[..i])
    ensures Inserting(s, i, i)
  {
    forall p, q | 0 <= p < q <= i && p != i && q != i ensures s[p].date >= s[q].date {
      assert s[..i][p] == s[p] && s[..i][q] == s[q];
    }
  }

  lemma InsertionStep(s: seq<Workout>, j: nat, i: nat)
    requires Inserting(s, j, i) && 0 < j && s[j - 1].date < s[j].date
    ensures Inserting(Swap(s, j - 1, j), j - 1, i)
  {
  }

  lemma InsertionDone(s: seq<Workout>, j: nat, i: nat)
    requires Inserting(s, j, i) && (j == 0 || s[j - 1].date >= s[j].date)
    ensures NewestFirst(s[..i + 1])
  {
    var t := s[..i + 1];
    forall p, q | 0 <= p < q < |t| ensures t[p].date >= t[q].date {
      assert t[p] == s[p] && t[q] == s[q];
      if q == j && p + 1 < j {
        assert s[p].date >= s[j - 1].date;
      }
    }
  }

  /** A sorted rearrangement of a list whose dates strictly decrease is that list itself. */
  lemma {:induction false} SortedPermutationOfStrict(s: seq<Workout>, t: seq<Workout>)
    requires StrictlyNewestFirst(s) && NewestFirst(t)
    requires multiset(t) == multiset(s)
    ensures t == s
    decreases |s|
  {
    if s != [] {
      SameHead(s, t);
      SameTailOrder(s, t);
      SortedPermutationOfStrict(s[1..], t[1..]);
      assert s == [s[0]] + s[1..] && t == [t[0]] + t[1..];
    }
  }

  /** Both lists start with the newest workout, which the strict order makes unique. */
  lemma SameHead(s: seq<Workout>, t: seq<Workout>)
    requires StrictlyNewestFirst(s) && NewestFirst(t)
    requires multiset(t) == multiset(s) && s != []
    ensures |t| == |s| && t[0] == s[0]
  {
    assert |t| == |s| by {
      assert |multiset(t)| == |multiset(s)|;
    }
    assert t[0] in multiset(s);
    assert s[0] in multiset(t);
    var p :| 0 <= p < |s| && s[p] == t[0];
    var q :| 0 <= q < |t| && t[q] == s[0];
    assert t[0].date >= t[q].date;
    assert s[p].date >= s[0].date;
    assert p == 0;
  }

  /** Dropping the common head keeps both orders and the equal multisets. */
  lemma SameTailOrder(s: seq<Workout>, t: seq<Workout>)
    requires StrictlyNewestFirst(s) && NewestFirst(t)
    requires multiset(t) == multiset(s) && s != [] && |t| == |s| && t[0] == s[0]
    ensures StrictlyNewestFirst(s[1..]) && NewestFirst(t[1..])
    ensures multiset(t[1..]) == multiset(s[1..])
  {
    var s', t' := s[1..], t[1..];
    forall i, j | 0 <= i < j < |s'| ensures s'[i].date > s'[j].date {
      assert s'[i] == s[i + 1] && s'[j] == s[j + 1];
    }
    forall i, j | 0 <= i < j < |t'| ensures t'[i].date >= t'[j].date {
      assert t'[i] == t[i + 1] && t'[j] == t[j + 1];
    }
    TailMultiset(s);
    TailMultiset(t);
  }

  lemma TailMultiset<T>(s: seq<T>)
    requires s != []
    ensures multiset(s[1..]) == multiset(s) - multiset{s[0]}
  {
    assert s == [s[0]] + s[1..];
  }

  /** The body of fetchWorkouts for a given list: filter when a bound is given, then sort in place. */
  method FilterAndSort(workouts: seq<Workout>, start: Option<int>, end: Option<int>) returns (shown: seq<Workout>)
    ensures NewestFirst(shown)
    ensures multiset(shown) == multiset(FilterByDate(workouts, start, end))
    ensures forall w :: w in shown <==> w in workouts && InRange(w, start, end)
  {
    var workoutData := workouts;
    if start.Some? || end.Some? {
      workoutData := KeepInRange(workoutData, start, end);
    }
    var a := new Workout[|workoutData|](k requires 0 <= k < |workoutData| => workoutData[k]);
    assert a[..] == workoutData;
    SortNewestFirst(a);
    shown := a[..];
    assert forall w :: w in shown <==> w in workoutData by {
      assert forall w :: w in shown <==> w in multiset(shown);
      assert forall w :: w in workoutData <==> w in multiset(workoutData);
    }
  }

  /**
   * fetchWorkouts: the sample list, filtered when a start or an end is given,
   * then sorted most recent first. Without a range it is the sample list
   * exactly as written.
   */
  method FetchWorkouts(start: Option<int>, end: Option<int>) returns (shown: seq<Workout>)
    ensures NewestFirst(shown)
    ensures multiset(shown) == multiset(FilterByDate(SampleWorkouts(), start, end))
    ensures forall w :: w in shown <==> w in SampleWorkouts() && InRange(w, start, end)
    ensures start.None? && end.None? ==> shown == SampleWorkouts()
  {
    var sample := SampleWorkouts();
    shown := FilterAndSort(sample, start, end);
    if start.None? && end.None? {
      SampleDates();
      SortedPermutationOfStrict(sample, shown);
    }
  }

  // ----------------------------------------------------------------- totals

  function Duration(w: Workout): real { w.duration }
  function Calories(w: Workout): real { w.caloriesBurned }
  /** `workout.netIntake || 0`. */
  function NetIntakeOrZero(w: Workout): real { w.netIntake.GetOr(0.0) }
  /** `workout.weight || 0`. */
  function WeightOrZero(w: Workout): real { w.weight.GetOr(0.0) }

  /** `w.weight && w.weight > 0`. */
  predicate HasWeight(w: Workout) {
    w.weight.Some? && w.weight.value > 0.0
  }

  /** The workouts that carry a positive weight, in order. */
  function WithWeight(ws: seq<Workout>): (r: seq<Workout>)
    ensures forall i :: 0 <= i < |r| ==> HasWeight(r[i])
    ensures forall w :: multiset(r)[w] == if HasWeight(w) then multiset(ws)[w] else 0
  {
    if ws == [] then []
    else
      assert ws == [ws[0]] + ws[1..];
      var rest := WithWeight(ws[1..]);
      if HasWeight(ws[0]) then [ws[0]] + rest else rest
  }

  datatype Totals = Totals(totalDuration: real, totalCalories: real, totalNetIntake: real, avgWeight: real)

  /** calculateTotals over the workouts on display. */
  function CalculateTotals(ws: seq<Workout>): (t: Totals)
    ensures ws == [] ==> t == Totals(0.0, 0.0, 0.0, 0.0)
    ensures WithWeight(ws) == [] ==> t.avgWeight == 0.0
  {
    var totalDuration := SumOf(ws, Duration);
    var totalCalories := SumOf(ws, Calories);
    var totalNetIntake := SumOf(ws, NetIntakeOrZero);
    var workoutsWithWeight := WithWeight(ws);
    var avgWeight := if |workoutsWithWeight| > 0
      then SumOf(workoutsWithWeight, WeightOrZero) / |workoutsWithWeight| as real
      else 0.0;
    Totals(totalDuration, totalCalories, totalNetIntake, avgWeight)
  }

  /** The average weight lies between the smallest and the largest recorded positive weight. */
  lemma AvgWeightBounds(ws: seq<Workout>, lo: real, hi: real)
    requires forall w :: w in ws && HasWeight(w) ==> lo <= w.weight.value <= hi
    requires WithWeight(ws) != []
    ensures lo <= CalculateTotals(ws).avgWeight <= hi
  {
    var r := WithWeight(ws);
    forall i | 0 <= i < |r|
      ensures lo <= WeightOrZero(r[i]) <= hi
    {
      assert multiset(r)[r[i]] > 0;
      assert r[i] in ws;
    }
    MeanBounds(r, WeightOrZero, lo, hi);
  }

  /** The totals do not depend on the order of the workouts, so sorting never changes them. */
  lemma TotalsIgnoreOrder(ws: seq<Workout>, vs: seq<Workout>)
    requires multiset(ws) == multiset(vs)
    ensures CalculateTotals(ws) == CalculateTotals(vs)
  {
    SumOfPermutation(ws, vs, Duration);
    SumOfPermutation(ws, vs, Calories);
    SumOfPermutation(ws, vs, NetIntakeOrZero);
    assert multiset(WithWeight(ws)) == multiset(WithWeight(vs));
    assert |WithWeight(ws)| == |WithWeight(vs)| by {
      assert |multiset(WithWeight(ws))| == |multiset(WithWeight(vs))|;
    }
    SumOfPermutation(WithWeight(ws), WithWeight(vs), WeightOrZero);
  }

  /** Totals over two batches of workouts add up (for duration, calories and net intake). */
  lemma TotalsAppend(ws: seq<Workout>, vs: seq<Workout>)
    ensures CalculateTotals(ws + vs).totalDuration == CalculateTotals(ws).totalDuration + CalculateTotals(vs).totalDuration
    ensures CalculateTotals(ws + vs).totalCalories == CalculateTotals(ws).totalCalories + CalculateTotals(vs).totalCalories
    ensures CalculateTotals(ws + vs).totalNetIntake == CalculateTotals(ws).totalNetIntake + CalculateTotals(vs).totalNetIntake
  {
    SumOfAppend(ws, vs, Duration);
    SumOfAppend(ws, vs, Calories);
    SumOfAppend(ws, vs, NetIntakeOrZero);
  }
}
