/**
 * The workout log (src/store/workoutStore.ts): a store holding the list of
 * workouts, kept newest first by `addWorkout`, with update, delete, lookup
 * and summary statistics.
 */
module Workouts {
  import opened Wrappers
  import opened WorkoutTypes
  import opened WorkoutHistory

  // ---------------------------------------------------------------------
  // Building a new workout from the form
  // ---------------------------------------------------------------------

  /** The form's exercise with a fresh id added. */
  function WithId(d: ExerciseDraft, id: string): (e: Exercise)
    ensures e.id == id && WithoutId(e) == d
  {
    Exercise(id, d.name, d.sets, d.reps, d.weight, d.unit, d.notes)
  }

  /** The record `addWorkout` creates; `id` and `exerciseIds` stand for the fresh ids it draws. */
  function NewWorkout(form: WorkoutFormData, id: string, exerciseIds: seq<string>, now: Millis): (w: Workout)
    requires |exerciseIds| == |form.exercises|
    ensures w.id == id && w.date == now && w.createdAt == now && w.updatedAt == now
    ensures !w.syncedToHealthKit
    ensures w.workoutType == form.workoutType && w.duration == form.duration && w.notes == form.notes
    ensures w.caloriesBurned == None && w.media == None && w.voiceNote == None
    ensures |w.exercises| == |form.exercises|
    ensures forall i :: 0 <= i < |w.exercises| ==>
              w.exercises[i].id == exerciseIds[i] && WithoutId(w.exercises[i]) == form.exercises[i]
  {
    var exercises := seq(|form.exercises|, i requires 0 <= i < |form.exercises| => WithId(form.exercises[i], exerciseIds[i]));
    Workout(id, now, form.workoutType, exercises, form.duration, None, form.notes, None, None, now, now, false)
  }

  /** The form fields of an exercise. */
  function WithoutId(e: Exercise): ExerciseDraft {
    ExerciseDraft(e.name, e.sets, e.reps, e.weight, e.unit, e.notes)
  }

  // ---------------------------------------------------------------------
  // Sorting by date, newest first
  // ---------------------------------------------------------------------

  /** Newest first: no workout is newer than one before it. */
  predicate SortedByDateDesc(ws: seq<Workout>): (b: bool)
    ensures b ==> forall i :: 0 < i < |ws| ==> ws[i - 1].date >= ws[i].date
    ensures b && ws != [] ==> forall v :: v in ws ==> v.date <= ws[0].date
  {
    forall i, j :: 0 <= i < j < |ws| ==> ws[i].date >= ws[j].date
  }

  /**
   * Puts `w` after every workout strictly newer than it and before the
   * rest, which is where a stable sort puts an element that came first.
   */
  function InsertByDate(w: Workout, ws: seq<Workout>): (r: seq<Workout>)
    ensures |r| == |ws| + 1
    ensures multiset(r) == multiset(ws) + multiset{w}
  {
    if ws == [] || ws[0].date <= w.date then [w] + ws
    else
      assert ws == [ws[0]] + ws[1..];
      [ws[0]] + InsertByDate(w, ws[1..])
  }

  /** Inserting a workout no newer than `d` into workouts no newer than `d` gives workouts no newer than `d`. */
  lemma {:induction false} InsertBounded(w: Workout, ws: seq<Workout>, d: Millis)
    requires w.date <= d
    requires forall i :: 0 <= i < |ws| ==> ws[i].date <= d
    ensures forall i :: 0 <= i < |ws| + 1 ==> InsertByDate(w, ws)[i].date <= d
  {
    if ws != [] && ws[0].date > w.date {
      InsertBounded(w, ws[1..], d);
    }
  }

  /** Inserting into a list kept newest first keeps it newest first. */
  lemma {:induction false} InsertKeepsSorted(w: Workout, ws: seq<Workout>)
    requires SortedByDateDesc(ws)
    ensures SortedByDateDesc(InsertByDate(w, ws))
  {
    if ws != [] && ws[0].date > w.date {
      var tail := ws[1..];
      var rest := InsertByDate(w, tail);
      assert SortedByDateDesc(tail);
      InsertKeepsSorted(w, tail);
      InsertBounded(w, tail, ws[0].date);
      var r := [ws[0]] + rest;
      assert forall i :: 1 <= i < |r| ==> r[i] == rest[i - 1];
    }
  }

  /** The log sorted by date, newest first; the sort is stable, so workouts with equal dates keep their order. */
  function SortByDateDesc(ws: seq<Workout>): (r: seq<Workout>)
    ensures |r| == |ws|
    ensures multiset(r) == multiset(ws)
    ensures SortedByDateDesc(r)
  {
    if ws == [] then []
    else
      assert ws == [ws[0]] + ws[1..];
      InsertKeepsSorted(ws[0], SortByDateDesc(ws[1..]));
      InsertByDate(ws[0], SortByDateDesc(ws[1..]))
  }

  /** The workouts of the list with date `d`, in their order. */
  function WithDate(ws: seq<Workout>, d: Millis): (r: seq<Workout>)
    ensures forall v :: v in r <==> v in ws && v.date == d
  {
    if ws == [] then []
    else (if ws[0].date == d then [ws[0]] else []) + WithDate(ws[1..], d)
  }

  /** The per-date filter works piecewise, so it keeps the order of the list. */
  lemma {:induction false} WithDateAppend(a: seq<Workout>, b: seq<Workout>, d: Millis)
    ensures WithDate(a + b, d) == WithDate(a, d) + WithDate(b, d)
  {
    if a != [] {
      assert (a + b)[1..] == a[1..] + b;
      WithDateAppend(a[1..], b, d);
    } else {
      assert a + b == b;
    }
  }

  /** Placing `w` keeps the workouts of each date in order and puts `w` before those dated like it. */
  lemma {:induction false} InsertWithDate(w: Workout, ws: seq<Workout>, d: Millis)
    ensures WithDate(InsertByDate(w, ws), d) == (if w.date == d then [w] else []) + WithDate(ws, d)
  {
    if ws == [] || ws[0].date <= w.date {
      assert InsertByDate(w, ws) == [w] + ws;
      assert ([w] + ws)[1..] == ws;
    } else {
      var tail := ws[1..];
      var r := InsertByDate(w, ws);
      InsertWithDate(w, tail, d);
      assert r == [ws[0]] + InsertByDate(w, tail);
      assert r[0] == ws[0] && r[1..] == InsertByDate(w, tail);
      if w.date == d {
        assert WithDate(r, d) == WithDate(InsertByDate(w, tail), d);
        assert WithDate(ws, d) == WithDate(tail, d);
      } else {
        assert WithDate(r, d) == (if ws[0].date == d then [ws[0]] else []) + WithDate(tail, d);
      }
    }
  }

  /** The sort is stable: for every date, the workouts with that date keep their relative order. */
  lemma {:induction false} SortIsStable(ws: seq<Workout>, d: Millis)
    ensures WithDate(SortByDateDesc(ws), d) == WithDate(ws, d)
  {
    if ws != [] {
      SortIsStable(ws[1..], d);
      InsertWithDate(ws[0], SortByDateDesc(ws[1..]), d);
    }
  }

  /** Sorting a list that is already newest first leaves it as it is (the sort is stable). */
  lemma {:induction false} SortSortedIsIdentity(ws: seq<Workout>)
    requires SortedByDateDesc(ws)
    ensures SortByDateDesc(ws) == ws
  {
    if ws != [] {
      assert SortedByDateDesc(ws[1..]);
      SortSortedIsIdentity(ws[1..]);
      assert ws == [ws[0]] + ws[1..];
    }
  }

  /** A workout no older than every logged one is put at the head of the list. */
  lemma NewestAddedGoesFirst(w: Workout, ws: seq<Workout>)
    requires forall v :: v in ws ==> v.date <= w.date
    ensures SortByDateDesc([w] + ws)[0] == w
  {
    assert ([w] + ws)[1..] == ws;
    var sorted := SortByDateDesc(ws);
    if sorted != [] {
      assert sorted[0] in multiset(ws);
    }
  }

  /** Adding the newest workout to a list kept newest first prepends it and moves nothing else. */
  lemma AddToSortedPrepends(w: Workout, ws: seq<Workout>)
    requires SortedByDateDesc(ws)
    requires forall v :: v in ws ==> v.date <= w.date
    ensures SortByDateDesc([w] + ws) == [w] + ws
  {
    assert SortedByDateDesc([w] + ws);
    SortSortedIsIdentity([w] + ws);
  }

  // ---------------------------------------------------------------------
  // Update, delete, lookup
  // ---------------------------------------------------------------------

  /**
   * The workout with the patch spread over it and then `updatedAt` set to
   * now: a field the patch gives takes the new value, any other keeps the
   * old one, and `updatedAt` is now even when the patch gives one.
   */
  function ApplyPatch(w: Workout, p: WorkoutPatch, now: Millis): (r: Workout)
    ensures r.updatedAt == now
    ensures (p.id.Some? ==> r.id == p.id.value) && (p.id.None? ==> r.id == w.id)
    ensures (p.date.Some? ==> r.date == p.date.value) && (p.date.None? ==> r.date == w.date)
    ensures (p.workoutType.Some? ==> r.workoutType == p.workoutType.value) && (p.workoutType.None? ==> r.workoutType == w.workoutType)
    ensures (p.exercises.Some? ==> r.exercises == p.exercises.value) && (p.exercises.None? ==> r.exercises == w.exercises)
    ensures (p.duration.Some? ==> r.duration == p.duration.value) && (p.duration.None? ==> r.duration == w.duration)
    ensures (p.caloriesBurned.Some? ==> r.caloriesBurned == p.caloriesBurned.value) && (p.caloriesBurned.None? ==> r.caloriesBurned == w.caloriesBurned)
    ensures (p.notes.Some? ==> r.notes == p.notes.value) && (p.notes.None? ==> r.notes == w.notes)
    ensures (p.media.Some? ==> r.media == p.media.value) && (p.media.None? ==> r.media == w.media)
    ensures (p.voiceNote.Some? ==> r.voiceNote == p.voiceNote.value) && (p.voiceNote.None? ==> r.voiceNote == w.voiceNote)
    ensures (p.createdAt.Some? ==> r.createdAt == p.createdAt.value) && (p.createdAt.None? ==> r.createdAt == w.createdAt)
    ensures (p.syncedToHealthKit.Some? ==> r.syncedToHealthKit == p.syncedToHealthKit.value) && (p.syncedToHealthKit.None? ==> r.syncedToHealthKit == w.syncedToHealthKit)
  {
    Workout(
      p.id.GetOr(w.id), p.date.GetOr(w.date), p.workoutType.GetOr(w.workoutType),
      p.exercises.GetOr(w.exercises), p.duration.GetOr(w.duration),
      p.caloriesBurned.GetOr(w.caloriesBurned), p.notes.GetOr(w.notes),
      p.media.GetOr(w.media), p.voiceNote.GetOr(w.voiceNote),
      p.createdAt.GetOr(w.createdAt), now, p.syncedToHealthKit.GetOr(w.syncedToHealthKit))
  }

  /** Patches every workout with this id where it stands; the others are left as they are. */
  function UpdateById(ws: seq<Workout>, id: string, p: WorkoutPatch, now: Millis): (r: seq<Workout>)
    ensures |r| == |ws|
    ensures forall i :: 0 <= i < |ws| && ws[i].id != id ==> r[i] == ws[i]
    ensures forall i :: 0 <= i < |ws| && ws[i].id == id ==> r[i] == ApplyPatch(ws[i], p, now) && r[i].updatedAt == now
  {
    if ws == [] then []
    else [if ws[0].id == id then ApplyPatch(ws[0], p, now) else ws[0]] + UpdateById(ws[1..], id, p, now)
  }

  /** Updating an id that is not in the log changes nothing. */
  lemma UpdateAbsentIsNoop(ws: seq<Workout>, id: string, p: WorkoutPatch, now: Millis)
    requires forall v :: v in ws ==> v.id != id
    ensures UpdateById(ws, id, p, now) == ws
  {
    var r := UpdateById(ws, id, p, now);
    assert forall i :: 0 <= i < |ws| ==> r[i] == ws[i];
  }

  /** Updating does not re-sort: a date change can leave the list out of date order. */
  lemma UpdateMayBreakOrder()
    ensures exists ws: seq<Workout>, id: string, p: WorkoutPatch, now: Millis ::
              SortedByDateDesc(ws) && !SortedByDateDesc(UpdateById(ws, id, p, now))
  {
    var a := Workout("a", 2 * DayMs, Strength, [], 30.0, None, None, None, None, 0, 0, false);
    var b := Workout("b", DayMs, Cardio, [], 20.0, None, None, None, None, 0, 0, false);
    var p := WorkoutPatch(None, Some(3 * DayMs), None, None, None, None, None, None, None, None, None, None);
    var ws := [a, b];
    var r := UpdateById(ws, "b", p, 0);
    assert r[0] == a && r[1].date == 3 * DayMs;
    assert SortedByDateDesc(ws) && !SortedByDateDesc(r);
  }

  /** The log without the workouts that have this id, in the order of the log. */
  function RemoveById(ws: seq<Workout>, id: string): (r: seq<Workout>)
    ensures |r| <= |ws|
    ensures forall v :: v in r <==> v in ws && v.id != id
  {
    if ws == [] then []
    else (if ws[0].id != id then [ws[0]] else []) + RemoveById(ws[1..], id)
  }

  /** Removal works piecewise, so the workouts it keeps stay in their order. */
  lemma {:induction false} RemoveByIdAppend(a: seq<Workout>, b: seq<Workout>, id: string)
    ensures RemoveById(a + b, id) == RemoveById(a, id) + RemoveById(b, id)
  {
    if a != [] {
      assert (a + b)[1..] == a[1..] + b;
      RemoveByIdAppend(a[1..], b, id);
    } else {
      assert a + b == b;
    }
  }

  /** Removing an id that is not in the log changes nothing. */
  lemma {:induction false} RemoveAbsentIsNoop(ws: seq<Workout>, id: string)
    requires forall v :: v in ws ==> v.id != id
    ensures RemoveById(ws, id) == ws
  {
    if ws != [] {
      RemoveAbsentIsNoop(ws[1..], id);
      assert ws == [ws[0]] + ws[1..];
    }
  }

  /** Deleting twice is deleting once. */
  lemma RemoveIsIdempotent(ws: seq<Workout>, id: string)
    ensures RemoveById(RemoveById(ws, id), id) == RemoveById(ws, id)
  {
    RemoveAbsentIsNoop(RemoveById(ws, id), id);
  }

  /** Every workout has its own id. */
  predicate IdsUnique(ws: seq<Workout>) {
    forall i, j :: 0 <= i < j < |ws| ==> ws[i].id != ws[j].id
  }

  lemma TailIdsUnique(ws: seq<Workout>)
    requires IdsUnique(ws) && ws != []
    ensures IdsUnique(ws[1..])
    ensures forall v :: v in ws[1..] ==> v.id != ws[0].id
  {
    var tail := ws[1..];
    forall i, j | 0 <= i < j < |tail| ensures tail[i].id != tail[j].id {
      assert tail[i] == ws[i + 1] && tail[j] == ws[j + 1];
    }
    forall v | v in tail ensures v.id != ws[0].id {
      var i :| 0 <= i < |tail| && tail[i] == v;
      assert ws[1 + i] == v;
    }
  }

  /** Cutting out an element after the head is cutting it out of the tail. */
  lemma CutOutAfterHead<T>(s: seq<T>, k: nat)
    requires 0 < k < |s|
    ensures s[..k] + s[k + 1..] == [s[0]] + (s[1..][..k - 1] + s[1..][k..])
  {
    assert s[..k] == [s[0]] + s[1..][..k - 1];
    assert s[k + 1..] == s[1..][k..];
  }

  /** With unique ids, deleting a workout's id cuts exactly that workout out of the list. */
  lemma {:induction false} RemoveUniqueCutsOut(ws: seq<Workout>, k: nat)
    requires IdsUnique(ws) && k < |ws|
    ensures RemoveById(ws, ws[k].id) == ws[..k] + ws[k + 1..]
  {
    var id, tail := ws[k].id, ws[1..];
    TailIdsUnique(ws);
    if k == 0 {
      RemoveAbsentIsNoop(tail, id);
    } else {
      assert tail[k - 1] == ws[k];
      RemoveUniqueCutsOut(tail, k - 1);
      assert RemoveById(ws, id) == [ws[0]] + RemoveById(tail, id);
      CutOutAfterHead(ws, k);
    }
  }

  /** The first workout of the log with this id, if any. */
  function FindById(ws: seq<Workout>, id: string): (r: Option<Workout>)
    ensures r.None? <==> forall i :: 0 <= i < |ws| ==> ws[i].id != id
    ensures r.Some? ==> exists k :: 0 <= k < |ws| && ws[k] == r.value && r.value.id == id &&
                                    forall j :: 0 <= j < k ==> ws[j].id != id
  {
    if ws == [] then None
    else if ws[0].id == id then Some(ws[0])
    else
      var r := FindById(ws[1..], id);
      assert r.Some? ==> exists k :: 0 <= k < |ws[1..]| && ws[1..][k] == r.value && r.value.id == id &&
                                    forall j :: 0 <= j < k ==> ws[1..][j].id != id;
      assert r.Some? ==> exists k :: 1 <= k < |ws| && ws[k] == r.value && r.value.id == id &&
                                    forall j :: 0 <= j < k ==> ws[j].id != id;
      r
  }

  /** After adding a workout under a fresh id, looking that id up finds the new workout. */
  lemma FindAfterAdd(w: Workout, ws: seq<Workout>)
    requires forall v :: v in ws ==> v.id != w.id
    ensures FindById(SortByDateDesc([w] + ws), w.id) == Some(w)
  {
    var r := SortByDateDesc([w] + ws);
    assert w in multiset(r);
    var found := FindById(r, w.id);
    assert found.Some?;
    assert found.value in multiset([w] + ws);
  }

  /** Looking up an id that was just deleted finds nothing. */
  lemma FindAfterRemove(ws: seq<Workout>, id: string)
    ensures FindById(RemoveById(ws, id), id) == None
  {
    var r := RemoveById(ws, id);
    assert forall i :: 0 <= i < |r| ==> r[i] in r;
  }

  // ---------------------------------------------------------------------
  // Statistics
  // ---------------------------------------------------------------------

  /** The total duration of the log, in minutes. */
  function SumDuration(ws: seq<Workout>): (r: real)
    ensures (forall i :: 0 <= i < |ws| ==> ws[i].duration >= 0.0) ==> r >= 0.0
  {
    if ws == [] then 0.0
    else
      assert forall i :: 1 <= i < |ws| ==> ws[1..][i - 1] == ws[i];
      ws[0].duration + SumDuration(ws[1..])
  }

  /** The total calories of the log; a workout without a value adds 0. */
  function SumCalories(ws: seq<Workout>): (r: real)
    ensures (forall i :: 0 <= i < |ws| ==> ws[i].caloriesBurned.None?) ==> r == 0.0
    ensures |ws| == 1 ==> r == ws[0].caloriesBurned.GetOr(0.0)
  {
    if ws == [] then 0.0
    else
      assert forall i :: 1 <= i < |ws| ==> ws[1..][i - 1] == ws[i];
      ws[0].caloriesBurned.GetOr(0.0) + SumCalories(ws[1..])
  }

  /** The duration total works piecewise, so summing left to right, one workout at a time, gives the same total. */
  lemma {:induction false} SumDurationAppend(a: seq<Workout>, b: seq<Workout>)
    ensures SumDuration(a + b) == SumDuration(a) + SumDuration(b)
  {
    if a != [] {
      assert (a + b)[1..] == a[1..] + b;
      SumDurationAppend(a[1..], b);
    } else {
      assert a + b == b;
    }
  }

  /** One step of the left-to-right sum: the first `i + 1` workouts total the first `i` plus the next one's duration. */
  lemma SumDurationStep(ws: seq<Workout>, i: nat)
    requires i < |ws|
    ensures SumDuration(ws[..i + 1]) == SumDuration(ws[..i]) + ws[i].duration
  {
    assert ws[..i + 1] == ws[..i] + [ws[i]];
    SumDurationAppend(ws[..i], [ws[i]]);
  }

  /** One step of the left-to-right sum: the first `i + 1` workouts total the first `i` plus the next one's calories, or 0. */
  lemma SumCaloriesStep(ws: seq<Workout>, i: nat)
    requires i < |ws|
    ensures SumCalories(ws[..i + 1]) == SumCalories(ws[..i]) + ws[i].caloriesBurned.GetOr(0.0)
  {
    assert ws[..i + 1] == ws[..i] + [ws[i]];
    SumCaloriesAppend(ws[..i], [ws[i]]);
  }

  /** The calorie total works piecewise, so summing left to right, one workout at a time, gives the same total. */
  lemma {:induction false} SumCaloriesAppend(a: seq<Workout>, b: seq<Workout>)
    ensures SumCalories(a + b) == SumCalories(a) + SumCalories(b)
  {
    if a != [] {
      assert (a + b)[1..] == a[1..] + b;
      SumCaloriesAppend(a[1..], b);
    } else {
      assert a + b == b;
    }
  }

  /** Inserting a workout adds exactly its duration to the total. */
  lemma {:induction false} InsertSumDuration(w: Workout, ws: seq<Workout>)
    ensures SumDuration(InsertByDate(w, ws)) == w.duration + SumDuration(ws)
  {
    if ws != [] && ws[0].date > w.date {
      InsertSumDuration(w, ws[1..]);
      assert ([ws[0]] + InsertByDate(w, ws[1..]))[1..] == InsertByDate(w, ws[1..]);
    } else {
      assert ([w] + ws)[1..] == ws;
    }
  }

  /** Sorting does not change the total duration. */
  lemma {:induction false} SortSumDuration(ws: seq<Workout>)
    ensures SumDuration(SortByDateDesc(ws)) == SumDuration(ws)
  {
    if ws != [] {
      SortSumDuration(ws[1..]);
      InsertSumDuration(ws[0], SortByDateDesc(ws[1..]));
    }
  }

  /** After `addWorkout` the total duration grows by exactly the new workout's duration. */
  lemma AddSumDuration(w: Workout, ws: seq<Workout>)
    ensures SumDuration(SortByDateDesc([w] + ws)) == w.duration + SumDuration(ws)
  {
    SortSumDuration([w] + ws);
    assert ([w] + ws)[1..] == ws;
  }

  /** With no negative calorie values, the calorie total is not negative; a missing value adds nothing. */
  lemma {:induction false} SumCaloriesNonNegative(ws: seq<Workout>)
    requires forall v :: v in ws && v.caloriesBurned.Some? ==> v.caloriesBurned.value >= 0.0
    ensures SumCalories(ws) >= 0.0
  {
    if ws != [] {
      assert forall v :: v in ws[1..] ==> v in ws;
      SumCaloriesNonNegative(ws[1..]);
    }
  }

  /** The most frequent type of the log, or `Strength` for an empty log. */
  function MostFrequentType(ws: seq<Workout>): (t: WorkoutType)
    ensures ws == [] ==> t == Strength
    ensures ws != [] ==> Count(ws, t) > 0 && forall u :: Count(ws, u) <= Count(ws, t)
  {
    match Dominant(ws)
    case None => Strength
    case Some((t, _)) => t
  }

  /** The summary statistics of the log `ws` at time `now`. */
  method WorkoutStatsOf(ws: seq<Workout>, now: Millis) returns (s: WorkoutStats)
    ensures s.totalWorkouts == |ws|
    ensures s.weeklyWorkouts == |LastWeek(ws, now)| <= s.totalWorkouts
    ensures s.totalDuration == SumDuration(ws)
    ensures s.totalCalories == SumCalories(ws)
    ensures s.mostFrequentType == MostFrequentType(ws)
  {
    var weekly := LastWeek(ws, now);
    var totalDuration := SumDuration(ws);
    var totalCalories := SumCalories(ws);
    var counts, keys := CountTypes(ws);
    var dominant := PickDominant(ws, counts, keys);
    var mostFrequent := if dominant.Some? then dominant.value.0 else Strength;
    s := WorkoutStats(|ws|, |weekly|, totalDuration, totalCalories, mostFrequent);
  }

  // ---------------------------------------------------------------------
  // The store
  // ---------------------------------------------------------------------

  class WorkoutStore {
    var workouts: seq<Workout>

    constructor ()
      ensures workouts == []
    {
      workouts := [];
    }

    /** Logs a workout from the form and keeps the list newest first. */
    method AddWorkout(form: WorkoutFormData, id: string, exerciseIds: seq<string>, now: Millis) returns (w: Workout)
      requires |exerciseIds| == |form.exercises|
      modifies this
      ensures w == NewWorkout(form, id, exerciseIds, now)
      ensures workouts == SortByDateDesc([w] + old(workouts))
      ensures |workouts| == |old(workouts)| + 1 && SortedByDateDesc(workouts)
      ensures multiset(workouts) == multiset(old(workouts)) + multiset{w}
    {
      w := NewWorkout(form, id, exerciseIds, now);
      workouts := SortByDateDesc([w] + workouts);
    }

    /** Applies `updates` to every workout with this id, in place; the list is not re-sorted. */
    method UpdateWorkout(id: string, updates: WorkoutPatch, now: Millis)
      modifies this
      ensures workouts == UpdateById(old(workouts), id, updates, now)
    {
      workouts := UpdateById(workouts, id, updates, now);
    }

    /** Removes every workout with this id. */
    method DeleteWorkout(id: string)
      modifies this
      ensures workouts == RemoveById(old(workouts), id)
    {
      workouts := RemoveById(workouts, id);
    }

    method GetWorkoutById(id: string) returns (r: Option<Workout>)
      ensures r == FindById(workouts, id)
    {
      r := FindById(workouts, id);
    }

    method GetWorkoutStats(now: Millis) returns (s: WorkoutStats)
      ensures s.totalWorkouts == |workouts|
      ensures s.weeklyWorkouts == |LastWeek(workouts, now)|
      ensures s.totalDuration == SumDuration(workouts)
      ensures s.totalCalories == SumCalories(workouts)
      ensures s.mostFrequentType == MostFrequentType(workouts)
    {
      s := WorkoutStatsOf(workouts, now);
    }
  }
}
