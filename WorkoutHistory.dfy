/**
 * Queries over a workout history shared by both stores: the trailing
 * seven-day window, the per-type counts that both stores fill in a
 * `forEach` loop, and the pick of the most frequent type.
 */
module WorkoutHistory {
  import opened Wrappers
  import opened WorkoutTypes

  const DayMs: int := 24 * 60 * 60 * 1000
  const WeekMs: int := 7 * DayMs

  /** Days elapsed between `date` and `now`, as a fraction. */
  function DaysSince(date: Millis, now: Millis): (r: real)
    ensures r * DayMs as real == (now - date) as real
    ensures date <= now ==> r >= 0.0
  {
    (now - date) as real / DayMs as real
  }

  /** A workout lies in the trailing week when it is dated no earlier than seven days before `now`. */
  predicate InLastWeek(w: Workout, now: Millis): (b: bool)
    ensures b <==> DaysSince(w.date, now) <= 7.0
  {
    w.date >= now - WeekMs
  }

  /** The workouts of the trailing week, in the order of the history. */
  function LastWeek(ws: seq<Workout>, now: Millis): (r: seq<Workout>)
    ensures |r| <= |ws|
    ensures forall w :: w in r <==> w in ws && InLastWeek(w, now)
  {
    if ws == [] then []
    else (if InLastWeek(ws[0], now) then [ws[0]] else []) + LastWeek(ws[1..], now)
  }

  /** The window works piecewise, so it keeps each workout of the week once, in order. */
  lemma {:induction false} LastWeekAppend(a: seq<Workout>, b: seq<Workout>, now: Millis)
    ensures LastWeek(a + b, now) == LastWeek(a, now) + LastWeek(b, now)
  {
    if a != [] {
      assert (a + b)[1..] == a[1..] + b;
      LastWeekAppend(a[1..], b, now);
    } else {
      assert a + b == b;
    }
  }

  /** A history wholly inside the week is its own window; one wholly outside has an empty window. */
  lemma {:induction false} LastWeekExtremes(ws: seq<Workout>, now: Millis)
    ensures (forall i :: 0 <= i < |ws| ==> InLastWeek(ws[i], now)) ==> LastWeek(ws, now) == ws
    ensures (forall i :: 0 <= i < |ws| ==> !InLastWeek(ws[i], now)) ==> LastWeek(ws, now) == []
  {
    if ws != [] {
      LastWeekExtremes(ws[1..], now);
      assert forall i :: 1 <= i < |ws| ==> ws[1..][i - 1] == ws[i];
      assert ws == [ws[0]] + ws[1..];
    }
  }

  /** How many workouts of the history have type `t`. */
  function Count(ws: seq<Workout>, t: WorkoutType): (c: nat)
    ensures c <= |ws|
  {
    if ws == [] then 0
    else Count(ws[..|ws| - 1], t) + (if ws[|ws| - 1].workoutType == t then 1 else 0)
  }

  /** The counts of the five types add up to the length of the history. */
  lemma {:induction false} CountsCoverHistory(ws: seq<Workout>)
    ensures Count(ws, Strength) + Count(ws, Cardio) + Count(ws, Flexibility) + Count(ws, Sports) + Count(ws, Other) == |ws|
  {
    if ws != [] {
      CountsCoverHistory(ws[..|ws| - 1]);
    }
  }

  /** A type is counted zero times exactly when no workout has it. */
  lemma {:induction false} CountZeroIffAbsent(ws: seq<Workout>, t: WorkoutType)
    ensures Count(ws, t) == 0 <==> forall i :: 0 <= i < |ws| ==> ws[i].workoutType != t
  {
    if ws != [] {
      var p := ws[..|ws| - 1];
      CountZeroIffAbsent(p, t);
      assert forall i :: 0 <= i < |p| ==> p[i] == ws[i];
    }
  }

  /**
   * The keys of the counts object in the order `Object.entries` lists them:
   * each type once, in the order of its first appearance in the history.
   */
  function TypesInOrder(ws: seq<Workout>): (ks: seq<WorkoutType>)
    ensures forall t :: t in ks <==> Count(ws, t) > 0
    ensures forall i, j :: 0 <= i < j < |ks| ==> ks[i] != ks[j]
  {
    if ws == [] then []
    else
      var ks := TypesInOrder(ws[..|ws| - 1]);
      var t := ws[|ws| - 1].workoutType;
      if t in ks then ks else ks + [t]
  }

  /**
   * The head of the entries after a stable sort by count, descending: the
   * index of the first key in `ks` whose count is not exceeded by any other.
   */
  function FirstMaximalIndex(ws: seq<Workout>, ks: seq<WorkoutType>): (i: nat)
    requires ks != []
    ensures i < |ks|
    ensures forall j :: 0 <= j < |ks| ==> Count(ws, ks[j]) <= Count(ws, ks[i])
    ensures forall j :: 0 <= j < i ==> Count(ws, ks[j]) < Count(ws, ks[i])
  {
    if |ks| == 1 then 0
    else
      var b := FirstMaximalIndex(ws, ks[..|ks| - 1]);
      if Count(ws, ks[|ks| - 1]) > Count(ws, ks[b]) then |ks| - 1 else b
  }

  /**
   * The first entry of the counts after a stable sort by count, descending:
   * the most frequent type with its count; ties go to the type that
   * appeared first.
   */
  function Dominant(ws: seq<Workout>): (d: Option<(WorkoutType, nat)>)
    ensures d.None? <==> ws == []
    ensures d.Some? ==> d.value.1 == Count(ws, d.value.0) > 0
    ensures d.Some? ==> forall t :: Count(ws, t) <= d.value.1
  {
    var ks := TypesInOrder(ws);
    if ks == [] then
      assert ws != [] ==> Count(ws, ws[0].workoutType) > 0 by {
        if ws != [] {
          CountZeroIffAbsent(ws, ws[0].workoutType);
        }
      }
      None
    else
      var t := ks[FirstMaximalIndex(ws, ks)];
      Some((t, Count(ws, t)))
  }

  /** One more workout of the history: how the counts and the key order grow. */
  lemma PrefixStep(ws: seq<Workout>, i: nat)
    requires i < |ws|
    ensures forall t :: Count(ws[..i + 1], t) == Count(ws[..i], t) + (if ws[i].workoutType == t then 1 else 0)
    ensures TypesInOrder(ws[..i + 1]) ==
              if ws[i].workoutType in TypesInOrder(ws[..i]) then TypesInOrder(ws[..i])
              else TypesInOrder(ws[..i]) + [ws[i].workoutType]
  {
    assert ws[..i + 1][..i] == ws[..i];
  }

  /** The per-type counts of a prefix, with their keys in insertion order. */
  predicate CountsOf(ws: seq<Workout>, counts: map<WorkoutType, nat>, keys: seq<WorkoutType>) {
    && keys == TypesInOrder(ws)
    && (forall t :: t in counts <==> t in keys)
    && (forall t :: t in counts ==> counts[t] == Count(ws, t))
  }

  /** Counting one more workout (its type's count, or 0, plus one) turns the counts of a prefix into those of the next one. */
  lemma CountsStep(ws: seq<Workout>, i: nat, counts: map<WorkoutType, nat>, keys: seq<WorkoutType>)
    requires i < |ws| && CountsOf(ws[..i], counts, keys)
    ensures var t := ws[i].workoutType;
            CountsOf(ws[..i + 1], counts[t := (if t in counts then counts[t] else 0) + 1],
                     if t in counts then keys else keys + [t])
  {
    PrefixStep(ws, i);
  }

  /** Fills the per-type counts in one pass over the history, adding a key the first time its type appears. */
  method CountTypes(ws: seq<Workout>) returns (counts: map<WorkoutType, nat>, keys: seq<WorkoutType>)
    ensures keys == TypesInOrder(ws)
    ensures forall t :: t in counts <==> t in keys
    ensures forall t :: t in counts ==> counts[t] == Count(ws, t)
  {
    counts, keys := map[], [];
    var i := 0;
    while i < |ws|
      invariant 0 <= i <= |ws|
      invariant CountsOf(ws[..i], counts, keys)
    {
      var t := ws[i].workoutType;
      CountsStep(ws, i, counts, keys);
      if t !in counts {
        keys := keys + [t];
      }
      counts := counts[t := (if t in counts then counts[t] else 0) + 1];
      i := i + 1;
    }
    assert ws[..|ws|] == ws;
  }

  /** One more key: the first maximal index moves to it exactly when its count is strictly larger. */
  lemma MaximalStep(ws: seq<Workout>, counts: map<WorkoutType, nat>, keys: seq<WorkoutType>, i: nat, best: nat)
    requires forall k :: k in keys ==> k in counts && counts[k] == Count(ws, k)
    requires 1 <= i < |keys| && best == FirstMaximalIndex(ws, keys[..i])
    ensures (if counts[keys[i]] > counts[keys[best]] then i else best) == FirstMaximalIndex(ws, keys[..i + 1])
  {
    assert keys[..i + 1][..i] == keys[..i];
    assert keys[i] in keys && keys[best] in keys;
  }

  /** Picks the head of the entries sorted by count, descending (the sort is stable). */
  method PickDominant(ghost ws: seq<Workout>, counts: map<WorkoutType, nat>, keys: seq<WorkoutType>)
    returns (d: Option<(WorkoutType, nat)>)
    requires forall k :: k in keys ==> k in counts && counts[k] == Count(ws, k)
    ensures d.None? <==> keys == []
    ensures keys != [] ==> d == Some((keys[FirstMaximalIndex(ws, keys)], Count(ws, keys[FirstMaximalIndex(ws, keys)])))
  {
    if keys == [] {
      return None;
    }
    var best := 0;
    var i := 1;
    while i < |keys|
      invariant 1 <= i <= |keys|
      invariant best == FirstMaximalIndex(ws, keys[..i])
    {
      MaximalStep(ws, counts, keys, i, best);
      if counts[keys[i]] > counts[keys[best]] {
        best := i;
      }
      i := i + 1;
    }
    assert keys[..|keys|] == keys;
    d := Some((keys[best], counts[keys[best]]));
  }

  /** The counting loop followed by the pick: the dominant type of the history. */
  method DominantType(ws: seq<Workout>) returns (d: Option<(WorkoutType, nat)>)
    ensures d == Dominant(ws)
  {
    var counts, keys := CountTypes(ws);
    d := PickDominant(ws, counts, keys);
  }
}
