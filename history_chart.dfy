/**
 * The weekly volume chart (components/HistoryChart.tsx): logs are sorted by
 * date, the last seven are kept, and each becomes a point holding its day
 * label and its volume in tonnes, rounded.
 *
 * `timeOf` stands for `new Date(date).getTime()`, which the model does not
 * compute.
 */
module HistoryChart {
  import opened Types
  import opened ExerciseCard

  /**
   * Volume of a whole log: the sum of `Volume` over its exercises. The order of
   * the exercises does not matter (ExercisesVolumeRemove).
   */
  ghost function ExercisesVolume(m: ExerciseLog): real
    decreases |m|
  {
    if m == map[] then 0.0
    else
      var k :| k in m;
      Volume(m[k]) + ExercisesVolume(m - {k})
  }

  /** Any exercise can be taken out first: the sum does not depend on the choice of key. */
  lemma {:induction false} ExercisesVolumeRemove(m: ExerciseLog, k: string)
    requires k in m
    ensures ExercisesVolume(m) == Volume(m[k]) + ExercisesVolume(m - {k})
    decreases |m|
  {
    var j :| j in m && ExercisesVolume(m) == Volume(m[j]) + ExercisesVolume(m - {j});
    if j != k {
      assert k in m - {j};
      ExercisesVolumeRemove(m - {j}, k);
      assert j in m - {k};
      ExercisesVolumeRemove(m - {k}, j);
      assert m - {j} - {k} == m - {k} - {j};
    }
  }

  /**
   * Replacing one exercise's sets (what the workout screen does on every
   * edit) changes the log volume by the difference of the two set volumes.
   */
  lemma ExercisesVolumeUpdate(m: ExerciseLog, k: string, sets: seq<ExerciseSet>)
    ensures k in m ==>
      ExercisesVolume(m[k := sets]) == ExercisesVolume(m) - Volume(m[k]) + Volume(sets)
    ensures k !in m ==> ExercisesVolume(m[k := sets]) == ExercisesVolume(m) + Volume(sets)
  {
    ExercisesVolumeRemove(m[k := sets], k);
    assert m[k := sets] - {k} == m - {k};
    if k in m {
      ExercisesVolumeRemove(m, k);
    } else {
      assert m - {k} == m;
    }
  }

  /** A log whose sets are all uncompleted has no volume. */
  lemma {:induction false} ExercisesVolumeOfUncompleted(m: ExerciseLog)
    requires forall k :: k in m ==> forall i :: 0 <= i < |m[k]| ==> !m[k][i].completed
    ensures ExercisesVolume(m) == 0.0
    decreases |m|
  {
    if m != map[] {
      var k :| k in m;
      ExercisesVolumeRemove(m, k);
      ExercisesVolumeOfUncompleted(m - {k});
    }
  }

  /** The nested `forEach` loops that add up a log's volume. */
  method LogVolume(log: WorkoutLog) returns (volume: real)
    ensures volume == ExercisesVolume(log.exercises)
  {
    volume := 0.0;
    var rest := log.exercises;
    while rest != map[]
      invariant volume + ExercisesVolume(rest) == ExercisesVolume(log.exercises)
      decreases |rest|
    {
      var k :| k in rest;
      var sets := rest[k];
      ghost var before := volume;
      for i := 0 to |sets|
        invariant volume == before + Volume(sets[..i])
      {
        assert sets[..i + 1][..i] == sets[..i] && sets[..i + 1][i] == sets[i];
        assert Volume(sets[..i + 1]) == Volume(sets[..i]) + Contribution(sets[i]);
        if sets[i].completed {
          assert Contribution(sets[i]) == sets[i].weight * sets[i].reps;
          volume := volume + sets[i].weight * sets[i].reps;
        }
      }
      assert sets[..|sets|] == sets;
      ExercisesVolumeRemove(rest, k);
      rest := rest - {k};
    }
  }

  /** `Math.round`: to the nearest integer, halves upward. */
  function RoundHalfUp(x: real): (n: int)
    ensures n as real - 0.5 <= x < n as real + 0.5
  {
    (x + 0.5).Floor
  }

  /** For an integer volume, the plotted tonnes are integer division with half up. */
  lemma PlottedTonnes(v: int)
    ensures RoundHalfUp(v as real / 1000.0) == (v + 500) / 1000
  {
    var q := (v + 500) / 1000;
    assert q * 1000 <= v + 500 < q * 1000 + 1000;
    assert (q * 1000) as real <= (v + 500) as real < (q * 1000 + 1000) as real;
    var x := v as real / 1000.0;
    assert x * 1000.0 == v as real;
    assert q as real - 0.5 <= x < q as real + 0.5;
    var n := RoundHalfUp(x);
    assert n as real - 0.5 <= x < n as real + 0.5;
    assert n == q;
  }

  /** The index of the first day with this id, or -1 (`findIndex`). */
  function DayIndex(program: seq<WorkoutDay>, dayId: string): (r: int)
    ensures -1 <= r < |program|
    ensures r >= 0 ==> program[r].id == dayId
    ensures forall j :: 0 <= j < |program| && (r < 0 || j < r) ==> program[j].id != dayId
  {
    if program == [] then -1
    else if program[0].id == dayId then 0
    else
      var i := DayIndex(program[1..], dayId);
      if i < 0 then -1 else i + 1
  }

  /** The first day of the program with this id (`find`). */
  function FindDay(program: seq<WorkoutDay>, dayId: string): (r: Option<WorkoutDay>)
    ensures r.None? <==> forall i :: 0 <= i < |program| ==> program[i].id != dayId
    ensures r.Some? ==> r.value in program && r.value.id == dayId
    ensures r.Some? ==> exists i :: (0 <= i < |program| && program[i] == r.value &&
      forall j :: 0 <= j < i ==> program[j].id != dayId)
  {
    var i := DayIndex(program, dayId);
    if i >= 0 then Some(program[i]) else None
  }

  /**
   * The label of a log: the first three letters of its day's name, or the raw
   * day id when no day has that id or the name is empty.
   */
  function DayLabel(program: seq<WorkoutDay>, dayId: string): (r: string)
    ensures (forall i :: 0 <= i < |program| ==> program[i].id != dayId) ==> r == dayId
    ensures FindDay(program, dayId).Some? && FindDay(program, dayId).value.name != "" ==>
      var name := FindDay(program, dayId).value.name;
      |r| == (if |name| < 3 then |name| else 3) && r == name[..|r|]
    ensures FindDay(program, dayId).Some? && FindDay(program, dayId).value.name == "" ==> r == dayId
  {
    var day := FindDay(program, dayId);
    var short := if day.Some? then day.value.name[..if |day.value.name| < 3 then |day.value.name| else 3] else "";
    if short != "" then short else dayId
  }

  /** Logs in ascending order of their date's timestamp. */
  ghost predicate SortedByTime(logs: seq<WorkoutLog>, timeOf: string -> int)
  {
    forall i, j :: 0 <= i < j < |logs| ==> timeOf(logs[i].date) <= timeOf(logs[j].date)
  }

  /** Insertion of one log into a sorted list, after every log no later than it. */
  function Insert(sorted: seq<WorkoutLog>, log: WorkoutLog, timeOf: string -> int): (r: seq<WorkoutLog>)
    ensures |r| == |sorted| + 1
    ensures multiset(r) == multiset(sorted) + multiset{log}
  {
    if sorted == [] then [log]
    else if timeOf(log.date) < timeOf(sorted[0].date) then [log] + sorted
    else
      assert sorted == [sorted[0]] + sorted[1..];
      [sorted[0]] + Insert(sorted[1..], log, timeOf)
  }

  /** No log of the list is dated before time `t`. */
  ghost predicate NoneEarlier(logs: seq<WorkoutLog>, t: int, timeOf: string -> int)
  {
    forall i :: 0 <= i < |logs| ==> t <= timeOf(logs[i].date)
  }

  /** Inserting a log no earlier than `t` into a list with none earlier than `t` keeps that bound. */
  lemma {:induction false} InsertKeepsBound(sorted: seq<WorkoutLog>, log: WorkoutLog, timeOf: string -> int, t: int)
    requires NoneEarlier(sorted, t, timeOf) && t <= timeOf(log.date)
    ensures NoneEarlier(Insert(sorted, log, timeOf), t, timeOf)
  {
    var r := Insert(sorted, log, timeOf);
    if sorted == [] {
    } else if timeOf(log.date) < timeOf(sorted[0].date) {
      forall i | 0 <= i < |r| ensures t <= timeOf(r[i].date) {
        if i > 0 { assert r[i] == sorted[i - 1]; }
      }
    } else {
      var tail := Insert(sorted[1..], log, timeOf);
      assert NoneEarlier(sorted[1..], t, timeOf) by {
        forall i | 0 <= i < |sorted| - 1 ensures t <= timeOf(sorted[1..][i].date) {
          assert sorted[1..][i] == sorted[i + 1];
        }
      }
      InsertKeepsBound(sorted[1..], log, timeOf, t);
      assert r == [sorted[0]] + tail;
      forall i | 0 <= i < |r| ensures t <= timeOf(r[i].date) {
        if i > 0 { assert r[i] == tail[i - 1]; }
      }
    }
  }

  /** Insertion keeps a sorted list sorted. */
  lemma {:induction false} InsertKeepsSorted(sorted: seq<WorkoutLog>, log: WorkoutLog, timeOf: string -> int)
    requires SortedByTime(sorted, timeOf)
    ensures SortedByTime(Insert(sorted, log, timeOf), timeOf)
  {
    var r := Insert(sorted, log, timeOf);
    if sorted == [] {
    } else if timeOf(log.date) < timeOf(sorted[0].date) {
      forall i, j | 0 <= i < j < |r| ensures timeOf(r[i].date) <= timeOf(r[j].date) {
        assert r[j] == sorted[j - 1];
        if i > 0 { assert r[i] == sorted[i - 1]; }
      }
    } else {
      var first, rest := sorted[0], sorted[1..];
      var tail := Insert(rest, log, timeOf);
      assert SortedByTime(rest, timeOf) by {
        forall i, j | 0 <= i < j < |rest| ensures timeOf(rest[i].date) <= timeOf(rest[j].date) {
          assert rest[i] == sorted[i + 1] && rest[j] == sorted[j + 1];
        }
      }
      InsertKeepsSorted(rest, log, timeOf);
      assert NoneEarlier(rest, timeOf(first.date), timeOf) by {
        forall i | 0 <= i < |rest| ensures timeOf(first.date) <= timeOf(rest[i].date) {
          assert rest[i] == sorted[i + 1];
        }
      }
      InsertKeepsBound(rest, log, timeOf, timeOf(first.date));
      assert r == [first] + tail;
      forall i, j | 0 <= i < j < |r| ensures timeOf(r[i].date) <= timeOf(r[j].date) {
        assert r[j] == tail[j - 1];
        if i > 0 { assert r[i] == tail[i - 1]; }
      }
    }
  }

  /** The logs sorted by date (`sort` with a timestamp comparator). */
  function SortByTime(logs: seq<WorkoutLog>, timeOf: string -> int): (r: seq<WorkoutLog>)
    ensures |r| == |logs|
    ensures multiset(r) == multiset(logs)
    ensures SortedByTime(r, timeOf)
  {
    if logs == [] then []
    else
      assert logs == logs[..|logs| - 1] + [logs[|logs| - 1]];
      var front := SortByTime(logs[..|logs| - 1], timeOf);
      InsertKeepsSorted(front, logs[|logs| - 1], timeOf);
      Insert(front, logs[|logs| - 1], timeOf)
  }

  function Min(a: int, b: int): int
  {
    if a < b then a else b
  }

  /** Where `slice(-7)` starts in a list of `n` logs. */
  function WindowStart(n: nat): (k: nat)
    ensures k <= n && n - k == Min(7, n)
  {
    n - Min(7, n)
  }

  /**
   * `slice(-7)` of the sorted logs: the seven latest logs (all of them when
   * there are fewer), oldest first.
   */
  function LatestWindow(logs: seq<WorkoutLog>, timeOf: string -> int): (r: seq<WorkoutLog>)
    ensures |r| == Min(7, |logs|)
    ensures SortedByTime(r, timeOf)
    ensures multiset(r) <= multiset(logs)
  {
    var s := SortByTime(logs, timeOf);
    var k := WindowStart(|s|);
    assert s == s[..k] + s[k..];
    s[k..]
  }

  /** A log counted in a list but not in its suffix from `k` lies before `k`. */
  lemma NotInSuffix(s: seq<WorkoutLog>, k: nat, l: WorkoutLog)
    requires k <= |s| && l in multiset(s) - multiset(s[k..])
    ensures l in s[..k]
  {
    assert s == s[..k] + s[k..];
    assert multiset(s) == multiset(s[..k]) + multiset(s[k..]);
  }

  /** In a sorted list every log before index `k` is no later than every log from `k` on. */
  lemma SortedPrefixBeforeSuffix(s: seq<WorkoutLog>, k: nat, timeOf: string -> int, l: WorkoutLog, w: WorkoutLog)
    requires SortedByTime(s, timeOf) && k <= |s|
    requires l in s[..k] && w in s[k..]
    ensures timeOf(l.date) <= timeOf(w.date)
  {
    var a :| 0 <= a < k && s[..k][a] == l;
    var b :| 0 <= b < |s| - k && s[k..][b] == w;
    assert s[a] == l && s[k + b] == w;
  }

  /** Every log left out of the window is no later than every log in it. */
  lemma LatestWindowIsLatest(logs: seq<WorkoutLog>, timeOf: string -> int, l: WorkoutLog, w: WorkoutLog)
    requires l in multiset(logs) - multiset(LatestWindow(logs, timeOf))
    requires w in LatestWindow(logs, timeOf)
    ensures timeOf(l.date) <= timeOf(w.date)
  {
    var s := SortByTime(logs, timeOf);
    var k := WindowStart(|s|);
    assert LatestWindow(logs, timeOf) == s[k..];
    NotInSuffix(s, k, l);
    SortedPrefixBeforeSuffix(s, k, timeOf, l, w);
  }

  /** One point of the chart. */
  datatype ChartPoint = ChartPoint(dayName: string, date: string, tonnes: int)

  /** The point a log contributes: its label, its date and its volume in tonnes, rounded. */
  ghost function PointOf(program: seq<WorkoutDay>, log: WorkoutLog): (p: ChartPoint)
    ensures p.date == log.date
  {
    ChartPoint(DayLabel(program, log.dayId), log.date, RoundHalfUp(ExercisesVolume(log.exercises) / 1000.0))
  }

  /** The point of one log, its volume added up by the nested loops. */
  method LogPoint(program: seq<WorkoutDay>, log: WorkoutLog) returns (point: ChartPoint)
    ensures point == PointOf(program, log)
  {
    var volume := LogVolume(log);
    point := ChartPoint(DayLabel(program, log.dayId), log.date, RoundHalfUp(volume / 1000.0));
  }

  /**
   * The chart's data: one point per log of the latest window, in order, with
   * its label and its completed-set volume in tonnes, rounded.
   */
  method ChartData(logs: seq<WorkoutLog>, program: seq<WorkoutDay>, timeOf: string -> int)
    returns (points: seq<ChartPoint>)
    ensures |points| == Min(7, |logs|)
    ensures forall i :: 0 <= i < |points| ==> points[i] == PointOf(program, LatestWindow(logs, timeOf)[i])
    ensures forall i, j :: 0 <= i < j < |points| ==> timeOf(points[i].date) <= timeOf(points[j].date)
  {
    var window := LatestWindow(logs, timeOf);
    points := [];
    for i := 0 to |window|
      invariant |points| == i
      invariant forall j :: 0 <= j < i ==> points[j] == PointOf(program, window[j])
    {
      var point := LogPoint(program, window[i]);
      points := points + [point];
    }
    assert forall i :: 0 <= i < |points| ==> points[i].date == window[i].date;
  }
}
