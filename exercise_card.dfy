/**
 * The set list of one exercise card (components/ExerciseCard.tsx): its initial
 * sets, the four edits the user can make, and the figures derived from it.
 */
module ExerciseCard {
  import opened Types
  import opened Numerals

  /** What one set adds to the volume: weight times reps, if completed. */
  function Contribution(s: ExerciseSet): real
  {
    if s.completed then s.weight * s.reps else 0.0
  }

  /** Sum of weight times reps over the completed sets, folded left to right. */
  function Volume(sets: seq<ExerciseSet>): (v: real)
    ensures (forall i :: 0 <= i < |sets| ==> sets[i].weight >= 0.0 && sets[i].reps >= 0.0) ==> v >= 0.0
    ensures (forall i :: 0 <= i < |sets| ==> !sets[i].completed) ==> v == 0.0
  {
    if sets == [] then 0.0
    else Volume(sets[..|sets| - 1]) + Contribution(sets[|sets| - 1])
  }

  /** Number of completed sets. */
  function CompletedCount(sets: seq<ExerciseSet>): (n: nat)
    ensures n <= |sets|
    ensures n == |sets| <==> forall i :: 0 <= i < |sets| ==> sets[i].completed
  {
    if sets == [] then 0
    else CompletedCount(sets[..|sets| - 1]) + (if sets[|sets| - 1].completed then 1 else 0)
  }

  /** Volume distributes over concatenation. */
  lemma {:induction false} VolumeAppend(a: seq<ExerciseSet>, b: seq<ExerciseSet>)
    ensures Volume(a + b) == Volume(a) + Volume(b)
  {
    if b != [] {
      assert (a + b)[..|a + b| - 1] == a + b[..|b| - 1];
      VolumeAppend(a, b[..|b| - 1]);
    } else {
      assert a + b == a;
    }
  }

  /** The completed count distributes over concatenation. */
  lemma {:induction false} CompletedCountAppend(a: seq<ExerciseSet>, b: seq<ExerciseSet>)
    ensures CompletedCount(a + b) == CompletedCount(a) + CompletedCount(b)
  {
    if b != [] {
      assert (a + b)[..|a + b| - 1] == a + b[..|b| - 1];
      CompletedCountAppend(a, b[..|b| - 1]);
    } else {
      assert a + b == a;
    }
  }

  /** Replacing one set changes the volume by exactly the difference of the two contributions. */
  lemma VolumeUpdate(sets: seq<ExerciseSet>, i: nat, x: ExerciseSet)
    requires i < |sets|
    ensures Volume(sets[i := x]) == Volume(sets) - Contribution(sets[i]) + Contribution(x)
  {
    assert sets == sets[..i] + [sets[i]] + sets[i + 1..];
    assert sets[i := x] == sets[..i] + [x] + sets[i + 1..];
    VolumeAppend(sets[..i] + [sets[i]], sets[i + 1..]);
    VolumeAppend(sets[..i] + [x], sets[i + 1..]);
    VolumeAppend(sets[..i], [sets[i]]);
    VolumeAppend(sets[..i], [x]);
  }

  /** Replacing one set changes the completed count only through its completed flag. */
  lemma CompletedCountUpdate(sets: seq<ExerciseSet>, i: nat, x: ExerciseSet)
    requires i < |sets|
    ensures CompletedCount(sets[i := x]) ==
      CompletedCount(sets) - (if sets[i].completed then 1 else 0) + (if x.completed then 1 else 0)
  {
    assert sets == sets[..i] + [sets[i]] + sets[i + 1..];
    assert sets[i := x] == sets[..i] + [x] + sets[i + 1..];
    CompletedCountAppend(sets[..i] + [sets[i]], sets[i + 1..]);
    CompletedCountAppend(sets[..i] + [x], sets[i + 1..]);
    CompletedCountAppend(sets[..i], [sets[i]]);
    CompletedCountAppend(sets[..i], [x]);
  }

  /**
   * The set count a target such as "5x5" or "2x6-10" asks for: the digits
   * before a leading `x`, or 3 when the target does not start that way.
   */
  function TargetSetCount(targetSets: string): (r: nat)
    ensures forall k :: 0 < k < |targetSets| && AllDigits(targetSets[..k]) && targetSets[k] == 'x' ==>
      r == DigitsValue(targetSets[..k])
    ensures (forall k :: 0 < k < |targetSets| && AllDigits(targetSets[..k]) ==> targetSets[k] != 'x') ==> r == 3
  {
    var ds := LeadingDigits(targetSets);
    assert forall k :: 0 < k < |targetSets| && AllDigits(targetSets[..k]) && targetSets[k] == 'x' ==>
      ds == targetSets[..k] by {
      forall k | 0 < k < |targetSets| && AllDigits(targetSets[..k]) && targetSets[k] == 'x'
        ensures ds == targetSets[..k]
      {
        LeadingDigitsAt(targetSets, k);
      }
    }
    if |ds| > 0 && |ds| < |targetSets| && targetSets[|ds|] == 'x' then DigitsValue(ds) else 3
  }

  /** A target written as `<n>x<anything>` gives `n` sets; any other start gives 3. */
  lemma TargetSetCountSpec(n: nat, rest: string, other: string)
    requires other == [] || (other[0] != 'x' && !IsDigit(other[0]))
    ensures TargetSetCount(NatToString(n) + "x" + rest) == n
    ensures TargetSetCount(other) == 3
  {
    var s := NatToString(n) + "x" + rest;
    assert s == NatToString(n) + ("x" + rest);
    LeadingDigitsOfNumeral(NatToString(n), "x" + rest);
  }

  /** The characters `replace(/[^0-9.]/g, '')` keeps. */
  function NumericChars(s: string): (r: string)
    ensures forall i :: 0 <= i < |r| ==> IsDigit(r[i]) || r[i] == '.'
    ensures |r| <= |s|
  {
    if s == [] then ""
    else (if IsDigit(s[0]) || s[0] == '.' then [s[0]] else "") + NumericChars(s[1..])
  }

  /**
   * `parseFloat(t) || 0` on a string of digits and dots: the longest prefix of
   * the form digits [ '.' digits ], or 0 when that prefix holds no digit.
   */
  function ParseDecimal(t: string): (r: real)
    ensures r >= 0.0
  {
    var whole := LeadingDigits(t);
    var after := t[|whole|..];
    var fraction := if |after| > 0 && after[0] == '.' then LeadingDigits(after[1..]) else "";
    if |whole| == 0 && |fraction| == 0 then 0.0
    else DigitsValue(whole) as real + FractionValue(fraction)
  }

  /** The value of the digits after a decimal point: 0.d1d2... is (d1 + 0.d2...) / 10. */
  function FractionValue(s: string): (r: real)
    requires AllDigits(s)
    ensures 0.0 <= r < 1.0
  {
    if s == [] then 0.0 else (DigitValue(s[0]) as real + FractionValue(s[1..])) / 10.0
  }

  /** The starting weight a target such as "60 kg" or "17.5 kg" gives. */
  function TargetWeight(targetWeight: string): (w: real)
    ensures w >= 0.0
  {
    ParseDecimal(NumericChars(targetWeight))
  }

  /** A whole-number target weight followed by a unit is read back as that number. */
  lemma TargetWeightOfWhole(n: nat)
    ensures TargetWeight(NatToString(n) + " kg") == n as real
  {
    var ds := NatToString(n);
    NumericCharsOfDigits(ds, " kg");
    ParseWhole(ds);
  }

  /** A one-decimal target weight followed by a unit is read back exactly. */
  lemma TargetWeightOfTenths(n: nat, d: nat)
    requires d < 10
    ensures TargetWeight(NatToString(n) + "." + [DigitChar(d)] + " kg") == n as real + d as real / 10.0
  {
    var ds, c := NatToString(n), DigitChar(d);
    var t := ds + ("." + [c]);
    assert NatToString(n) + "." + [c] + " kg" == t + " kg";
    assert forall i :: 0 <= i < |t| ==> IsDigit(t[i]) || t[i] == '.' by {
      forall i | 0 <= i < |t| ensures IsDigit(t[i]) || t[i] == '.' {
        if i < |ds| { assert t[i] == ds[i]; }
      }
    }
    NumericCharsKeep(t, " kg");
    ParseTenths(ds, c);
  }

  /** A plain numeral parses as its value. */
  lemma ParseWhole(ds: string)
    requires AllDigits(ds) && |ds| >= 1
    ensures ParseDecimal(ds) == DigitsValue(ds) as real
  {
    LeadingDigitsOfNumeral(ds, "");
    assert ds + "" == ds;
    assert ds[|ds|..] == "";
  }

  /** A numeral, a dot and one digit parse as the number plus that many tenths. */
  lemma ParseTenths(ds: string, c: char)
    requires AllDigits(ds) && |ds| >= 1 && IsDigit(c)
    ensures ParseDecimal(ds + ("." + [c])) == DigitsValue(ds) as real + DigitValue(c) as real / 10.0
  {
    var t := ds + ("." + [c]);
    LeadingDigitsOfNumeral(ds, "." + [c]);
    var after := t[|ds|..];
    assert after == "." + [c];
    assert after[1..] == [c];
    assert LeadingDigits([c]) == [c];
    assert FractionValue([c]) == DigitValue(c) as real / 10.0 by {
      assert [c][1..] == [];
    }
  }

  /** A numeral `digits.digits` parses as its whole part plus its fraction, whatever the number of decimals. */
  lemma ParseDecimalOfNumeral(ds: string, fs: string)
    requires AllDigits(ds) && AllDigits(fs) && |ds| + |fs| >= 1
    ensures ParseDecimal(ds + ("." + fs)) == DigitsValue(ds) as real + FractionValue(fs)
  {
    var t := ds + ("." + fs);
    LeadingDigitsOfNumeral(ds, "." + fs);
    var after := t[|ds|..];
    assert after == "." + fs;
    assert after[1..] == fs;
    assert LeadingDigits(fs) == fs by {
      assert fs[..|fs|] == fs;
      LeadingDigitsAt(fs, |fs|);
    }
    assert ParseDecimal(t) == DigitsValue(ds) as real + FractionValue(fs) by {
      ParseDecimalParts(t, ds, fs);
    }
  }

  /** `ParseDecimal` once its whole part and its fraction digits are known. */
  lemma ParseDecimalParts(t: string, ds: string, fs: string)
    requires AllDigits(ds) && AllDigits(fs) && |ds| + |fs| >= 1
    requires LeadingDigits(t) == ds && |ds| < |t| && t[|ds|] == '.'
    requires LeadingDigits(t[|ds| + 1..]) == fs
    ensures ParseDecimal(t) == DigitsValue(ds) as real + FractionValue(fs)
  {
    assert t[|ds|..][1..] == t[|ds| + 1..];
  }

  /** Filtering works character by character: it distributes over concatenation. */
  lemma {:induction false} NumericCharsAppend(a: string, b: string)
    ensures NumericChars(a + b) == NumericChars(a) + NumericChars(b)
  {
    if a != [] {
      assert (a + b)[1..] == a[1..] + b;
      NumericCharsAppend(a[1..], b);
    } else {
      assert a + b == b;
    }
  }

  /** Without a digit nothing but dots is kept. */
  lemma {:induction false} NumericCharsOfNoDigit(t: string)
    requires forall i :: 0 <= i < |t| ==> !IsDigit(t[i])
    ensures forall i :: 0 <= i < |NumericChars(t)| ==> NumericChars(t)[i] == '.'
  {
    if t != [] {
      NumericCharsOfNoDigit(t[1..]);
    }
  }

  /** A target weight without any digit falls back to 0 (`|| 0` of a NaN). */
  lemma TargetWeightWithoutDigits(t: string)
    requires forall i :: 0 <= i < |t| ==> !IsDigit(t[i])
    ensures TargetWeight(t) == 0.0
  {
    var n := NumericChars(t);
    NumericCharsOfNoDigit(t);
    assert LeadingDigits(n) == "";
    if |n| > 1 {
      assert LeadingDigits(n[1..]) == "" by { assert n[1..][0] == n[1]; }
    }
  }

  lemma {:induction false} NumericCharsOfDigits(ds: string, unit: string)
    requires AllDigits(ds)
    requires forall i :: 0 <= i < |unit| ==> !IsDigit(unit[i]) && unit[i] != '.'
    ensures NumericChars(ds + unit) == ds
  {
    NumericCharsKeep(ds, unit);
  }

  /** Filtering keeps a digits-and-dots prefix and drops a unit made of other characters. */
  lemma {:induction false} NumericCharsKeep(t: string, unit: string)
    requires forall i :: 0 <= i < |t| ==> IsDigit(t[i]) || t[i] == '.'
    requires forall i :: 0 <= i < |unit| ==> !IsDigit(unit[i]) && unit[i] != '.'
    ensures NumericChars(t + unit) == t
  {
    if t == [] {
      NumericCharsDrop(unit);
      assert t + unit == unit;
    } else {
      assert (t + unit)[1..] == t[1..] + unit;
      NumericCharsKeep(t[1..], unit);
    }
  }

  lemma {:induction false} NumericCharsDrop(unit: string)
    requires forall i :: 0 <= i < |unit| ==> !IsDigit(unit[i]) && unit[i] != '.'
    ensures NumericChars(unit) == ""
  {
    if unit != [] {
      NumericCharsDrop(unit[1..]);
    }
  }

  /**
   * The sets a card starts with: the logged sets when there are any, otherwise
   * as many fresh sets as the target asks for, each at the target weight.
   */
  function InitialSets(exercise: ExerciseData, initialLogs: seq<ExerciseSet>): (r: seq<ExerciseSet>)
    ensures |initialLogs| > 0 ==> r == initialLogs
    ensures |initialLogs| == 0 ==>
      |r| == TargetSetCount(exercise.targetSets) &&
      forall i :: 0 <= i < |r| ==>
        r[i] == ExerciseSet(0.0, TargetWeight(exercise.targetWeight), None, false)
  {
    if |initialLogs| > 0 then initialLogs
    else
      var blank := ExerciseSet(0.0, TargetWeight(exercise.targetWeight), None, false);
      seq(TargetSetCount(exercise.targetSets), _ => blank)
  }

  /** Which number of a set an input box edits. */
  datatype SetField = Reps | Weight | Rpe

  /** What an input box holds: nothing, or a number. */
  datatype FieldInput = Blank | Entered(number: real)

  /** An empty input counts as 0. */
  function InputValue(input: FieldInput): real
  {
    if input.Blank? then 0.0 else input.number
  }

  /** The outcome of pressing a set's check button. */
  datatype ToggleOutcome =
    | Refused                        // completing a set without weight or reps
    | Uncompleted
    | Completed(allFinished: bool)   // reported to the parent to pick a rest time

  /** Completing this set is refused: it has no positive weight or no positive reps. */
  predicate Refuses(s: ExerciseSet)
  {
    !s.completed && (s.weight <= 0.0 || s.reps <= 0.0)
  }

  /** The set that `addSet` appends. */
  function NextSet(sets: seq<ExerciseSet>): (s: ExerciseSet)
    ensures !s.completed
    ensures sets != [] ==> s == sets[|sets| - 1].(completed := false)
    ensures sets == [] ==> s == ExerciseSet(0.0, 0.0, Some(8.0), false)
  {
    var last := if sets != [] then sets[|sets| - 1] else ExerciseSet(0.0, 0.0, Some(8.0), false);
    last.(completed := false)
  }

  /** The list with the completed flag of set `index` flipped. */
  function Toggled(sets: seq<ExerciseSet>, index: nat): seq<ExerciseSet>
    requires index < |sets|
  {
    sets[index := sets[index].(completed := !sets[index].completed)]
  }

  /**
   * Flipping one set moves the completed count by one and the volume by that
   * set's contribution once completed (its weight times reps).
   */
  lemma ToggledEffect(sets: seq<ExerciseSet>, index: nat)
    requires index < |sets|
    ensures !sets[index].completed ==>
      CompletedCount(Toggled(sets, index)) == CompletedCount(sets) + 1 &&
      Volume(Toggled(sets, index)) == Volume(sets) + Contribution(Toggled(sets, index)[index])
    ensures sets[index].completed ==>
      CompletedCount(Toggled(sets, index)) + 1 == CompletedCount(sets) &&
      Volume(Toggled(sets, index)) == Volume(sets) - Contribution(sets[index])
  {
    var s := sets[index];
    var flipped := s.(completed := !s.completed);
    VolumeUpdate(sets, index, flipped);
    CompletedCountUpdate(sets, index, flipped);
  }

  /** The state of one card. */
  class Card {
    const exercise: ExerciseData
    var sets: seq<ExerciseSet>

    /** The card as its effect initialises it. */
    constructor (exercise: ExerciseData, initialLogs: seq<ExerciseSet>)
      ensures this.exercise == exercise
      ensures sets == InitialSets(exercise, initialLogs)
    {
      this.exercise := exercise;
      sets := InitialSets(exercise, initialLogs);
    }

    /** `completedSetsCount`. */
    function CompletedSetsCount(): (n: nat)
      reads this
      ensures n <= |sets|
    {
      CompletedCount(sets)
    }

    /** `totalVolume`. */
    function TotalVolume(): real
      reads this
    {
      Volume(sets)
    }

    /** `handleSetChange`: one field of one set takes the typed value; nothing else changes. */
    method SetValue(index: nat, field: SetField, input: FieldInput)
      requires index < |sets|
      modifies this`sets
      ensures |sets| == |old(sets)|
      ensures forall j :: 0 <= j < |sets| && j != index ==> sets[j] == old(sets)[j]
      ensures field == Reps ==> sets[index] == old(sets)[index].(reps := InputValue(input))
      ensures field == Weight ==> sets[index] == old(sets)[index].(weight := InputValue(input))
      ensures field == Rpe ==> sets[index] == old(sets)[index].(rpe := Some(InputValue(input)))
      ensures CompletedSetsCount() == old(CompletedSetsCount())
    {
      var value := InputValue(input);
      var s := sets[index];
      var updated := match field
        case Reps => s.(reps := value)
        case Weight => s.(weight := value)
        case Rpe => s.(rpe := Some(value));
      CompletedCountUpdate(sets, index, updated);
      sets := sets[index := updated];
    }

    /**
     * `toggleComplete`: completing a set whose weight or reps is not positive
     * is refused; otherwise exactly that set's completed flag flips.
     */
    method ToggleComplete(index: nat) returns (outcome: ToggleOutcome)
      requires index < |sets|
      modifies this`sets
      ensures Refuses(old(sets)[index]) ==> outcome == Refused && sets == old(sets)
      ensures !Refuses(old(sets)[index]) ==> sets == Toggled(old(sets), index)
      ensures !Refuses(old(sets)[index]) && old(sets)[index].completed ==> outcome == Uncompleted
      ensures !Refuses(old(sets)[index]) && !old(sets)[index].completed ==>
        outcome == Completed(CompletedSetsCount() == |sets|)
      ensures outcome.Completed? ==>
        CompletedSetsCount() == old(CompletedSetsCount()) + 1 &&
        TotalVolume() == old(TotalVolume()) + Contribution(sets[index])
      ensures outcome.Uncompleted? ==>
        CompletedSetsCount() + 1 == old(CompletedSetsCount()) &&
        TotalVolume() == old(TotalVolume()) - Contribution(old(sets)[index])
    {
      var current := sets[index];
      var isCompleting := !current.completed;
      if isCompleting && (current.weight <= 0.0 || current.reps <= 0.0) {
        return Refused;
      }
      ToggledEffect(sets, index);
      sets := Toggled(sets, index);
      if isCompleting {
        var allFinished := forall j :: 0 <= j < |sets| ==> sets[j].completed;
        outcome := Completed(allFinished);
      } else {
        outcome := Uncompleted;
      }
    }

    /** `addSet`: appends an uncompleted copy of the last set (or a blank set). */
    method AddSet()
      modifies this`sets
      ensures sets == old(sets) + [NextSet(old(sets))]
      ensures TotalVolume() == old(TotalVolume())
      ensures CompletedSetsCount() == old(CompletedSetsCount())
    {
      var next := NextSet(sets);
      sets := sets + [next];
    }

    /** `removeSet`: drops the set at `index`; the others keep their order. */
    method RemoveSet(index: int)
      modifies this`sets
      ensures 0 <= index < |old(sets)| ==>
        |sets| == |old(sets)| - 1 &&
        sets[..index] == old(sets)[..index] &&
        sets[index..] == old(sets)[index + 1..] &&
        TotalVolume() == old(TotalVolume()) - Contribution(old(sets)[index])
      ensures !(0 <= index < |old(sets)|) ==> sets == old(sets)
    {
      if 0 <= index < |sets| {
        ghost var before := sets;
        sets := sets[..index] + sets[index + 1..];
        assert before == before[..index] + [before[index]] + before[index + 1..];
        VolumeAppend(before[..index] + [before[index]], before[index + 1..]);
        VolumeAppend(before[..index], [before[index]]);
        VolumeAppend(before[..index], before[index + 1..]);
      }
    }
  }
}
