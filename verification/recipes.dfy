/**
 * Meal records as the recipe service returns them, and the two pieces of
 * display logic computed from them: the ingredient list of the detail modal
 * and the instructions preview on a result card.
 */
module Recipes {
  import opened Options
  import opened JsStrings

  /** One numbered `strIngredientN` / `strMeasureN` field pair; `None` is a null or absent field. */
  datatype Slot = Slot(ingredient: Option<string>, measure: Option<string>)

  /**
   * A meal object.  `slots[n - 1]` holds the fields numbered `n`; a number
   * beyond the sequence reads as absent fields, as a missing property does.
   */
  datatype Meal = Meal(
    id: string,
    name: string,
    thumbnail: string,
    instructions: Option<string>,
    source: Option<string>,
    slots: seq<Slot>)

  /** One rendered ingredient line: the ingredient name and its measure as given. */
  datatype Line = Line(ingredient: string, measure: Option<string>)

  /** The slot numbers the modal looks at are 1 through SlotCount. */
  const SlotCount: nat := 20

  const PreviewLength: nat := 80
  const Ellipsis: string := "..."
  const PreviewPlaceholder: string := "Click to see details"

  /** The fields numbered `num` of meal `m`. */
  function SlotAt(m: Meal, num: int): Slot {
    if 1 <= num <= |m.slots| then m.slots[num - 1] else Slot(None, None)
  }

  /**
   * The filter condition: the ingredient is present and not blank once
   * trimmed, that is, it has a code point that is not whitespace.
   */
  predicate Keep(p: Slot)
    ensures Keep(p) <==> p.ingredient.Some?
                         && exists i :: 0 <= i < |p.ingredient.value| && !IsTrimmable(p.ingredient.value[i])
  {
    IsTruthy(p.ingredient) && Trim(p.ingredient.value) != ""
  }

  /** The `{ ingredient, measure }` objects built for slot numbers 1..SlotCount, in order. */
  function SlotPairs(m: Meal): (r: seq<Slot>)
    ensures |r| == SlotCount
    ensures forall i :: 0 <= i < SlotCount ==> r[i] == SlotAt(m, i + 1)
  {
    seq(SlotCount, i requires 0 <= i < SlotCount => SlotAt(m, i + 1))
  }

  /** `Array.prototype.filter`: the elements satisfying `f`, in their original order. */
  function Filter<T>(xs: seq<T>, f: T -> bool): (r: seq<T>)
    ensures |r| <= |xs|
    ensures forall k :: 0 <= k < |r| ==> f(r[k])
  {
    if xs == [] then [] else (if f(xs[0]) then [xs[0]] else []) + Filter(xs[1..], f)
  }

  /** The filter step of the ingredient list: the slots that pass `Keep`. */
  function Kept(ps: seq<Slot>): (r: seq<Slot>)
    ensures forall k :: 0 <= k < |r| ==> Keep(r[k])
  {
    Filter(ps, Keep)
  }

  /** The final `map` step: each kept slot as a rendered line, the index discarded. */
  function Lines(ps: seq<Slot>): (r: seq<Line>)
    requires forall k :: 0 <= k < |ps| ==> Keep(ps[k])
    ensures |r| == |ps|
    ensures forall k :: 0 <= k < |ps| ==> r[k] == LineOf(ps[k])
  {
    seq(|ps|, k requires 0 <= k < |ps| => LineOf(ps[k]))
  }

  function LineOf(p: Slot): Line
    requires Keep(p)
  {
    Line(p.ingredient.value, p.measure)
  }

  /** The ingredient list shown in the detail modal. */
  function Ingredients(m: Meal): (r: seq<Line>)
    ensures |r| <= SlotCount
  {
    Lines(Kept(SlotPairs(m)))
  }

  /** The positions `from..|xs|` of `xs` whose element satisfies `f`, ascending. */
  function Positions<T>(xs: seq<T>, f: T -> bool, from: nat): seq<nat>
    requires from <= |xs|
    decreases |xs| - from
  {
    if from == |xs| then [] else (if f(xs[from]) then [from] else []) + Positions(xs, f, from + 1)
  }

  /**
   * Filtering `xs[from..]` keeps exactly the elements satisfying `f`, each
   * once, in their original order: entry k of the result is the element at
   * the k-th satisfying position.
   */
  lemma {:induction false} FilterPositions<T>(xs: seq<T>, f: T -> bool, from: nat)
    requires from <= |xs|
    ensures |Filter(xs[from..], f)| == |Positions(xs, f, from)|
    ensures forall k :: 0 <= k < |Positions(xs, f, from)| ==>
              from <= Positions(xs, f, from)[k] < |xs| && f(xs[Positions(xs, f, from)[k]])
              && Filter(xs[from..], f)[k] == xs[Positions(xs, f, from)[k]]
    ensures forall k, l :: 0 <= k < l < |Positions(xs, f, from)| ==>
              Positions(xs, f, from)[k] < Positions(xs, f, from)[l]
    ensures forall i :: from <= i < |xs| && f(xs[i]) ==> i in Positions(xs, f, from)
    decreases |xs| - from
  {
    if from < |xs| {
      FilterPositions(xs, f, from + 1);
      assert xs[from..][1..] == xs[from + 1..];
      assert xs[from..][0] == xs[from];
    }
  }

  /** Zero-based positions as one-based slot numbers. */
  function Numbered(q: seq<nat>): seq<nat> {
    seq(|q|, k requires 0 <= k < |q| => q[k] + 1)
  }

  /** Every position of `xs` whose element satisfies `f` appears, one-based, among the numbered positions. */
  lemma NumberedComplete<T>(xs: seq<T>, f: T -> bool)
    ensures forall i :: 0 <= i < |xs| && f(xs[i]) ==> i + 1 in Numbered(Positions(xs, f, 0))
  {
    FilterPositions(xs, f, 0);
    var q := Positions(xs, f, 0);
    forall i | 0 <= i < |xs| && f(xs[i]) ensures i + 1 in Numbered(q) {
      var k :| 0 <= k < |q| && q[k] == i;
      assert Numbered(q)[k] == i + 1;
    }
  }

  /**
   * Entry k of the filtered list is the element at the k-th numbered
   * position, which satisfies `f`.
   */
  lemma NumberedSound<T>(xs: seq<T>, f: T -> bool)
    ensures |Filter(xs, f)| == |Numbered(Positions(xs, f, 0))|
    ensures forall k :: 0 <= k < |Numbered(Positions(xs, f, 0))| ==>
              var num := Numbered(Positions(xs, f, 0))[k];
              1 <= num <= |xs| && f(xs[num - 1]) && Filter(xs, f)[k] == xs[num - 1]
  {
    FilterPositions(xs, f, 0);
    assert xs[0..] == xs;
  }

  /** The slot numbers, ascending, whose pair appears in the modal's ingredient list. */
  function KeptSlotNumbers(m: Meal): seq<nat> {
    Numbered(Positions(SlotPairs(m), Keep, 0))
  }

  /**
   * The ingredient list has one line per kept slot among numbers 1..20, in
   * slot order, each built from that slot's ingredient and measure; every
   * kept slot in that range appears.
   */
  lemma IngredientsExact(m: Meal)
    ensures |Ingredients(m)| == |KeptSlotNumbers(m)| <= SlotCount
    ensures forall k :: 0 <= k < |KeptSlotNumbers(m)| ==>
              var num := KeptSlotNumbers(m)[k];
              1 <= num <= SlotCount && Keep(SlotAt(m, num)) && Ingredients(m)[k] == LineOf(SlotAt(m, num))
    ensures forall k, l :: 0 <= k < l < |KeptSlotNumbers(m)| ==> KeptSlotNumbers(m)[k] < KeptSlotNumbers(m)[l]
    ensures forall num :: 1 <= num <= SlotCount && Keep(SlotAt(m, num)) ==> num in KeptSlotNumbers(m)
  {
    KeptSlotNumbersSound(m);
    KeptSlotNumbersOrdered(m);
    KeptSlotNumbersComplete(m);
  }

  lemma KeptSlotNumbersSound(m: Meal)
    ensures |Ingredients(m)| == |KeptSlotNumbers(m)|
    ensures forall k :: 0 <= k < |KeptSlotNumbers(m)| ==>
              var num := KeptSlotNumbers(m)[k];
              1 <= num <= SlotCount && Keep(SlotAt(m, num)) && Ingredients(m)[k] == LineOf(SlotAt(m, num))
  {
    var ps := SlotPairs(m);
    NumberedSound(ps, Keep);
    var n := KeptSlotNumbers(m);
    var r := Ingredients(m);
    forall k | 0 <= k < |n|
      ensures 1 <= n[k] <= SlotCount && Keep(SlotAt(m, n[k])) && r[k] == LineOf(SlotAt(m, n[k]))
    {
      assert ps[n[k] - 1] == SlotAt(m, n[k]);
      assert Kept(ps)[k] == ps[n[k] - 1];
    }
  }

  lemma KeptSlotNumbersOrdered(m: Meal)
    ensures forall k, l :: 0 <= k < l < |KeptSlotNumbers(m)| ==> KeptSlotNumbers(m)[k] < KeptSlotNumbers(m)[l]
  {
    FilterPositions(SlotPairs(m), Keep, 0);
  }

  lemma KeptSlotNumbersComplete(m: Meal)
    ensures forall num :: 1 <= num <= SlotCount && Keep(SlotAt(m, num)) ==> num in KeptSlotNumbers(m)
  {
    var ps := SlotPairs(m);
    NumberedComplete(ps, Keep);
    forall num | 1 <= num <= SlotCount && Keep(SlotAt(m, num)) ensures num in KeptSlotNumbers(m) {
      assert ps[num - 1] == SlotAt(m, num);
    }
  }

  /** Only slot numbers 1..20 matter: meals that agree on them have the same ingredient list. */
  lemma IngredientsOnlyFirstTwenty(m: Meal, m': Meal)
    requires forall num :: 1 <= num <= SlotCount ==> SlotAt(m, num) == SlotAt(m', num)
    ensures Ingredients(m) == Ingredients(m')
  {
    assert SlotPairs(m) == SlotPairs(m');
  }

  /**
   * The card preview: present, non-empty instructions give their first 80
   * code points followed by an ellipsis; otherwise the placeholder.
   */
  function Preview(instructions: Option<string>): (r: string)
    ensures IsTruthy(instructions) ==>
              var s := instructions.value;
              |r| == Min(PreviewLength, |s|) + |Ellipsis|
              && r[..|r| - |Ellipsis|] <= s && r[|r| - |Ellipsis|..] == Ellipsis
    ensures IsTruthy(instructions) && |instructions.value| <= PreviewLength ==> r == instructions.value + Ellipsis
    ensures !IsTruthy(instructions) ==> r == PreviewPlaceholder
  {
    if IsTruthy(instructions) then Substring(instructions.value, 0, PreviewLength) + Ellipsis
    else PreviewPlaceholder
  }
}
