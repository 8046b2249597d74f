/** The code that `#[derive(VariantName)]` generates for nested name enums. */
module VariantNames {

  /** A variant is a unit, or wraps another name enum. */
  datatype Variant = Unit | Nested(inner: NameEnum)

  datatype NameEnum = NameEnum(variants: seq<Variant>)

  /** A value of a name enum: which variant, and for a wrapping variant the value inside. */
  datatype Value = Plain(variant: nat) | Wrapping(variant: nat, inner: Value)

  /** An enum has at least one variant. */
  predicate WellFormed(e: NameEnum) {
    e.variants != [] && forall i :: 0 <= i < |e.variants| && e.variants[i].Nested? ==> WellFormed(e.variants[i].inner)
  }

  predicate IsValue(e: NameEnum, v: Value)
    decreases v
  {
    && v.variant < |e.variants|
    && match v
       case Plain(k) => e.variants[k].Unit?
       case Wrapping(k, inner) => e.variants[k].Nested? && IsValue(e.variants[k].inner, inner)
  }

  // The generated constants: counts of units plus the counts of the wrapped enums.

  /** Units among the first `k` variants. */
  function Units(e: NameEnum, k: nat): nat
    requires k <= |e.variants|
  {
    if k == 0 then 0 else Units(e, k - 1) + if e.variants[k - 1].Unit? then 1 else 0
  }

  /** The counts of the enums wrapped by the first `k` variants. */
  function NestedCounts(e: NameEnum, k: nat): nat
    requires k <= |e.variants|
    decreases e, k
  {
    if k == 0 then 0
    else NestedCounts(e, k - 1) + if e.variants[k - 1].Nested? then Count(e.variants[k - 1].inner) else 0
  }

  /** `COUNT`. */
  function Count(e: NameEnum): nat
    decreases e, |e.variants| + 1
  {
    Units(e, |e.variants|) + NestedCounts(e, |e.variants|)
  }

  /** The offset expression generated for variant `k`. */
  function Offset(e: NameEnum, k: nat): nat
    requires k <= |e.variants|
  {
    Units(e, k) + NestedCounts(e, k)
  }

  /** `index`. */
  function Index(e: NameEnum, v: Value): nat
    requires IsValue(e, v)
    decreases v
  {
    match v
    case Plain(k) => Offset(e, k)
    case Wrapping(k, inner) => Offset(e, k) + Index(e.variants[k].inner, inner)
  }

  // Offsets tile the slots.

  function Width(v: Variant): nat {
    match v
    case Unit => 1
    case Nested(inner) => Count(inner)
  }

  lemma OffsetStep(e: NameEnum, k: nat)
    requires k < |e.variants|
    ensures Offset(e, k + 1) == Offset(e, k) + Width(e.variants[k])
    ensures Offset(e, |e.variants|) == Count(e)
  {
  }

  lemma {:induction false} OffsetsAscend(e: NameEnum, j: nat, k: nat)
    requires j <= k <= |e.variants|
    ensures Offset(e, j) <= Offset(e, k)
    decreases k
  {
    if j < k {
      OffsetsAscend(e, j, k - 1);
      OffsetStep(e, k - 1);
    }
  }

  /** A value's index lies within its variant's slots. */
  lemma {:induction false} IndexInSlots(e: NameEnum, v: Value)
    requires IsValue(e, v)
    ensures Offset(e, v.variant) <= Index(e, v) < Offset(e, v.variant + 1) <= Count(e)
    decreases v
  {
    OffsetStep(e, v.variant);
    OffsetsAscend(e, v.variant + 1, |e.variants|);
    if v.Wrapping? {
      IndexInSlots(e.variants[v.variant].inner, v.inner);
    }
  }

  lemma {:induction false} IndexIsInjective(e: NameEnum, v: Value, w: Value)
    requires IsValue(e, v) && IsValue(e, w) && Index(e, v) == Index(e, w)
    ensures v == w
    decreases v
  {
    IndexInSlots(e, v);
    IndexInSlots(e, w);
    if v.variant < w.variant {
      OffsetsAscend(e, v.variant + 1, w.variant);
    } else if w.variant < v.variant {
      OffsetsAscend(e, w.variant + 1, v.variant);
    } else if v.Wrapping? {
      IndexIsInjective(e.variants[v.variant].inner, v.inner, w.inner);
    }
  }

  lemma {:induction false} CountIsPositive(e: NameEnum)
    requires WellFormed(e)
    ensures Count(e) > 0
  {
    var k := |e.variants| - 1;
    OffsetStep(e, k);
    if e.variants[k].Nested? {
      CountIsPositive(e.variants[k].inner);
    }
  }

  /** The table `all` lists the values of the enum: slot `i` holds the value with index `i`. */
  ghost predicate Lists(e: NameEnum, all: seq<Value>) {
    |all| == Count(e) && forall i :: 0 <= i < |all| ==> IsValue(e, all[i]) && Index(e, all[i]) == i
  }

  /** `index` and `ALL` are inverse to each other: every value stands in the table once, at its index. */
  lemma IndexAndAllAreInverse(e: NameEnum, all: seq<Value>)
    requires Lists(e, all)
    ensures forall v :: IsValue(e, v) ==> Index(e, v) < |all| && all[Index(e, v)] == v
    ensures forall i, j :: 0 <= i < j < |all| ==> all[i] != all[j]
  {
    forall v | IsValue(e, v)
      ensures Index(e, v) < |all| && all[Index(e, v)] == v
    {
      IndexInSlots(e, v);
      IndexIsInjective(e, v, all[Index(e, v)]);
    }
  }

  /** The slots below `end` are written once and hold their values; the rest is still filler. */
  ghost predicate FilledTo(e: NameEnum, end: nat, all: seq<Value>, writes: seq<nat>) {
    && |all| == |writes| == Count(e)
    && end <= |all|
    && (forall i :: 0 <= i < end ==> IsValue(e, all[i]) && Index(e, all[i]) == i && writes[i] == 1)
    && (forall i :: end <= i < |all| ==> writes[i] == 0)
  }

  /** Writing the value with index `end` into slot `end`. */
  lemma WriteFills(e: NameEnum, end: nat, all: seq<Value>, writes: seq<nat>, v: Value)
    requires FilledTo(e, end, all, writes) && end < |all|
    requires IsValue(e, v) && Index(e, v) == end
    ensures FilledTo(e, end + 1, all[end := v], writes[end := writes[end] + 1])
  {
    hide IsValue, Index, Count;
  }

  lemma AllFilled(e: NameEnum, all: seq<Value>, writes: seq<nat>)
    requires FilledTo(e, Count(e), all, writes)
    ensures Lists(e, all)
    ensures |writes| == Count(e) && forall i :: 0 <= i < |writes| ==> writes[i] == 1
  {
  }

  /** The slots of a wrapping variant. */
  method FillNested(e: NameEnum, k: nat, offset: nat, innerAll: seq<Value>, all: array<Value>, ghost was: seq<nat>)
    returns (ghost writes: seq<nat>)
    requires k < |e.variants| && e.variants[k].Nested? && Lists(e.variants[k].inner, innerAll)
    requires offset == Offset(e, k) && FilledTo(e, offset, all[..], was)
    modifies all
    ensures FilledTo(e, offset + |innerAll|, all[..], writes)
    ensures |innerAll| == Count(e.variants[k].inner)
  {
    hide Index, IsValue, Count, FilledTo, Offset;
    SlotsLeft(e, k, innerAll, all[..], was);
    writes := was;
    var i := 0;
    while i < |innerAll|
      invariant 0 <= i <= |innerAll|
      invariant FilledTo(e, offset + i, all[..], writes) && |writes| == all.Length
    {
      WrappedAt(e, k, innerAll, i);
      WriteFills(e, offset + i, all[..], writes, Wrapping(k, innerAll[i]));
      ghost var before := all[..];
      all[offset + i] := Wrapping(k, innerAll[i]);
      assert all[..] == before[offset + i := Wrapping(k, innerAll[i])];
      writes := writes[offset + i := writes[offset + i] + 1];
      i := i + 1;
    }
  }

  lemma SlotsLeft(e: NameEnum, k: nat, innerAll: seq<Value>, all: seq<Value>, writes: seq<nat>)
    requires k < |e.variants| && e.variants[k].Nested? && Lists(e.variants[k].inner, innerAll)
    requires FilledTo(e, Offset(e, k), all, writes)
    ensures Offset(e, k) + |innerAll| <= |all| == |writes|
    ensures |innerAll| == Count(e.variants[k].inner)
  {
    OffsetStep(e, k);
    OffsetsAscend(e, k + 1, |e.variants|);
  }

  /**
    * `ALL`: the table is filled with some value, then each slot is written; `writes` counts the writes to
    * each slot. The offset is carried as the units seen so far plus the counts of the enums seen so far.
    */
  method BuildAll(e: NameEnum) returns (table: seq<Value>, ghost writes: seq<nat>)
    requires WellFormed(e)
    ensures Lists(e, table)
    ensures |writes| == Count(e) && forall i :: 0 <= i < |writes| ==> writes[i] == 1
    decreases e
  {
    hide Index, IsValue, Lists, Count, Offset, FilledTo, Units, NestedCounts;
    var filler := Plain(0);
    if e.variants[0].Nested? {
      var inner, _ := BuildAll(e.variants[0].inner);
      InnerFirst(e, inner);
      filler := Wrapping(0, inner[0]);
    }
    var all := new Value[Count(e)](_ => filler);
    writes := seq(Count(e), _ => 0);
    var units, nested := 0, 0;
    NothingFilled(e, all[..], writes);
    for k := 0 to |e.variants|
      invariant units == Units(e, k) && nested == NestedCounts(e, k) && units + nested == Offset(e, k)
      invariant |writes| == all.Length == Count(e)
      invariant FilledTo(e, units + nested, all[..], writes)
    {
      var offset := units + nested;
      CountsStep(e, k);
      match e.variants[k] {
        case Unit =>
          PlainAt(e, k);
          WriteFills(e, offset, all[..], writes, Plain(k));
          ghost var before := all[..];
          all[offset] := Plain(k);
          assert all[..] == before[offset := Plain(k)];
          writes := writes[offset := writes[offset] + 1];
          units := units + 1;
        case Nested(inner) =>
          var innerAll, _ := BuildAll(inner);
          writes := FillNested(e, k, offset, innerAll, all, writes);
          FilledLength(e, offset + |innerAll|, all[..], writes);
          nested := nested + Count(inner);
      }
    }
    CountIsOffset(e);
    AllFilled(e, all[..], writes);
    table := all[..];
  }

  lemma NothingFilled(e: NameEnum, all: seq<Value>, writes: seq<nat>)
    requires |all| == |writes| == Count(e) && forall i :: 0 <= i < |writes| ==> writes[i] == 0
    ensures FilledTo(e, 0, all, writes) && Units(e, 0) == NestedCounts(e, 0) == Offset(e, 0) == 0
  {
  }

  lemma FilledLength(e: NameEnum, end: nat, all: seq<Value>, writes: seq<nat>)
    requires FilledTo(e, end, all, writes)
    ensures |writes| == |all|
  {
  }

  lemma CountsStep(e: NameEnum, k: nat)
    requires k < |e.variants|
    ensures Offset(e, k) == Units(e, k) + NestedCounts(e, k)
    ensures match e.variants[k]
            case Unit => Units(e, k + 1) == Units(e, k) + 1 && NestedCounts(e, k + 1) == NestedCounts(e, k)
            case Nested(inner) =>
              Units(e, k + 1) == Units(e, k) && NestedCounts(e, k + 1) == NestedCounts(e, k) + Count(inner)
    ensures Offset(e, k + 1) == Units(e, k + 1) + NestedCounts(e, k + 1)
    ensures Offset(e, k) + Width(e.variants[k]) <= Count(e)
  {
    OffsetStep(e, k);
    OffsetsAscend(e, k + 1, |e.variants|);
  }

  lemma CountIsOffset(e: NameEnum)
    ensures Offset(e, |e.variants|) == Count(e)
  {
  }

  lemma InnerFirst(e: NameEnum, inner: seq<Value>)
    requires WellFormed(e) && e.variants[0].Nested? && Lists(e.variants[0].inner, inner)
    ensures |inner| > 0
  {
    CountIsPositive(e.variants[0].inner);
  }

  lemma PlainAt(e: NameEnum, k: nat)
    requires k < |e.variants| && e.variants[k].Unit?
    ensures IsValue(e, Plain(k)) && Index(e, Plain(k)) == Offset(e, k)
  {
  }

  lemma WrappedAt(e: NameEnum, k: nat, innerAll: seq<Value>, i: nat)
    requires k < |e.variants| && e.variants[k].Nested? && Lists(e.variants[k].inner, innerAll) && i < |innerAll|
    ensures IsValue(e, Wrapping(k, innerAll[i])) && Index(e, Wrapping(k, innerAll[i])) == Offset(e, k) + i
  {
  }
}
