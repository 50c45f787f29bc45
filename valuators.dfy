/** The walk over an XInput2 valuator mask shared by the motion and raw-motion
    handlers: every set bit, in increasing order, takes the next value of the
    event's axis-value list. The mask is given as the bytes the source views the
    32-bit mask words as (`bytemuck::cast_slice`, native byte order). */
module Valuators {
  import opened X11Types

  function Pow2(k: nat): (p: nat)
    ensures p >= 1
  {
    if k == 0 then 1 else 2 * Pow2(k - 1)
  }

  /** Bit `i % 8` of byte `i / 8` of the mask is set. */
  predicate BitSet(mask: seq<u8>, i: nat)
    requires i < |mask| * 8
  {
    (mask[i / 8] / Pow2(i % 8)) % 2 == 1
  }

  /** The set bits below `n`, in increasing order. */
  function SetBitsBelow(mask: seq<u8>, n: nat): seq<nat>
    requires n <= |mask| * 8
  {
    if n == 0 then []
    else SetBitsBelow(mask, n - 1) + (if BitSet(mask, n - 1) then [n - 1] else [])
  }

  function SetBits(mask: seq<u8>): seq<nat> {
    SetBitsBelow(mask, |mask| * 8)
  }

  /** Pairs each axis with the value at the same rank. */
  function Zip(axes: seq<nat>, values: seq<AxisValue>): seq<(nat, AxisValue)>
    requires |axes| <= |values|
  {
    seq(|axes|, k requires 0 <= k < |axes| => (axes[k], values[k]))
  }

  /** The axes the walk visits with their values, and whether it reached the end
      of the mask; it stops short (the source's `unwrap` panics) at the first set
      bit left without a value. */
  datatype Walk = Walk(axes: seq<(nat, AxisValue)>, complete: bool)

  function WalkOf(mask: seq<u8>, values: seq<AxisValue>): Walk {
    var bits := SetBits(mask);
    if |bits| <= |values| then Walk(Zip(bits, values), true)
    else Walk(Zip(bits[..|values|], values), false)
  }

  lemma {:induction false} SetBitsPrefix(mask: seq<u8>, n: nat, m: nat)
    requires n <= m <= |mask| * 8
    ensures |SetBitsBelow(mask, n)| <= |SetBitsBelow(mask, m)|
    ensures SetBitsBelow(mask, m)[..|SetBitsBelow(mask, n)|] == SetBitsBelow(mask, n)
    decreases m - n
  {
    if n < m {
      SetBitsPrefix(mask, n, m - 1);
      var a, b := SetBitsBelow(mask, n), SetBitsBelow(mask, m - 1);
      assert SetBitsBelow(mask, m)[..|b|] == b;
      assert b[..|a|] == a;
    }
  }

  /** The walk visits exactly the set bits, in strictly increasing order. */
  lemma {:induction false} SetBitsExact(mask: seq<u8>, n: nat)
    requires n <= |mask| * 8
    ensures forall k :: 0 <= k < |SetBitsBelow(mask, n)| ==>
      SetBitsBelow(mask, n)[k] < n && BitSet(mask, SetBitsBelow(mask, n)[k])
    ensures forall i :: 0 <= i < n && BitSet(mask, i) ==> i in SetBitsBelow(mask, n)
    ensures forall k, l :: 0 <= k < l < |SetBitsBelow(mask, n)| ==> SetBitsBelow(mask, n)[k] < SetBitsBelow(mask, n)[l]
  {
    if n > 0 {
      SetBitsExact(mask, n - 1);
    }
  }

  /** The k-th value goes to the k-th set bit, and the walk completes exactly when
      there is a value for every set bit. */
  lemma WalkPairsRanks(mask: seq<u8>, values: seq<AxisValue>)
    ensures WalkOf(mask, values).complete <==> |SetBits(mask)| <= |values|
    ensures |WalkOf(mask, values).axes| == if |SetBits(mask)| <= |values| then |SetBits(mask)| else |values|
    ensures forall k :: 0 <= k < |WalkOf(mask, values).axes| ==>
      WalkOf(mask, values).axes[k] == (SetBits(mask)[k], values[k])
  {
  }

  lemma ZipSnoc(axes: seq<nat>, a: nat, values: seq<AxisValue>)
    requires |axes| < |values|
    ensures Zip(axes + [a], values) == Zip(axes, values) + [(a, values[|axes|])]
  {
  }

  /** One more bit of the mask extends the set bits by that bit when it is set. */
  lemma SetBitsStep(mask: seq<u8>, i: nat)
    requires i < |mask| * 8
    ensures SetBitsBelow(mask, i + 1) == SetBitsBelow(mask, i) + (if BitSet(mask, i) then [i] else [])
  {
  }

  /** A set bit met when every value is taken ends the walk short, with the axes
      visited so far. */
  lemma {:induction false} WalkStopsShort(mask: seq<u8>, values: seq<AxisValue>, i: nat)
    requires i < |mask| * 8 && BitSet(mask, i)
    requires |SetBitsBelow(mask, i)| == |values|
    ensures WalkOf(mask, values) == Walk(Zip(SetBitsBelow(mask, i), values), false)
  {
    var bits := SetBitsBelow(mask, i);
    SetBitsStep(mask, i);
    SetBitsPrefix(mask, i + 1, |mask| * 8);
    assert (bits + [i])[..|bits|] == bits;
    assert SetBits(mask)[..|values|] == bits;
  }

  /** The loop of the motion handlers. */
  method WalkValuators(mask: seq<u8>, values: seq<AxisValue>) returns (w: Walk)
    ensures w == WalkOf(mask, values)
  {
    var axes: seq<(nat, AxisValue)> := [];
    var rest := values;
    var i := 0;
    while i < |mask| * 8
      invariant 0 <= i <= |mask| * 8
      invariant |SetBitsBelow(mask, i)| <= |values|
      invariant rest == values[|SetBitsBelow(mask, i)|..]
      invariant axes == Zip(SetBitsBelow(mask, i), values)
    {
      ghost var bits := SetBitsBelow(mask, i);
      SetBitsStep(mask, i);
      if (mask[i / 8] / Pow2(i % 8)) % 2 == 0 {
        i := i + 1;
      } else if rest == [] {
        WalkStopsShort(mask, values, i);
        return Walk(axes, false);
      } else {
        ZipSnoc(bits, i, values);
        axes := axes + [(i, rest[0])];
        rest := rest[1..];
        i := i + 1;
      }
    }
    return Walk(axes, true);
  }
}
