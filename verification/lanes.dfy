/** The driver's final stage, where the running totals are 32-bit lanes.

    Up to width 16 every block provably stays below its capacity, so the
    register adder never carries across blocks and exact block sums describe
    it. The width-32 totals are added once per call of level 4, and that
    number of calls is bounded only by the input, so here add_b128 is
    taken to be an adder on 32-bit lanes: an addition modulo 2^32 in every
    lane. */
module Lanes {
  import opened Blocks

  const LaneModulus: nat := 0x1_0000_0000
  /** A register holds four 32-bit lanes: 128 / 32. */
  const LaneCount: nat := 4

  /** Every lane holds a 32-bit value. */
  predicate InLanes(x: seq<nat>)
  {
    forall i :: 0 <= i < |x| ==> x[i] < LaneModulus
  }

  /** The 32-bit lanes that hold the unbounded block values x. */
  function Wrap(x: seq<nat>): (r: seq<nat>)
    ensures |r| == |x| && InLanes(r)
    ensures forall i :: 0 <= i < |x| ==> r[i] == x[i] % LaneModulus
  {
    seq(|x|, i requires 0 <= i < |x| => x[i] % LaneModulus)
  }

  /** add_b128 on 32-bit lanes: a carry out of a lane is lost. */
  function AddLanes(a: seq<nat>, b: seq<nat>): (r: seq<nat>)
    requires |a| == |b|
    ensures |r| == |a| && InLanes(r)
    ensures forall i :: 0 <= i < |r| ==> r[i] == (a[i] + b[i]) % LaneModulus
  {
    seq(|a|, i requires 0 <= i < |a| => (a[i] + b[i]) % LaneModulus)
  }

  /** Reducing the summands first does not change a sum modulo 2^32. */
  lemma ModAdd(a: nat, b: nat, u: nat, v: nat)
    requires u == a % LaneModulus && v == b % LaneModulus
    ensures (u + v) % LaneModulus == (a + b) % LaneModulus
  {
  }

  /** Adding lanes that wrap is wrapping the exact sums: the lane adder loses
      exactly the multiples of 2^32. */
  lemma AddLanesWrap(a: seq<nat>, b: seq<nat>)
    requires |a| == |b|
    ensures AddLanes(Wrap(a), Wrap(b)) == Wrap(Add(a, b))
  {
    forall i | 0 <= i < |a|
      ensures AddLanes(Wrap(a), Wrap(b))[i] == Wrap(Add(a, b))[i]
    {
      AddLanesWrapAt(a, b, i);
    }
  }

  lemma AddLanesWrapAt(a: seq<nat>, b: seq<nat>, i: nat)
    requires |a| == |b| && i < |a|
    ensures AddLanes(Wrap(a), Wrap(b))[i] == Wrap(Add(a, b))[i]
  {
    var u, v := Wrap(a)[i], Wrap(b)[i];
    assert AddLanes(Wrap(a), Wrap(b))[i] == (u + v) % LaneModulus;
    ModAdd(a[i], b[i], u, v);
  }

  /** Values that fit a lane are their own lanes. */
  lemma WrapInLanes(x: seq<nat>)
    requires InLanes(x)
    ensures Wrap(x) == x
  {
  }

  /** shift_bytes_right_b128 by 4 * k bytes: lane i receives lane i + k, and
      zeros enter from the top. */
  function ShiftLanes(x: seq<nat>, k: nat): (r: seq<nat>)
    requires k <= |x|
    ensures |r| == |x|
    ensures forall i :: 0 <= i < |x| - k ==> r[i] == x[i + k]
    ensures forall i :: |x| - k <= i < |x| ==> r[i] == 0
  {
    x[k..] + Zero(k)
  }

  /** The sum of the lanes from lane i up to the top, as one more lane adds
      to it. */
  lemma SumFromLane(x: seq<nat>, i: nat)
    requires i < |x|
    ensures Sum(x[i..]) == x[i] + Sum(x[i + 1..])
    decreases |x| - i
  {
    if i + 1 < |x| {
      SumFromLane(x[..|x| - 1], i);
      assert x[..|x| - 1][i..] == x[i..|x| - 1];
      assert x[..|x| - 1][i + 1..] == x[i + 1..|x| - 1];
      assert x[i..][..|x| - i - 1] == x[i..|x| - 1];
      assert x[i + 1..][..|x| - i - 2] == x[i + 1..|x| - 1];
    } else {
      assert x[i + 1..] == [];
      assert x[i..][..0] == [];
    }
  }

  /** The sums of the lanes from lane i up to the top. */
  lemma SumsOfLanes(x: seq<nat>)
    requires |x| == LaneCount
    ensures Sum(x[3..]) == x[3]
    ensures Sum(x[2..]) == x[2] + x[3]
    ensures Sum(x[1..]) == x[1] + x[2] + x[3]
    ensures Sum(x[0..]) == x[0] + x[1] + x[2] + x[3]
  {
    SumFromLane(x, 0);
    SumFromLane(x, 1);
    SumFromLane(x, 2);
    SumFromLane(x, 3);
    assert x[4..] == [];
  }

  /** The two shift-and-add steps that reduce four lanes: afterwards lane i
      holds the sum of lanes i .. 3 modulo 2^32, so lane 0 holds the sum of
      all four. */
  function HorizontalSum(x: seq<nat>): (r: seq<nat>)
    requires |x| == LaneCount && InLanes(x)
    ensures |r| == LaneCount
    ensures forall i :: 0 <= i < LaneCount ==> r[i] == Sum(x[i..]) % LaneModulus
  {
    var once := AddLanes(x, ShiftLanes(x, 1));
    var twice := AddLanes(once, ShiftLanes(once, 2));
    LanesReduced(x, once, twice);
    twice
  }

  lemma LanesReduced(x: seq<nat>, once: seq<nat>, twice: seq<nat>)
    requires |x| == LaneCount && InLanes(x)
    requires once == AddLanes(x, ShiftLanes(x, 1))
    requires twice == AddLanes(once, ShiftLanes(once, 2))
    ensures forall i :: 0 <= i < LaneCount ==> twice[i] == Sum(x[i..]) % LaneModulus
  {
    FirstShift(x, once);
    SecondShift(once, twice);
    LaneTotals(x[0], x[1], x[2], x[3], once[0], once[1], once[2], twice[0], twice[1]);
    SumsOfLanes(x);
    forall i | 0 <= i < LaneCount
      ensures twice[i] == Sum(x[i..]) % LaneModulus
    {
      if i == 3 {
        assert x[3] < LaneModulus;
      }
    }
  }

  /** The arithmetic of the reduction, lane by lane. */
  lemma LaneTotals(x0: nat, x1: nat, x2: nat, x3: nat, o0: nat, o1: nat, o2: nat, t0: nat, t1: nat)
    requires x3 < LaneModulus
    requires o0 == (x0 + x1) % LaneModulus && o1 == (x1 + x2) % LaneModulus
    requires o2 == (x2 + x3) % LaneModulus
    requires t0 == (o0 + o2) % LaneModulus && t1 == (o1 + x3) % LaneModulus
    ensures t0 == (x0 + x1 + x2 + x3) % LaneModulus
    ensures t1 == (x1 + x2 + x3) % LaneModulus
  {
    ModAdd(x0 + x1, x2 + x3, o0, o2);
    ModAdd(x1 + x2, x3, o1, x3);
  }

  /** After shifting by one lane and adding, lane i holds lanes i and i + 1. */
  lemma FirstShift(x: seq<nat>, once: seq<nat>)
    requires |x| == LaneCount && InLanes(x)
    requires once == AddLanes(x, ShiftLanes(x, 1))
    ensures once[0] == (x[0] + x[1]) % LaneModulus
    ensures once[1] == (x[1] + x[2]) % LaneModulus
    ensures once[2] == (x[2] + x[3]) % LaneModulus
    ensures once[3] == x[3]
  {
  }

  /** After shifting by two lanes and adding, lane i holds lanes i and i + 2. */
  lemma SecondShift(once: seq<nat>, twice: seq<nat>)
    requires |once| == LaneCount && InLanes(once)
    requires twice == AddLanes(once, ShiftLanes(once, 2))
    ensures twice[0] == (once[0] + once[2]) % LaneModulus
    ensures twice[1] == (once[1] + once[3]) % LaneModulus
    ensures twice[2] == once[2] && twice[3] == once[3]
  {
  }

  /** The lanes of a wrapped register add up, modulo 2^32, to the exact
      sum. */
  lemma {:induction false} SumWrap(x: seq<nat>)
    ensures Sum(Wrap(x)) % LaneModulus == Sum(x) % LaneModulus
  {
    if |x| > 0 {
      var n := |x| - 1;
      assert Wrap(x)[..n] == Wrap(x[..n]);
      SumWrap(x[..n]);
      ModAdd(Sum(Wrap(x[..n])), x[n], Sum(Wrap(x[..n])) % LaneModulus, x[n] % LaneModulus);
      ModAdd(Sum(x[..n]), x[n], Sum(x[..n]) % LaneModulus, x[n] % LaneModulus);
    }
  }
}
