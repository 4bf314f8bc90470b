/** Packed counter registers.

    A 128-bit register cut into blocks of one width w is modelled as the
    sequence of its block values, lowest block first: 128 / w naturals. The
    bitwise macros of the counter only ever combine blocks of equal index (or
    two adjacent blocks), so this view is exact as long as no block overflows,
    which the level modules prove. */
module Blocks {

  /** 2^n. */
  function Pow2(n: nat): (p: nat)
    ensures p >= 1
  {
    if n == 0 then 1 else 2 * Pow2(n - 1)
  }

  lemma {:induction false} Pow2Add(a: nat, b: nat)
    ensures Pow2(a + b) == Pow2(a) * Pow2(b)
  {
    if a > 0 {
      Pow2Add(a - 1, b);
    }
  }

  /** The widths the counter uses. */
  lemma Pow2Values()
    ensures Pow2(2) == 4 && Pow2(4) == 16 && Pow2(8) == 256
    ensures Pow2(16) == 65536 && Pow2(32) == 4294967296
  {
    assert Pow2(2) == 4;
    Pow2Add(2, 2);
    Pow2Add(4, 4);
    Pow2Add(8, 8);
    Pow2Add(16, 16);
  }

  /** Largest value a block of width w can hold. */
  function Capacity(w: nat): nat
  {
    Pow2(w) - 1
  }

  /** Sum of all blocks of a register. */
  function Sum(r: seq<nat>): nat
  {
    if |r| == 0 then 0 else Sum(r[..|r| - 1]) + r[|r| - 1]
  }

  /** Every block is at most cap. */
  predicate Bounded(r: seq<nat>, cap: nat)
  {
    forall i :: 0 <= i < |r| ==> r[i] <= cap
  }

  /** The register that set_zero_b128 produces, seen as n blocks. */
  function Zero(n: nat): (r: seq<nat>)
    ensures |r| == n
    ensures Bounded(r, 0)
    ensures Sum(r) == 0
  {
    var r := seq(n, i requires 0 <= i < n => 0);
    SumPointwise(r, r, r);
    r
  }

  /** add_b128 on two registers of the same block width, when no block
      overflows: block i of the result is the sum of the two blocks i. */
  function Add(a: seq<nat>, b: seq<nat>): (r: seq<nat>)
    requires |a| == |b|
    ensures |r| == |a|
    ensures forall i :: 0 <= i < |r| ==> r[i] == a[i] + b[i]
    ensures Sum(r) == Sum(a) + Sum(b)
  {
    var r := seq(|a|, i requires 0 <= i < |a| => a[i] + b[i]);
    SumPointwise(a, b, r);
    r
  }

  /** Adding block by block adds the sums. */
  lemma {:induction false} SumPointwise(a: seq<nat>, b: seq<nat>, r: seq<nat>)
    requires |a| == |b| == |r|
    requires forall i :: 0 <= i < |r| ==> r[i] == a[i] + b[i]
    ensures Sum(r) == Sum(a) + Sum(b)
  {
    if |r| > 0 {
      var n := |r| - 1;
      SumPointwise(a[..n], b[..n], r[..n]);
    }
  }

  /** CONVERT_SUM: merges every pair of adjacent blocks into one block of
      twice the width, holding their sum; no count is lost. */
  function Convert(x: seq<nat>): (r: seq<nat>)
    requires |x| % 2 == 0
    ensures |r| == |x| / 2
    ensures forall i :: 0 <= i < |r| ==> r[i] == x[2 * i] + x[2 * i + 1]
    ensures Sum(r) == Sum(x)
  {
    var r := seq(|x| / 2, i requires 0 <= i < |x| / 2 => x[2 * i] + x[2 * i + 1]);
    SumPairs(x, r);
    r
  }

  /** Merging adjacent pairs of blocks keeps the sum. */
  lemma {:induction false} SumPairs(x: seq<nat>, r: seq<nat>)
    requires |x| == 2 * |r|
    requires forall i :: 0 <= i < |r| ==> r[i] == x[2 * i] + x[2 * i + 1]
    ensures Sum(r) == Sum(x)
  {
    if |r| > 0 {
      var n := |r| - 1;
      var m := |x|;
      assert x[..m - 1][..m - 2] == x[..2 * n];
      forall i | 0 <= i < n
        ensures r[..n][i] == x[..2 * n][2 * i] + x[..2 * n][2 * i + 1]
      {
        assert r[..n][i] == r[i];
      }
      SumPairs(x[..2 * n], r[..n]);
    }
  }

  /** SUM_WITH_PREVIOUS_LEVEL: the converted narrower register added into
      an accumulator of the wider width. */
  function Accumulate(acc: seq<nat>, x: seq<nat>): (r: seq<nat>)
    requires |x| % 2 == 0 && |acc| == |x| / 2
    ensures |r| == |acc|
    ensures forall i :: 0 <= i < |r| ==> r[i] == acc[i] + x[2 * i] + x[2 * i + 1]
    ensures Sum(r) == Sum(acc) + Sum(x)
  {
    Add(acc, Convert(x))
  }

  /** Accumulating blocks at most q into blocks at most p gives blocks at most
      p + 2 * q. */
  lemma AccumulateBounded(acc: seq<nat>, x: seq<nat>, p: nat, q: nat)
    requires |x| % 2 == 0 && |acc| == |x| / 2
    requires Bounded(acc, p) && Bounded(x, q)
    ensures Bounded(Accumulate(acc, x), p + 2 * q)
  {
    var r := Accumulate(acc, x);
    forall i | 0 <= i < |r|
      ensures r[i] <= p + 2 * q
    {
      assert r[i] == acc[i] + x[2 * i] + x[2 * i + 1];
    }
  }

  /** Totals of the three counter registers. */
  datatype Counts = Counts(transitions: nat, transversions: nat, unknown: nat)
  {
    function Plus(o: Counts): Counts
    {
      Counts(transitions + o.transitions, transversions + o.transversions, unknown + o.unknown)
    }

    /** Number of positions these counts account for. */
    function Classified(): nat
    {
      transitions + transversions + unknown
    }
  }

  const NoCounts := Counts(0, 0, 0)

  lemma PlusNothing(x: Counts)
    ensures x.Plus(NoCounts) == x
  {
  }

  lemma PlusNothing'(x: Counts)
    ensures NoCounts.Plus(x) == x
  {
  }

  lemma PlusAssociative(x: Counts, y: Counts, z: Counts)
    ensures x.Plus(y).Plus(z) == x.Plus(y.Plus(z))
  {
  }

  /** The three registers every level returns: transitions (sum_ts),
      transversions (sum_tv) and unknown positions (sum_del), all with the
      same block width. */
  datatype Sums = Sums(ts: seq<nat>, tv: seq<nat>, del: seq<nat>)
  {
    /** Each register has n blocks. */
    predicate Shaped(n: nat)
    {
      |ts| == n && |tv| == n && |del| == n
    }

    /** No block of any of the three registers exceeds cap. */
    predicate Within(cap: nat)
    {
      Bounded(ts, cap) && Bounded(tv, cap) && Bounded(del, cap)
    }

    lemma WithinWeaken(p: nat, q: nat)
      requires Within(p) && p <= q
      ensures Within(q)
    {
    }

    /** The counts the registers hold: the sums of their blocks. */
    function Total(): Counts
    {
      Counts(Sum(ts), Sum(tv), Sum(del))
    }

    /** add_b128 applied to each of the three registers. */
    function Plus(o: Sums): (r: Sums)
      requires Shaped(|ts|) && o.Shaped(|ts|)
      ensures r.Shaped(|ts|)
      ensures r.Total() == Total().Plus(o.Total())
    {
      Sums(Add(ts, o.ts), Add(tv, o.tv), Add(del, o.del))
    }

    /** CONVERT_SUM applied to each of the three registers. */
    function ConvertAll(): (r: Sums)
      requires Shaped(|ts|) && |ts| % 2 == 0
      ensures r.Shaped(|ts| / 2)
      ensures r.Total() == Total()
    {
      Sums(Convert(ts), Convert(tv), Convert(del))
    }

    /** SUM_WITH_PREVIOUS_LEVEL applied to each of the three registers. */
    function AccumulateAll(x: Sums): (r: Sums)
      requires Shaped(|ts|) && x.Shaped(2 * |ts|)
      ensures r.Shaped(|ts|)
      ensures r.Total() == Total().Plus(x.Total())
    {
      Sums(Accumulate(ts, x.ts), Accumulate(tv, x.tv), Accumulate(del, x.del))
    }

    /** Adding registers with blocks at most p and q gives blocks at most p + q. */
    lemma PlusWithin(o: Sums, p: nat, q: nat)
      requires Shaped(|ts|) && o.Shaped(|ts|) && Within(p) && o.Within(q)
      ensures Plus(o).Within(p + q)
    {
    }

    /** Converting doubles the bound on the blocks. */
    lemma ConvertWithin(cap: nat)
      requires Shaped(|ts|) && |ts| % 2 == 0 && Within(cap)
      ensures ConvertAll().Within(2 * cap)
    {
    }

    /** Accumulating registers with blocks at most q into blocks at most p
        gives blocks at most p + 2 * q. */
    lemma AccumulateWithin(x: Sums, p: nat, q: nat)
      requires Shaped(|ts|) && x.Shaped(2 * |ts|) && Within(p) && x.Within(q)
      ensures AccumulateAll(x).Within(p + 2 * q)
    {
      AccumulateBounded(ts, x.ts, p, q);
      AccumulateBounded(tv, x.tv, p, q);
      AccumulateBounded(del, x.del, p, q);
    }
  }

  function ZeroSums(n: nat): (r: Sums)
    ensures r.Shaped(n) && r.Within(0) && r.Total() == NoCounts
  {
    Sums(Zero(n), Zero(n), Zero(n))
  }
}
