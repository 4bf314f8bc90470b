/** The counting hierarchy dist_level_1 .. dist_level_4.

    Level 1 compares three registers of each sequence and returns three
    registers of 2-bit blocks. Level k (k = 2, 3, 4) calls level k - 1 a fixed
    number of times; it converts the first result to blocks of twice the width
    and accumulates every further result into them. The per-level constants
    are kept in one table (Width, Calls, Span, Cap) instead of being unrolled
    per level. */
module Levels {
  import opened Blocks
  import opened Strands

  /** Block width of the registers level k returns: 2, 4, 8, 16 bits, and 32
      bits for the driver's final totals (k = 5). */
  function Width(k: nat): nat
    requires 1 <= k <= 5
  {
    Pow2(k)
  }

  /** The widths and the capacities of their blocks. */
  lemma WidthValues()
    ensures Width(1) == 2 && Width(2) == 4 && Width(3) == 8 && Width(4) == 16 && Width(5) == 32
    ensures Capacity(Width(2)) == 15 && Capacity(Width(3)) == 255 && Capacity(Width(4)) == 65535
  {
    Pow2Values();
    assert Pow2(1) == 2 && Pow2(3) == 8;
    Pow2Add(4, 1);
  }

  /** Number of blocks in a register at level k: 64, 32, 16, 8, 4. */
  function BlocksAt(k: nat): nat
    requires 1 <= k <= 5
  {
    if k == 1 then 64 else if k == 2 then 32 else if k == 3 then 16 else if k == 4 then 8 else 4
  }

  /** Converting halves the number of blocks. */
  lemma BlocksHalve(k: nat)
    requires 2 <= k <= 5
    ensures BlocksAt(k - 1) == 2 * BlocksAt(k) && BlocksAt(k - 1) % 2 == 0
  {
  }


  /** How often level k calls level k - 1. */
  function Calls(k: nat): nat
    requires 2 <= k <= 4
  {
    if k == 2 then 2 else if k == 3 then 8 else 128
  }

  /** The number of calls is the largest that the wider blocks can take:
      that many converted results of full narrower blocks, (2^w - 1) /
      (2 * (2^v - 1)) for the wider width w and the narrower width v. */
  lemma CallsFill(k: nat)
    requires 2 <= k <= 4
    ensures Calls(k) == Capacity(Width(k)) / (2 * Capacity(Width(k - 1)))
  {
    Pow2Values();
  }

  /** Registers of each sequence one call of level k consumes. */
  function Span(k: nat): nat
    requires 1 <= k <= 4
  {
    if k == 1 then 3 else if k == 2 then 6 else if k == 3 then 48 else 6144
  }

  /** Level k reads what its calls to level k - 1 read. */
  lemma SpanCalls(k: nat)
    requires 2 <= k <= 4
    ensures Span(k) == Calls(k) * Span(k - 1)
  {
  }

  /** Largest value a block returned by level k can hold: the number of
      positions that feed it. */
  function Cap(k: nat): nat
    requires 1 <= k <= 4
  {
    if k == 1 then 3 else if k == 2 then 12 else if k == 3 then 192 else 49152
  }

  /** Each call of level k adds at most two full blocks of level k - 1 to a
      block. */
  lemma CapCalls(k: nat)
    requires 2 <= k <= 4
    ensures Cap(k) == Calls(k) * (2 * Cap(k - 1))
  {
  }

  /** What level k returns fits its blocks: 3, 12, 192 and 49152 against
      3, 15, 255 and 65535. */
  lemma CapFits(k: nat)
    requires 1 <= k <= 4
    ensures Cap(k) <= Capacity(Width(k))
  {
    Pow2Values();
  }

  /** Registers of each sequence the first n calls of level k to level k - 1
      read, counted call by call. Level 5 stands for the driver's width-32
      totals, which call level 4. */
  function Reads(k: nat, n: nat): nat
    requires 2 <= k <= 5
  {
    if n == 0 then 0 else Reads(k, n - 1) + Span(k - 1)
  }

  /** Bound on the blocks after the first n calls of level k to level k - 1,
      counted call by call: every converted result adds at most two full
      narrower blocks. */
  function Bound(k: nat, n: nat): nat
    requires 2 <= k <= 5
  {
    if n == 0 then 0 else Bound(k, n - 1) + 2 * Cap(k - 1)
  }

  /** All calls of level k read exactly its span. */
  lemma {:induction false} ReadsAll(k: nat, n: nat)
    requires 2 <= k <= 5
    ensures Reads(k, n) == n * Span(k - 1)
    ensures k <= 4 && n == Calls(k) ==> Reads(k, n) == Span(k)
  {
    if k <= 4 {
      SpanCalls(k);
    }
    if n > 0 {
      ReadsAll(k, n - 1);
    }
  }

  /** All calls of level k fill the blocks to exactly its cap. */
  lemma {:induction false} BoundAll(k: nat, n: nat)
    requires 2 <= k <= 5
    ensures Bound(k, n) == n * (2 * Cap(k - 1))
    ensures k <= 4 && n == Calls(k) ==> Bound(k, n) == Cap(k)
  {
    if k <= 4 {
      CapCalls(k);
    }
    if n > 0 {
      BoundAll(k, n - 1);
    }
  }

  /** Three registers of counts and the cursors after the registers read. */
  datatype Step = Step(sums: Sums, next: Cursors)

  /** dist_level_1: classifies three registers of each sequence and adds the
      three results block by block. */
  function Level1(inp: Inputs, c: Cursors): (r: Step)
    requires inp.Wf() && inp.CanRead(c, 3)
    ensures r.next == c.Advance(3)
    ensures r.sums.Shaped(SymbolsPerRegister) && r.sums.Within(3)
    ensures r.sums.Total() == inp.Window(c, 3)
  {
    var c1, c2 := c.Advance(1), c.Advance(2);
    var s1, s2, s3 := inp.ClassifyAt(c), inp.ClassifyAt(c1), inp.ClassifyAt(c2);
    inp.WindowThree(c);
    s1.PlusWithin(s2, 1, 1);
    s1.Plus(s2).PlusWithin(s3, 2, 1);
    Step(s1.Plus(s2).Plus(s3), c.Advance(3))
  }

  /** dist_level_k: reads Span(k) registers of each sequence and returns their
      counts in blocks of Width(k) bits, none of which overflows. */
  function Level(inp: Inputs, k: nat, c: Cursors): (r: Step)
    requires 1 <= k <= 4 && inp.Wf() && inp.CanRead(c, Span(k))
    ensures r.next == c.Advance(Span(k))
    ensures r.sums.Shaped(BlocksAt(k))
    ensures r.sums.Within(Cap(k)) && r.sums.Within(Capacity(Width(k)))
    ensures r.sums.Total() == inp.Window(c, Span(k))
    decreases k, 0
  {
    if k == 1 then
      CapFits(1);
      Level1(inp, c)
    else
      ReadsAll(k, Calls(k));
      BoundAll(k, Calls(k));
      var r := Gather(inp, k, Calls(k), c);
      CapFits(k);
      r.sums.WithinWeaken(Cap(k), Capacity(Width(k)));
      r
  }

  /** The first n calls level k makes to level k - 1: the first result is
      converted (CONVERT_SUM), every later one accumulated
      (SUM_WITH_PREVIOUS_LEVEL). */
  function Gather(inp: Inputs, k: nat, n: nat, c: Cursors): (r: Step)
    requires 2 <= k <= 4 && 1 <= n <= Calls(k)
    requires inp.Wf() && inp.CanRead(c, Reads(k, n))
    ensures r.next == c.Advance(Reads(k, n))
    ensures r.sums.Shaped(BlocksAt(k))
    ensures r.sums.Within(Bound(k, n))
    ensures r.sums.Total() == inp.Window(c, Reads(k, n))
    decreases k - 1, n
  {
    if n == 1 then
      var low := Level(inp, k - 1, c);
      FirstCall(inp, k, c, low);
      Step(low.sums.ConvertAll(), low.next)
    else
      var acc := Gather(inp, k, n - 1, c);
      var low := Level(inp, k - 1, acc.next);
      LaterCall(inp, k, n, c, acc, low);
      Step(acc.sums.AccumulateAll(low.sums), low.next)
  }

  /** The first call of level k to level k - 1, converted, reads one span and
      keeps every count. */
  lemma FirstCall(inp: Inputs, k: nat, c: Cursors, low: Step)
    requires 2 <= k <= 4 && inp.Wf()
    requires low.next == c.Advance(Span(k - 1))
    requires low.sums.Shaped(BlocksAt(k - 1)) && low.sums.Within(Cap(k - 1))
    requires low.sums.Total() == inp.Window(c, Span(k - 1))
    ensures low.sums.Shaped(|low.sums.ts|) && |low.sums.ts| % 2 == 0
    ensures low.next == c.Advance(Reads(k, 1))
    ensures low.sums.ConvertAll().Shaped(BlocksAt(k))
    ensures low.sums.ConvertAll().Within(Bound(k, 1))
    ensures low.sums.ConvertAll().Total() == inp.Window(c, Reads(k, 1))
  {
    BlocksHalve(k);
    assert Reads(k, 1) == Span(k - 1) && Bound(k, 1) == 2 * Cap(k - 1);
    low.sums.ConvertWithin(Cap(k - 1));
  }

  /** A later call of level k to level k - 1, accumulated, reads one more
      span and adds its counts to those before. */
  lemma LaterCall(inp: Inputs, k: nat, n: nat, c: Cursors, acc: Step, low: Step)
    requires 2 <= k <= 4 && 2 <= n && inp.Wf()
    requires acc.next == c.Advance(Reads(k, n - 1))
    requires acc.sums.Shaped(BlocksAt(k)) && acc.sums.Within(Bound(k, n - 1))
    requires acc.sums.Total() == inp.Window(c, Reads(k, n - 1))
    requires low.next == acc.next.Advance(Span(k - 1))
    requires low.sums.Shaped(BlocksAt(k - 1)) && low.sums.Within(Cap(k - 1))
    requires low.sums.Total() == inp.Window(acc.next, Span(k - 1))
    ensures acc.sums.Shaped(|acc.sums.ts|) && low.sums.Shaped(2 * |acc.sums.ts|)
    ensures low.next == c.Advance(Reads(k, n))
    ensures acc.sums.AccumulateAll(low.sums).Shaped(BlocksAt(k))
    ensures acc.sums.AccumulateAll(low.sums).Within(Bound(k, n))
    ensures acc.sums.AccumulateAll(low.sums).Total() == inp.Window(c, Reads(k, n))
  {
    BlocksHalve(k);
    inp.WindowSplit(c, Reads(k, n - 1), Span(k - 1), Reads(k, n));
    acc.sums.AccumulateWithin(low.sums, Bound(k, n - 1), Cap(k - 1));
  }
}
