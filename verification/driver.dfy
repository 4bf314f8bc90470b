/** DNA_b128_String::computeDistance: splits the registers of two packed
    sequences among the levels, runs the levels into running totals whose
    blocks widen from 2 to 32 bits, and reduces the four 32-bit lanes of each
    total to one count. */
module Driver {
  import opened Codes
  import opened Blocks
  import opened Classify
  import opened Strands
  import opened Levels
  import opened Lanes

  /** A packed sequence as the distance computation reads it: its length in
      symbols, its data registers and one unknown-mask register per data
      register. */
  datatype PackedSeq = PackedSeq(numChars: nat, data: seq<seq<Code>>, unknown: seq<seq<Code>>)
  {
    /** getNumUsedDatas: one register per started group of 64 symbols. */
    function NumUsedDatas(): nat
    {
      (numChars + SymbolsPerRegister - 1) / SymbolsPerRegister
    }

    /** The registers in use are all there, hold 64 blocks each, and every
        mask block is 00 or 11. */
    predicate Valid()
    {
      && |data| == NumUsedDatas() && |unknown| == NumUsedDatas()
      && (forall i :: 0 <= i < |data| ==> |data[i]| == SymbolsPerRegister)
      && (forall i :: 0 <= i < |unknown| ==> |unknown[i]| == SymbolsPerRegister)
      && (forall i :: 0 <= i < |unknown| ==> AllValid(unknown[i]))
    }

    /** All positions of the sequence, in order. */
    function Positions(): seq<Code>
    {
      Flatten(data)
    }

    function Masks(): seq<Code>
    {
      Flatten(unknown)
    }
  }

  /** simple_string_distance: the unknown positions, the transitions and the
      transversions, each as the 32-bit lane that holds it. */
  datatype Distance = Distance(deletedPositions: nat, transitions: nat, transversions: nat)

  /** The result of a comparison: the distance, or the two lengths when the
      sequences differ in length. */
  datatype DistanceResult = Ok(distance: Distance) | LengthMismatch(numChars1: nat, numChars2: nat)

  /** Counts as a 32-bit lane holds them: get_int_0_b128 gives each count
      less its multiples of 2^32, and counts that fit are reported as they are. */
  function Reported(c: Counts): (r: Distance)
    ensures r.deletedPositions < LaneModulus && r.transitions < LaneModulus && r.transversions < LaneModulus
    ensures (c.unknown - r.deletedPositions) % LaneModulus == 0
    ensures (c.transitions - r.transitions) % LaneModulus == 0
    ensures (c.transversions - r.transversions) % LaneModulus == 0
    ensures c.unknown < LaneModulus && c.transitions < LaneModulus && c.transversions < LaneModulus
            ==> r == Distance(c.unknown, c.transitions, c.transversions)
  {
    Distance(c.unknown % LaneModulus, c.transitions % LaneModulus, c.transversions % LaneModulus)
  }

  /** Registers in use of valid sequences of equal length agree. */
  lemma SameRegisters(s1: PackedSeq, s2: PackedSeq)
    requires s1.Valid() && s2.Valid() && s1.numChars == s2.numChars
    ensures SameLength(s1.Positions(), s2.Positions(), s1.Masks(), s2.Masks())
    ensures AllValid(s1.Masks()) && AllValid(s2.Masks())
  {
  }

  /** What computeDistance computes, stated position by position over bases:
      every position of the registers in use counts once, as unknown when
      either mask marks it and otherwise as the change between the two bases;
      sequences of different length are refused. */
  function Reference(s1: PackedSeq, s2: PackedSeq): (r: DistanceResult)
    requires s1.Valid() && s2.Valid()
    ensures r.LengthMismatch? <==> s1.numChars != s2.numChars
    ensures r.LengthMismatch? ==> r == LengthMismatch(s1.numChars, s2.numChars)
    ensures r.Ok? ==> && r.distance.deletedPositions < LaneModulus
                      && r.distance.transitions < LaneModulus
                      && r.distance.transversions < LaneModulus
  {
    if s1.numChars != s2.numChars then LengthMismatch(s1.numChars, s2.numChars)
    else
      SameRegisters(s1, s2);
      Ok(Reported(RegisterMeaning(s1.Positions(), s2.Positions(), s1.Masks(), s2.Masks())))
  }

  /** Comparing s2 with s1 gives the distance of s1 and s2; a length mismatch
      reports the lengths in the order given. */
  lemma ReferenceSymmetric(s1: PackedSeq, s2: PackedSeq)
    requires s1.Valid() && s2.Valid()
    ensures s1.numChars == s2.numChars ==> Reference(s1, s2) == Reference(s2, s1)
    ensures s1.numChars != s2.numChars ==> Reference(s2, s1) == LengthMismatch(s2.numChars, s1.numChars)
  {
    if s1.numChars == s2.numChars {
      SameRegisters(s1, s2);
      var p1, p2, m1, m2 := s1.Positions(), s2.Positions(), s1.Masks(), s2.Masks();
      RegisterCountsMeaning(p1, p2, m1, m2);
      RegisterCountsMeaning(p2, p1, m2, m1);
      RegisterCountsSymmetric(p1, p2, m1, m2);
    }
  }

  /** A sequence compared with itself has no transition and no transversion,
      and every position its mask marks counts as unknown. */
  lemma ReferenceIdentity(s: PackedSeq)
    requires s.Valid()
    ensures Reference(s, s) == Ok(Distance(UnknownIn(s.Masks()) % LaneModulus, 0, 0))
  {
    SameRegisters(s, s);
    RegisterCountsMeaning(s.Positions(), s.Positions(), s.Masks(), s.Masks());
    RegisterCountsIdentity(s.Positions(), s.Masks());
  }

  /** Every position of the registers in use counts at most once. */
  lemma ReferenceBound(s1: PackedSeq, s2: PackedSeq)
    requires s1.Valid() && s2.Valid()
    ensures Reference(s1, s2).Ok? ==>
              var d := Reference(s1, s2).distance;
              d.transitions + d.transversions + d.deletedPositions <= SymbolsPerRegister * s1.NumUsedDatas()
  {
    if s1.numChars == s2.numChars {
      SameRegisters(s1, s2);
      var p1, p2, m1, m2 := s1.Positions(), s2.Positions(), s1.Masks(), s2.Masks();
      RegisterCountsMeaning(p1, p2, m1, m2);
      var c := RegisterCounts(p1, p2, m1, m2);
      assert c.Classified() <= |p1|;
      ModBelow(c.transitions);
      ModBelow(c.transversions);
      ModBelow(c.unknown);
    }
  }

  lemma ModBelow(x: nat)
    ensures x % LaneModulus <= x
  {
  }

  /** While the registers in use hold fewer than 2^32 positions, no count
      wraps: the reported distance is the exact per-position count. */
  lemma ReferenceExact(s1: PackedSeq, s2: PackedSeq)
    requires s1.Valid() && s2.Valid() && s1.numChars == s2.numChars
    requires SymbolsPerRegister * s1.NumUsedDatas() < LaneModulus
    ensures var m := RegisterMeaning(s1.Positions(), s2.Positions(), s1.Masks(), s2.Masks());
            Reference(s1, s2) == Ok(Distance(m.unknown, m.transitions, m.transversions))
  {
    SameRegisters(s1, s2);
    var p1, p2, m1, m2 := s1.Positions(), s2.Positions(), s1.Masks(), s2.Masks();
    RegisterCountsMeaning(p1, p2, m1, m2);
    var c := RegisterCounts(p1, p2, m1, m2);
    assert c.Classified() <= |p1|;
  }

  /** How many times the driver calls each level, and the registers left for
      the inline remainder code. */
  datatype Plan = Plan(level4: nat, level3: nat, level2: nat, level1: nat, rest: nat)
  {
    /** Registers the plan reads: a call of level 4, 3, 2 or 1 reads 6144,
        48, 6 or 3 registers, and the remainder one each. */
    function Registers(): nat
    {
      6144 * level4 + 48 * level3 + 6 * level2 + 3 * level1 + rest
    }

    /** Registers read before the loop over level 4. */
    function Narrowed(): nat
    {
      rest + 3 * level1 + 6 * level2 + 48 * level3
    }

    /** How often the driver calls level k (1 <= k <= 3) before level 4. */
    function CallsOf(k: nat): nat
      requires 1 <= k <= 3
    {
      if k == 1 then level1 else if k == 2 then level2 else level3
    }

    /** Registers read before the driver's loop over level k starts: the
        remainder and the calls of the levels below k. */
    function Before(k: nat): nat
      requires 1 <= k <= 4
    {
      if k == 1 then rest
      else if k == 2 then rest + 3 * level1
      else if k == 3 then rest + 3 * level1 + 6 * level2
      else Narrowed()
    }

    /** Every count but that of level 4 stays below what one call of the next
        level up would read. */
    predicate Reduced()
    {
      rest < 3 && level1 < 2 && level2 < 8 && level3 < 128
    }
  }

  /** The divisions and remainders by 6144, 48, 6 and 3 that split the number
      of registers in use. */
  function Decompose(n: nat): (p: Plan)
    ensures p.Registers() == n && p.Reduced()
  {
    var l4, r4 := n / 6144, n % 6144;
    var l3, r3 := r4 / 48, r4 % 48;
    var l2, r2 := r3 / 6, r3 % 6;
    var l1, r1 := r2 / 3, r2 % 3;
    Plan(l4, l3, l2, l1, r1)
  }

  /** The split is the only one with every count reduced: no other split
      within these bounds covers n. */
  lemma DecomposeUnique(n: nat, p: Plan)
    requires p.Registers() == n && p.Reduced()
    ensures p == Decompose(n)
  {
    var q := Decompose(n);
    var low := 48 * p.level3 + 6 * p.level2 + 3 * p.level1 + p.rest;
    var qlow := 48 * q.level3 + 6 * q.level2 + 3 * q.level1 + q.rest;
    assert low < 6144 && qlow < 6144;
    DivideUnique(n, 6144, p.level4, low, q.level4, qlow);
    var mid := 6 * p.level2 + 3 * p.level1 + p.rest;
    var qmid := 6 * q.level2 + 3 * q.level1 + q.rest;
    DivideUnique(low, 48, p.level3, mid, q.level3, qmid);
    var small := 3 * p.level1 + p.rest;
    var qsmall := 3 * q.level1 + q.rest;
    DivideUnique(mid, 6, p.level2, small, q.level2, qsmall);
    DivideUnique(small, 3, p.level1, p.rest, q.level1, q.rest);
  }

  /** The split the driver computes, known to its caller only by what makes
      it unique (DecomposeUnique). */
  method Schedule(n: nat) returns (p: Plan)
    ensures p.Registers() == n && p.Reduced()
  {
    p := Decompose(n);
  }

  /** A quotient and remainder below the divisor are unique. */
  lemma DivideUnique(n: nat, d: nat, q1: nat, r1: nat, q2: nat, r2: nat)
    requires 0 < d && r1 < d && r2 < d
    requires n == d * q1 + r1 && n == d * q2 + r2
    ensures q1 == q2 && r1 == r2
  {
    if q1 < q2 {
      MulStep(d, q1, q2);
    } else if q2 < q1 {
      MulStep(d, q2, q1);
    }
  }

  /** A larger factor gives a product larger by at least the other factor. */
  lemma {:induction false} MulStep(d: nat, a: nat, b: nat)
    requires a < b
    ensures d * a + d <= d * b
    decreases b - a
  {
    assert d * (a + 1) == d * a + d;
    if a + 1 < b {
      MulStep(d, a + 1, b);
    }
  }

  /** The registers the stages of a plan read add up to those it covers. */
  lemma PlanReads(p: Plan)
    requires p.Reduced()
    ensures p.level1 <= MaxCalls(1) && p.level2 <= MaxCalls(2) && p.level3 <= MaxCalls(3)
    ensures Reads(2, p.level1) == 3 * p.level1 && Reads(3, p.level2) == 6 * p.level2
    ensures Reads(4, p.level3) == 48 * p.level3 && Reads(5, p.level4) == 6144 * p.level4
    ensures p.Narrowed() + Reads(5, p.level4) == p.Registers()
  {
    ReadsAll(2, p.level1);
    assert Reads(2, p.level1) == 3 * p.level1;
    ReadsAll(3, p.level2);
    assert Reads(3, p.level2) == 6 * p.level2;
    ReadsAll(4, p.level3);
    assert Reads(4, p.level3) == 48 * p.level3;
    ReadsAll(5, p.level4);
    assert Reads(5, p.level4) == 6144 * p.level4;
  }

  /** The driver's loop over level k reads from where the stages before it
      stopped to where the next one starts. */
  lemma PlanStage(p: Plan, k: nat)
    requires p.Reduced() && 1 <= k <= 3
    ensures p.CallsOf(k) <= MaxCalls(k)
    ensures p.Before(k + 1) == p.Before(k) + Reads(k + 1, p.CallsOf(k))
    ensures p.Before(k + 1) <= p.Narrowed()
  {
    ReadsAll(k + 1, p.CallsOf(k));
  }

  /** The switch on the remaining registers: with two, the first register's
      counts become the totals (case 2) and the second is added to them
      (falling through to case 1); with one, it is added to zero totals. */
  function Remainder(inp: Inputs, rest: nat, c: Cursors): (r: Step)
    requires rest < 3 && inp.Wf() && inp.CanRead(c, rest)
    ensures r.next == c.Advance(rest)
    ensures r.sums.Shaped(SymbolsPerRegister) && r.sums.Within(rest)
    ensures r.sums.Total() == inp.Window(c, rest)
  {
    if rest == 2 then
      var first, second := inp.ClassifyAt(c), inp.ClassifyAt(c.Advance(1));
      inp.WindowSplit(c, 1, 1, 2);
      inp.WindowOne(c);
      inp.WindowOne(c.Advance(1));
      first.PlusWithin(second, 1, 1);
      assert c.Advance(1).Advance(1) == c.Advance(2);
      Step(first.Plus(second), c.Advance(2))
    else if rest == 1 then
      var zero, first := ZeroSums(SymbolsPerRegister), inp.ClassifyAt(c);
      inp.WindowOne(c);
      zero.PlusWithin(first, 0, 1);
      PlusNothing'(first.Total());
      Step(zero.Plus(first), c.Advance(1))
    else
      assert inp.Window(c, 0) == NoCounts;
      assert c.Advance(0) == c;
      Step(ZeroSums(SymbolsPerRegister), c)
  }

  /** The remainder's totals, widened, are the entry totals of the loop over
      level 1. */
  lemma HeadFits(inp: Inputs, rest: nat, c: Cursors, head: Step)
    requires rest < 3 && head.next == c.Advance(rest)
    requires head.sums.Shaped(SymbolsPerRegister) && head.sums.Within(rest)
    requires head.sums.Total() == inp.Window(c, rest)
    ensures head.sums.Shaped(|head.sums.ts|) && |head.sums.ts| % 2 == 0
    ensures Entering(inp, 1, c, rest, head.next, head.sums.ConvertAll())
  {
    head.sums.WithinWeaken(rest, 2);
    head.sums.ConvertWithin(2);
  }

  /** The largest number of calls of level k the driver makes: 1, 7 and 127,
      as a reduced plan allows. */
  function MaxCalls(k: nat): nat
    requires 1 <= k <= 3
  {
    if k == 1 then 1 else if k == 2 then 7 else 127
  }

  /** Bound on the driver's blocks when its loop over level k starts: the
      converted totals of the stage before, 2 * 2, 2 * 10, 2 * 188 and, for
      the 32-bit lanes, 2 * 49144. */
  function Entry(k: nat): nat
    requires 1 <= k <= 4
  {
    if k == 1 then 4 else if k == 2 then 20 else if k == 3 then 376 else 98288
  }

  /** The driver about to run its loop over level k: the cursors stand done
      registers after start, and the totals, in blocks of the loop's width,
      count exactly those registers. */
  predicate Entering(inp: Inputs, k: nat, start: Cursors, done: nat, c: Cursors, totals: Sums)
    requires 1 <= k <= 4
  {
    && c == start.Advance(done)
    && totals.Shaped(BlocksAt(k + 1)) && totals.Within(Entry(k))
    && totals.Total() == inp.Window(start, done)
  }

  /** The driver's totals never overflow: after its loop over level k, every
      block is within 10, 188 and 49144, below the capacities 15, 255 and
      65535 of widths 4, 8 and 16, and the converted totals fit the next
      stage. */
  lemma DriverFits(k: nat, count: nat)
    requires 1 <= k <= 3 && count <= MaxCalls(k)
    ensures Entry(k) + Bound(k + 1, count) <= Capacity(Width(k + 1))
    ensures 2 * (Entry(k) + Bound(k + 1, count)) <= Entry(k + 1)
  {
    BoundAll(k + 1, count);
    WidthValues();
    if k == 1 {
      assert Bound(2, count) <= 6;
    } else if k == 2 {
      assert Bound(3, count) <= 168;
    } else {
      assert Bound(4, count) <= 48768;
    }
  }

  /** Registers read by more calls are at least as many. */
  lemma {:induction false} ReadsGrow(k: nat, m: nat, n: nat)
    requires 2 <= k <= 5 && m <= n
    ensures Reads(k, m) <= Reads(k, n)
    decreases n
  {
    if m < n {
      ReadsGrow(k, m, n - 1);
    }
  }

  /** One of the driver's loops at widths 4, 8 and 16: count calls of level
      k, each result converted and added into the running totals
      (SUM_WITH_PREVIOUS_LEVEL). */
  method DriverLoop(inp: Inputs, k: nat, count: nat, c: Cursors, totals: Sums)
      returns (next: Cursors, sums: Sums)
    requires 1 <= k <= 3 && count <= MaxCalls(k)
    requires inp.Wf() && inp.CanRead(c, Reads(k + 1, count))
    requires totals.Shaped(BlocksAt(k + 1)) && totals.Within(Entry(k))
    ensures next == c.Advance(Reads(k + 1, count))
    ensures sums.Shaped(BlocksAt(k + 1)) && sums.Within(Entry(k) + Bound(k + 1, count))
    ensures sums.Within(Capacity(Width(k + 1)))
    ensures sums.Total() == totals.Total().Plus(inp.Window(c, Reads(k + 1, count)))
  {
    next, sums := c, totals;
    ProgressStart(inp, k, c, totals);
    var done: nat := 0;
    while done < count
      invariant done <= count
      invariant Progress(inp, k, c, totals.Total(), done, next, sums)
    {
      ReadsGrow(k + 1, done + 1, count);
      next, sums := DriverCall(inp, k, c, totals.Total(), done, next, sums);
      done := done + 1;
    }
    ProgressDone(inp, k, c, totals.Total(), count, next, sums);
  }

  /** The state of a driver loop after done calls of level k from c on. */
  predicate Progress(inp: Inputs, k: nat, c: Cursors, before: Counts, done: nat, next: Cursors, sums: Sums)
    requires 1 <= k <= 3
  {
    && next == c.Advance(Reads(k + 1, done))
    && sums.Shaped(BlocksAt(k + 1)) && sums.Within(Entry(k) + Bound(k + 1, done))
    && sums.Total() == before.Plus(inp.Window(c, Reads(k + 1, done)))
  }

  /** Before the first call the totals are those the loop starts from. */
  lemma ProgressStart(inp: Inputs, k: nat, c: Cursors, totals: Sums)
    requires 1 <= k <= 3 && totals.Shaped(BlocksAt(k + 1)) && totals.Within(Entry(k))
    ensures Progress(inp, k, c, totals.Total(), 0, c, totals)
  {
    assert inp.Window(c, 0) == NoCounts;
    PlusNothing(totals.Total());
  }

  /** After all calls the totals still fit their width. */
  lemma ProgressDone(inp: Inputs, k: nat, c: Cursors, before: Counts, count: nat, next: Cursors, sums: Sums)
    requires 1 <= k <= 3 && count <= MaxCalls(k)
    requires Progress(inp, k, c, before, count, next, sums)
    ensures sums.Within(Capacity(Width(k + 1)))
  {
    DriverFits(k, count);
    sums.WithinWeaken(Entry(k) + Bound(k + 1, count), Capacity(Width(k + 1)));
  }

  /** One call of level k in a driver loop, its result converted and added
      into the totals. */
  method DriverCall(inp: Inputs, k: nat, c: Cursors, ghost before: Counts, done: nat, next: Cursors, sums: Sums)
      returns (after: Cursors, grown: Sums)
    requires 1 <= k <= 3 && inp.Wf() && inp.CanRead(c, Reads(k + 1, done + 1))
    requires Progress(inp, k, c, before, done, next, sums)
    ensures Progress(inp, k, c, before, done + 1, after, grown)
  {
    var step := Level(inp, k, next);
    DriverStep(inp, k, c, before, done, next, sums, step);
    after, grown := step.next, sums.AccumulateAll(step.sums);
  }

  /** One turn of a driver loop: the level's result, converted and added,
      extends the totals by the registers it read. */
  lemma DriverStep(inp: Inputs, k: nat, c: Cursors, before: Counts, done: nat, next: Cursors, sums: Sums, step: Step)
    requires 1 <= k <= 3 && inp.Wf()
    requires next == c.Advance(Reads(k + 1, done))
    requires sums.Shaped(BlocksAt(k + 1)) && sums.Within(Entry(k) + Bound(k + 1, done))
    requires sums.Total() == before.Plus(inp.Window(c, Reads(k + 1, done)))
    requires step.next == next.Advance(Span(k))
    requires step.sums.Shaped(BlocksAt(k)) && step.sums.Within(Cap(k))
    requires step.sums.Total() == inp.Window(next, Span(k))
    ensures sums.Shaped(|sums.ts|) && step.sums.Shaped(2 * |sums.ts|)
    ensures step.next == c.Advance(Reads(k + 1, done + 1))
    ensures sums.AccumulateAll(step.sums).Shaped(BlocksAt(k + 1))
    ensures sums.AccumulateAll(step.sums).Within(Entry(k) + Bound(k + 1, done + 1))
    ensures sums.AccumulateAll(step.sums).Total() == before.Plus(inp.Window(c, Reads(k + 1, done + 1)))
  {
    BlocksHalve(k + 1);
    inp.WindowSplit(c, Reads(k + 1, done), Span(k), Reads(k + 1, done + 1));
    PlusAssociative(before, inp.Window(c, Reads(k + 1, done)), inp.Window(next, Span(k)));
    sums.AccumulateWithin(step.sums, Entry(k) + Bound(k + 1, done), Cap(k));
  }

  /** The 32-bit lanes of the three totals hold the counts c modulo 2^32. */
  predicate Holds(lanes: Sums, c: Counts)
  {
    && lanes.Shaped(LaneCount)
    && InLanes(lanes.ts) && InLanes(lanes.tv) && InLanes(lanes.del)
    && Sum(lanes.ts) % LaneModulus == c.transitions % LaneModulus
    && Sum(lanes.tv) % LaneModulus == c.transversions % LaneModulus
    && Sum(lanes.del) % LaneModulus == c.unknown % LaneModulus
  }

  /** The three totals as 32-bit lanes. */
  function WrapAll(s: Sums): Sums
  {
    Sums(Wrap(s.ts), Wrap(s.tv), Wrap(s.del))
  }

  /** Lanes that wrap exact totals hold their counts modulo 2^32. */
  lemma WrapHolds(exact: Sums)
    requires exact.Shaped(LaneCount)
    ensures Holds(WrapAll(exact), exact.Total())
  {
    SumWrap(exact.ts);
    SumWrap(exact.tv);
    SumWrap(exact.del);
  }

  /** SUM_WITH_PREVIOUS_LEVEL_IMMEDIATEBYTESHIFT at width 32: the converted
      16-bit blocks added into the lanes, with wrap-around. */
  function AccumulateLanes(lanes: Sums, x: Sums): (r: Sums)
    requires lanes.Shaped(LaneCount) && x.Shaped(2 * LaneCount)
    ensures r.Shaped(LaneCount) && InLanes(r.ts) && InLanes(r.tv) && InLanes(r.del)
    ensures forall i :: 0 <= i < LaneCount ==> r.ts[i] == (lanes.ts[i] + x.ts[2 * i] + x.ts[2 * i + 1]) % LaneModulus
    ensures forall i :: 0 <= i < LaneCount ==> r.tv[i] == (lanes.tv[i] + x.tv[2 * i] + x.tv[2 * i + 1]) % LaneModulus
    ensures forall i :: 0 <= i < LaneCount ==> r.del[i] == (lanes.del[i] + x.del[2 * i] + x.del[2 * i + 1]) % LaneModulus
  {
    Sums(AddLanes(lanes.ts, Convert(x.ts)), AddLanes(lanes.tv, Convert(x.tv)),
         AddLanes(lanes.del, Convert(x.del)))
  }

  /** Adding into the lanes wraps the exact accumulation: the lanes lose
      nothing but multiples of 2^32. */
  lemma AccumulateLanesWrap(exact: Sums, x: Sums)
    requires exact.Shaped(LaneCount) && x.Shaped(2 * LaneCount) && x.Within(65535)
    ensures AccumulateLanes(WrapAll(exact), x) == WrapAll(exact.AccumulateAll(x))
  {
    LaneWrap(exact.ts, x.ts);
    LaneWrap(exact.tv, x.tv);
    LaneWrap(exact.del, x.del);
  }

  lemma LaneWrap(a: seq<nat>, x: seq<nat>)
    requires |x| == 2 * |a| && Bounded(x, 65535)
    ensures AddLanes(Wrap(a), Convert(x)) == Wrap(Accumulate(a, x))
  {
    var y := Convert(x);
    assert InLanes(y);
    WrapInLanes(y);
    AddLanesWrap(a, y);
  }

  /** One turn of the width-32 loop: the lanes keep wrapping the exact
      totals, which grow by the registers level 4 read. */
  lemma WideStep(inp: Inputs, c: Cursors, before: Counts, done: nat, next: Cursors, sums: Sums, step: Step)
    requires inp.Wf()
    requires next == c.Advance(Reads(5, done))
    requires sums.Shaped(LaneCount)
    requires sums.Total() == before.Plus(inp.Window(c, Reads(5, done)))
    requires step.next == next.Advance(Span(4))
    requires step.sums.Shaped(BlocksAt(4)) && step.sums.Within(Capacity(Width(4)))
    requires step.sums.Total() == inp.Window(next, Span(4))
    ensures step.sums.Shaped(2 * LaneCount)
    ensures step.next == c.Advance(Reads(5, done + 1))
    ensures sums.AccumulateAll(step.sums).Shaped(LaneCount)
    ensures AccumulateLanes(WrapAll(sums), step.sums) == WrapAll(sums.AccumulateAll(step.sums))
    ensures sums.AccumulateAll(step.sums).Total() == before.Plus(inp.Window(c, Reads(5, done + 1)))
  {
    WindowStep(inp, c, before, Reads(5, done), Span(4), Reads(5, done + 1));
    WidthValues();
    AccumulateLanesWrap(sums, step.sums);
  }

  /** Counts before a window of m registers, then n more: the window of
      m + n registers. */
  lemma WindowStep(inp: Inputs, c: Cursors, before: Counts, m: nat, n: nat, t: nat)
    requires t == m + n
    ensures before.Plus(inp.Window(c, m)).Plus(inp.Window(c.Advance(m), n)) == before.Plus(inp.Window(c, t))
  {
    inp.WindowSplit(c, m, n, t);
    PlusAssociative(before, inp.Window(c, m), inp.Window(c.Advance(m), n));
  }

  /** The loop over level 4 at width 32: count calls, each result converted
      and added into the lanes. The number of calls is bounded only by the
      input, so the lanes wrap around. */
  method WideLoop(inp: Inputs, count: nat, c: Cursors, lanes: Sums, ghost exact: Sums)
      returns (next: Cursors, out: Sums)
    requires inp.Wf() && inp.CanRead(c, Reads(5, count))
    requires exact.Shaped(LaneCount) && lanes == WrapAll(exact)
    ensures next == c.Advance(Reads(5, count))
    ensures Holds(out, exact.Total().Plus(inp.Window(c, Reads(5, count))))
  {
    BlocksHalve(5);
    next, out := c, lanes;
    ghost var sums := exact;
    assert inp.Window(c, 0) == NoCounts;
    PlusNothing(exact.Total());
    var done: nat := 0;
    while done < count
      invariant done <= count
      invariant next == c.Advance(Reads(5, done))
      invariant sums.Shaped(LaneCount) && out == WrapAll(sums)
      invariant sums.Total() == exact.Total().Plus(inp.Window(c, Reads(5, done)))
    {
      ReadsGrow(5, done + 1, count);
      next, out, sums := WideCall(inp, c, exact.Total(), done, next, out, sums);
      done := done + 1;
    }
    WrapHolds(sums);
  }

  /** One call of level 4 in the width-32 loop, its result converted and
      added into the lanes. */
  method WideCall(inp: Inputs, c: Cursors, ghost before: Counts, done: nat, next: Cursors, out: Sums, ghost sums: Sums)
      returns (after: Cursors, lanes: Sums, ghost grown: Sums)
    requires inp.Wf() && inp.CanRead(c, Reads(5, done + 1))
    requires next == c.Advance(Reads(5, done))
    requires sums.Shaped(LaneCount) && out == WrapAll(sums)
    requires sums.Total() == before.Plus(inp.Window(c, Reads(5, done)))
    ensures after == c.Advance(Reads(5, done + 1))
    ensures grown.Shaped(LaneCount) && lanes == WrapAll(grown)
    ensures grown.Total() == before.Plus(inp.Window(c, Reads(5, done + 1)))
  {
    var step := Level(inp, 4, next);
    WideStep(inp, c, before, done, next, sums, step);
    after, lanes := step.next, AccumulateLanes(out, step.sums);
    grown := sums.AccumulateAll(step.sums);
  }

  /** The horizontal reduction of the three totals: lane 0 of each. */
  function Combine(lanes: Sums): (d: Distance)
    requires lanes.Shaped(LaneCount)
    requires InLanes(lanes.ts) && InLanes(lanes.tv) && InLanes(lanes.del)
    ensures forall c :: Holds(lanes, c) ==> d == Reported(c)
  {
    var ts, tv, del := HorizontalSum(lanes.ts), HorizontalSum(lanes.tv), HorizontalSum(lanes.del);
    assert lanes.ts[0..] == lanes.ts && lanes.tv[0..] == lanes.tv && lanes.del[0..] == lanes.del;
    Distance(del[0], ts[0], tv[0])
  }

  /** computeDistance: the counts of the naive per-position comparison of
      the two sequences, each modulo 2^32; a length mismatch is refused. */
  method ComputeDistance(s1: PackedSeq, s2: PackedSeq) returns (r: DistanceResult)
    requires s1.Valid() && s2.Valid()
    ensures r.LengthMismatch? <==> s1.numChars != s2.numChars
    ensures r == Reference(s1, s2)
  {
    if s1.numChars != s2.numChars {
      return LengthMismatch(s1.numChars, s2.numChars);
    }
    var inp := Inputs(s1.data, s2.data, s1.unknown, s2.unknown);
    var n := s1.NumUsedDatas();
    var plan := Schedule(n);
    PlanReads(plan);
    var c, lanes := Narrow(inp, plan);

    // Level 4 into the 32-bit lanes, then the horizontal reduction.
    var out;
    c, out := WideLoop(inp, plan.level4, c, lanes, lanes);
    Finish(s1, s2, inp, plan.Narrowed(), Reads(5, plan.level4), out);
    r := Ok(Combine(out));
  }

  /** The driver up to its loop over level 4: the remainder, then the
      stages over levels 1, 2 and 3, whose totals end as 32-bit lanes. */
  method Narrow(inp: Inputs, plan: Plan) returns (c: Cursors, lanes: Sums)
    requires inp.Wf() && plan.Reduced() && inp.CanRead(Aligned(0), plan.Narrowed())
    ensures c == Aligned(0).Advance(plan.Narrowed())
    ensures lanes.Shaped(LaneCount) && lanes == WrapAll(lanes)
    ensures lanes.Total() == inp.Window(Aligned(0), plan.Narrowed())
  {
    var start := Aligned(0);
    PlanReads(plan);

    // The remaining registers, into 2-bit totals, then widened to 4 bits.
    var head := Remainder(inp, plan.rest, start);
    HeadFits(inp, plan.rest, start, head);

    // Levels 1, 2 and 3 into totals of 4, 8 and 16 bits, each widened.
    var totals := head.sums.ConvertAll();
    c := head.next;
    var k := 1;
    while k <= 3
      invariant 1 <= k <= 4
      invariant Entering(inp, k, start, plan.Before(k), c, totals)
    {
      PlanStage(plan, k);
      c, totals := Stage(inp, k, plan.CallsOf(k), start, plan.Before(k), plan.Before(k + 1), c, totals);
      k := k + 1;
    }
    BoundedInLanes(totals, Entry(4));
    lanes := totals;
  }

  /** One of the driver's stages at widths 4, 8 and 16: the loop over level
      k, then CONVERT_SUM into the totals of the next stage. The totals count
      the window from start to the cursors. */
  method Stage(inp: Inputs, k: nat, count: nat, start: Cursors, ghost done: nat, ghost upto: nat, c: Cursors, totals: Sums)
      returns (next: Cursors, wider: Sums)
    requires 1 <= k <= 3 && count <= MaxCalls(k) && upto == done + Reads(k + 1, count)
    requires inp.Wf() && inp.CanRead(start, upto)
    requires Entering(inp, k, start, done, c, totals)
    ensures Entering(inp, k + 1, start, upto, next, wider)
  {
    var sums;
    next, sums := DriverLoop(inp, k, count, c, totals);
    StageDone(inp, k, count, start, done, upto, totals.Total(), sums);
    wider := sums.ConvertAll();
  }

  /** The totals after a stage's loop, widened, fit the next stage and count
      every register up to the cursors. */
  lemma StageDone(inp: Inputs, k: nat, count: nat, start: Cursors, done: nat, upto: nat, before: Counts, sums: Sums)
    requires 1 <= k <= 3 && count <= MaxCalls(k) && upto == done + Reads(k + 1, count)
    requires before == inp.Window(start, done)
    requires sums.Shaped(BlocksAt(k + 1)) && sums.Within(Entry(k) + Bound(k + 1, count))
    requires sums.Total() == before.Plus(inp.Window(start.Advance(done), Reads(k + 1, count)))
    ensures sums.Shaped(|sums.ts|) && |sums.ts| % 2 == 0
    ensures sums.ConvertAll().Shaped(BlocksAt(k + 2))
    ensures sums.ConvertAll().Within(Entry(k + 1))
    ensures sums.ConvertAll().Total() == inp.Window(start, upto)
  {
    BlocksHalve(k + 2);
    DriverFits(k, count);
    sums.ConvertWithin(Entry(k) + Bound(k + 1, count));
    sums.ConvertAll().WithinWeaken(2 * (Entry(k) + Bound(k + 1, count)), Entry(k + 1));
    StageTotal(inp, start, done, Reads(k + 1, count), upto, before, sums);
  }

  /** Totals of the window up to done, extended by the next m registers and
      widened, count the window up to done + m. */
  lemma StageTotal(inp: Inputs, start: Cursors, done: nat, m: nat, upto: nat, before: Counts, sums: Sums)
    requires upto == done + m && sums.Shaped(|sums.ts|) && |sums.ts| % 2 == 0
    requires before == inp.Window(start, done)
    requires sums.Total() == before.Plus(inp.Window(start.Advance(done), m))
    ensures sums.ConvertAll().Total() == inp.Window(start, upto)
  {
    inp.WindowSplit(start, done, m, upto);
  }

  /** Lanes that hold the counts of all registers in use reduce to the
      reference distance. */
  lemma Finish(s1: PackedSeq, s2: PackedSeq, inp: Inputs, done: nat, last: nat, out: Sums)
    requires s1.Valid() && s2.Valid() && s1.numChars == s2.numChars
    requires inp == Inputs(s1.data, s2.data, s1.unknown, s2.unknown)
    requires done + last == s1.NumUsedDatas()
    requires Holds(out, inp.Window(Aligned(0), done).Plus(inp.Window(Aligned(0).Advance(done), last)))
    ensures InLanes(out.ts) && InLanes(out.tv) && InLanes(out.del)
    ensures Reference(s1, s2) == Ok(Combine(out))
  {
    var n := s1.NumUsedDatas();
    inp.WindowSplit(Aligned(0), done, last, n);
    inp.WindowNaive(n);
    assert s1.data[..n] == s1.data && s2.data[..n] == s2.data;
    assert s1.unknown[..n] == s1.unknown && s2.unknown[..n] == s2.unknown;
    SameRegisters(s1, s2);
    RegisterCountsMeaning(s1.Positions(), s2.Positions(), s1.Masks(), s2.Masks());
  }

  /** Blocks below 2^32 fit the lanes unchanged. */
  lemma BoundedInLanes(lanes: Sums, cap: nat)
    requires lanes.Within(cap) && cap < LaneModulus
    ensures lanes == WrapAll(lanes)
  {
    assert InLanes(lanes.ts) && InLanes(lanes.tv) && InLanes(lanes.del);
    WrapInLanes(lanes.ts);
    WrapInLanes(lanes.tv);
    WrapInLanes(lanes.del);
  }
}
