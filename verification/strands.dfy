/** The packed data one distance computation reads, and the cursors into it.

    DNA_b128_String::computeDistance keeps four process-wide pointers (into
    the data and the unknown mask of each sequence) that every level
    advances. Here they are a value, Cursors, passed into each level and
    handed back advanced. */
module Strands {
  import opened Codes
  import opened Blocks
  import opened Classify

  /** A 128-bit symbol or mask register holds 64 blocks of 2 bits: 128 / 2. */
  const SymbolsPerRegister: nat := 64

  datatype Cursors = Cursors(ptr1: nat, ptr2: nat, delPtr1: nat, delPtr2: nat)
  {
    /** Every cursor moved n registers ahead. */
    function Advance(n: nat): Cursors
    {
      Cursors(ptr1 + n, ptr2 + n, delPtr1 + n, delPtr2 + n)
    }
  }

  /** All four cursors at register k. */
  function Aligned(k: nat): Cursors
  {
    Cursors(k, k, k, k)
  }

  /** f summed over the n register positions from c on. */
  function SumFrom(f: Cursors -> Counts, c: Cursors, n: nat): Counts
    decreases n
  {
    if n == 0 then NoCounts else f(c).Plus(SumFrom(f, c.Advance(1), n - 1))
  }

  lemma {:induction false} SumFromSplit(f: Cursors -> Counts, c: Cursors, m: nat, n: nat)
    ensures SumFrom(f, c, m + n) == SumFrom(f, c, m).Plus(SumFrom(f, c.Advance(m), n))
    decreases m
  {
    if m == 0 {
      assert c.Advance(0) == c;
      PlusNothing'(SumFrom(f, c, n));
    } else {
      var c1 := c.Advance(1);
      SumFromSplit(f, c1, m - 1, n);
      assert c1.Advance(m - 1) == c.Advance(m);
      PlusAssociative(f(c), SumFrom(f, c1, m - 1), SumFrom(f, c.Advance(m), n));
    }
  }

  /** The blocks of consecutive registers, one after the other: the
      positions of a sequence in order. */
  function Flatten(rs: seq<seq<Code>>): (f: seq<Code>)
    ensures (forall i :: 0 <= i < |rs| ==> |rs[i]| == SymbolsPerRegister) ==> |f| == SymbolsPerRegister * |rs|
    ensures (forall i :: 0 <= i < |rs| ==> AllValid(rs[i])) ==> AllValid(f)
  {
    if |rs| == 0 then [] else Flatten(rs[..|rs| - 1]) + rs[|rs| - 1]
  }

  /** The positions of the first k + 1 registers: those of the first k, then
      register k. */
  lemma FlattenStep(rs: seq<seq<Code>>, k: nat)
    requires k < |rs|
    ensures Flatten(rs[..k + 1]) == Flatten(rs[..k]) + rs[k]
  {
    assert rs[..k + 1][..k] == rs[..k];
  }

  /** The data and unknown-mask registers of the two compared sequences. */
  datatype Inputs = Inputs(data1: seq<seq<Code>>, data2: seq<seq<Code>>,
                         unknown1: seq<seq<Code>>, unknown2: seq<seq<Code>>)
  {
    /** Every register has 64 blocks. */
    predicate Wf()
    {
      && (forall i :: 0 <= i < |data1| ==> |data1[i]| == SymbolsPerRegister)
      && (forall i :: 0 <= i < |data2| ==> |data2[i]| == SymbolsPerRegister)
      && (forall i :: 0 <= i < |unknown1| ==> |unknown1[i]| == SymbolsPerRegister)
      && (forall i :: 0 <= i < |unknown2| ==> |unknown2[i]| == SymbolsPerRegister)
    }

    /** n registers can be read from every cursor of c. */
    predicate CanRead(c: Cursors, n: nat)
    {
      && c.ptr1 + n <= |data1|
      && c.ptr2 + n <= |data2|
      && c.delPtr1 + n <= |unknown1|
      && c.delPtr2 + n <= |unknown2|
    }

    /** The level-1 vector work on the register under the cursors. */
    function ClassifyAt(c: Cursors): (r: Sums)
      requires Wf() && CanRead(c, 1)
      ensures r.Shaped(SymbolsPerRegister) && r.Within(1)
      ensures r.Total() == RegisterAt(c)
    {
      var a, b := data1[c.ptr1], data2[c.ptr2];
      var ma, mb := unknown1[c.delPtr1], unknown2[c.delPtr2];
      ClassifyRegisterTotal(a, b, ma, mb);
      ClassifyRegister(a, b, ma, mb)
    }

    /** The naive count of the register under the cursors. */
    function RegisterAt(c: Cursors): Counts
      requires Wf() && CanRead(c, 1)
    {
      RegisterCounts(data1[c.ptr1], data2[c.ptr2], unknown1[c.delPtr1], unknown2[c.delPtr2])
    }

    /** RegisterAt as a total function of the cursors. */
    function Tally(): Cursors -> Counts
    {
      c => if Wf() && CanRead(c, 1) then RegisterAt(c) else NoCounts
    }

    /** The naive per-position count over the n registers from the cursors
        on: the reference every level is compared with. */
    function Window(c: Cursors, n: nat): Counts
    {
      SumFrom(Tally(), c, n)
    }

    /** A window is the window of its first m registers followed by the
        window of the rest. */
    lemma WindowSplit(c: Cursors, m: nat, n: nat, t: nat)
      requires t == m + n
      ensures Window(c, t) == Window(c, m).Plus(Window(c.Advance(m), n))
    {
      SumFromSplit(Tally(), c, m, n);
    }

    /** A window of three registers, as level 1 reads it. */
    lemma WindowThree(c: Cursors)
      requires Wf() && CanRead(c, 3)
      ensures Window(c, 3) == RegisterAt(c).Plus(RegisterAt(c.Advance(1))).Plus(RegisterAt(c.Advance(2)))
    {
      var c1, c2 := c.Advance(1), c.Advance(2);
      WindowFirst(c, 2);
      WindowFirst(c1, 1);
      WindowFirst(c2, 0);
      assert c1.Advance(1) == c2;
      assert Window(c2.Advance(1), 0) == NoCounts;
      PlusNothing(RegisterAt(c2));
      PlusAssociative(RegisterAt(c), RegisterAt(c1), RegisterAt(c2));
    }

    /** A window of one register is that register's count. */
    lemma WindowOne(c: Cursors)
      requires Wf() && CanRead(c, 1)
      ensures Window(c, 1) == RegisterAt(c)
    {
      WindowFirst(c, 0);
      PlusNothing(RegisterAt(c));
    }

    /** The first k registers of each of the four strands hold the same
        number of positions. */
    lemma PrefixesAlike(k: nat)
      requires Wf() && CanRead(Aligned(0), k)
      ensures SameLength(Flatten(data1[..k]), Flatten(data2[..k]), Flatten(unknown1[..k]), Flatten(unknown2[..k]))
      ensures |Flatten(data1[..k])| == SymbolsPerRegister * k
    {
      assert forall i :: 0 <= i < k ==> data1[..k][i] == data1[i] && data2[..k][i] == data2[i];
      assert forall i :: 0 <= i < k ==> unknown1[..k][i] == unknown1[i] && unknown2[..k][i] == unknown2[i];
    }

    /** The window over the first k registers is the naive loop over all
        their positions, taken in order. */
    lemma {:induction false} WindowNaive(k: nat)
      requires Wf() && CanRead(Aligned(0), k)
      ensures SameLength(Flatten(data1[..k]), Flatten(data2[..k]), Flatten(unknown1[..k]), Flatten(unknown2[..k]))
      ensures Window(Aligned(0), k)
              == RegisterCounts(Flatten(data1[..k]), Flatten(data2[..k]), Flatten(unknown1[..k]), Flatten(unknown2[..k]))
    {
      PrefixesAlike(k);
      if k > 0 {
        var j := k - 1;
        WindowNaive(j);
        var a, b := Flatten(data1[..j]), Flatten(data2[..j]);
        var ma, mb := Flatten(unknown1[..j]), Flatten(unknown2[..j]);
        FlattenStep(data1, j);
        FlattenStep(data2, j);
        FlattenStep(unknown1, j);
        FlattenStep(unknown2, j);
        WindowSplit(Aligned(0), j, 1, k);
        assert Aligned(0).Advance(j) == Aligned(j);
        WindowOne(Aligned(j));
        RegisterCountsAppend(a, b, ma, mb, data1[j], data2[j], unknown1[j], unknown2[j]);
      }
    }

    /** The first register of a window, split off. */
    lemma WindowFirst(c: Cursors, n: nat)
      requires Wf() && CanRead(c, n + 1)
      ensures Window(c, n + 1) == RegisterAt(c).Plus(Window(c.Advance(1), n))
    {
    }
  }
}
