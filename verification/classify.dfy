/** Classification of aligned positions.

    One position compares a 2-bit code of each sequence, under the two
    unknown masks. The vector code works on a whole register of 64 positions
    at once with bitwise operations that never mix blocks; here that is one
    function per block (BlockCounts) and its block-wise lifting to a register
    (ClassifyRegister). RegisterCounts is the naive per-position loop the
    lifting is compared with, and RegisterMeaning the same loop stated over
    bases instead of bits. */
module Classify {
  import opened Codes
  import opened Blocks

  /** A mask block is 11 for a position to disregard and 00 otherwise. */
  predicate ValidMask(m: Code)
  {
    m == 0 || m == 3
  }

  predicate AllValid(ms: seq<Code>)
  {
    forall i :: 0 <= i < |ms| ==> ValidMask(ms[i])
  }

  /** The counts one position contributes, stated over bases: an unknown
      position counts once as unknown and never as a change; otherwise the
      change between the two bases is counted. */
  function Expected(x: Base, y: Base, unknown: bool): Counts
  {
    if unknown then Counts(0, 0, 1)
    else
      match ChangeOf(x, y)
      case Same => NoCounts
      case Transition => Counts(1, 0, 0)
      case Transversion => Counts(0, 1, 0)
  }

  /** The bit operations of one 2-bit block: del = m1 | m2,
      diff = ~del & (a ^ b), tv = high bit of diff, ts = low bit of diff
      and not tv, unknown = low bit of del. */
  function BlockCounts(a: Code, b: Code, ma: Code, mb: Code): (c: Counts)
    ensures c.transitions + c.transversions <= 1 && c.unknown <= 1
    ensures ma | mb == 3 ==> c == Counts(0, 0, 1)
    ensures ma | mb == 0 ==> (c.transversions == 1 <==> (a ^ b) >> 1 == 1)
    ensures ma | mb == 0 ==> (c.transitions == 1 <==> a ^ b == 1)
    ensures ValidMask(ma) && ValidMask(mb) ==>
              c == Expected(Decode(a), Decode(b), ma == 3 || mb == 3)
  {
    var del := ma | mb;
    var diff := !del & (a ^ b);
    var tv := (diff >> 1) & 1;
    var ts := !tv & (diff & 1);
    Counts(ts as nat, tv as nat, (del & 1) as nat)
  }

  /** Exclusive or and or commute, so swapping the two sequences changes
      nothing. */
  lemma BlockCountsSymmetric(a: Code, b: Code, ma: Code, mb: Code)
    ensures BlockCounts(a, b, ma, mb) == BlockCounts(b, a, mb, ma)
  {
  }

  predicate SameLength(a: seq<Code>, b: seq<Code>, ma: seq<Code>, mb: seq<Code>)
  {
    |a| == |b| == |ma| == |mb|
  }

  /** The counts of each position of a stretch, classified one block at a
      time. */
  function Lift(a: seq<Code>, b: seq<Code>, ma: seq<Code>, mb: seq<Code>): (cs: seq<Counts>)
    requires SameLength(a, b, ma, mb)
    ensures |cs| == |a|
    ensures forall i :: 0 <= i < |a| ==> cs[i] == BlockCounts(a[i], b[i], ma[i], mb[i])
  {
    seq(|a|, i requires 0 <= i < |a| => BlockCounts(a[i], b[i], ma[i], mb[i]))
  }

  /** The counts of a run of positions, added up in order. */
  function TotalOf(cs: seq<Counts>): Counts
  {
    if |cs| == 0 then NoCounts else TotalOf(cs[..|cs| - 1]).Plus(cs[|cs| - 1])
  }

  lemma {:induction false} TotalOfAppend(x: seq<Counts>, y: seq<Counts>)
    ensures TotalOf(x + y) == TotalOf(x).Plus(TotalOf(y))
    decreases |y|
  {
    if |y| == 0 {
      assert x + y == x;
      PlusNothing(TotalOf(x));
    } else {
      var y' := y[..|y| - 1];
      assert (x + y)[..|x + y| - 1] == x + y';
      TotalOfAppend(x, y');
      PlusAssociative(TotalOf(x), TotalOf(y'), y[|y| - 1]);
    }
  }

  /** When every position counts at most one change and at most one unknown,
      a run of n positions counts at most n of each; and at most n in all
      when no position counts twice. */
  lemma {:induction false} TotalOfBound(cs: seq<Counts>)
    requires forall i :: 0 <= i < |cs| ==> cs[i].transitions + cs[i].transversions <= 1 && cs[i].unknown <= 1
    ensures TotalOf(cs).transitions + TotalOf(cs).transversions <= |cs| && TotalOf(cs).unknown <= |cs|
    ensures (forall i :: 0 <= i < |cs| ==> cs[i].Classified() <= 1) ==> TotalOf(cs).Classified() <= |cs|
  {
    if |cs| > 0 {
      var cs' := cs[..|cs| - 1];
      assert forall i :: 0 <= i < |cs'| ==> cs'[i] == cs[i];
      TotalOfBound(cs');
    }
  }

  /** Under well-formed masks a position counts once at most. */
  lemma LiftClassifiesOnce(a: seq<Code>, b: seq<Code>, ma: seq<Code>, mb: seq<Code>)
    requires SameLength(a, b, ma, mb) && AllValid(ma) && AllValid(mb)
    ensures forall i :: 0 <= i < |a| ==> Lift(a, b, ma, mb)[i].Classified() <= 1
  {
    forall i | 0 <= i < |a|
      ensures Lift(a, b, ma, mb)[i].Classified() <= 1
    {
      assert ValidMask(ma[i]) && ValidMask(mb[i]);
    }
  }

  /** The naive loop: the counts of every position of a stretch. */
  function RegisterCounts(a: seq<Code>, b: seq<Code>, ma: seq<Code>, mb: seq<Code>): (c: Counts)
    requires SameLength(a, b, ma, mb)
    ensures c.transitions + c.transversions <= |a| && c.unknown <= |a|
    ensures AllValid(ma) && AllValid(mb) ==> c.Classified() <= |a|
  {
    var cs := Lift(a, b, ma, mb);
    TotalOfBound(cs);
    if AllValid(ma) && AllValid(mb) then
      LiftClassifiesOnce(a, b, ma, mb);
      TotalOf(cs)
    else
      TotalOf(cs)
  }

  /** What each position of a stretch should count, stated over bases. */
  function Meanings(a: seq<Code>, b: seq<Code>, ma: seq<Code>, mb: seq<Code>): (cs: seq<Counts>)
    requires SameLength(a, b, ma, mb)
    ensures |cs| == |a|
  {
    seq(|a|, i requires 0 <= i < |a| => Expected(Decode(a[i]), Decode(b[i]), ma[i] == 3 || mb[i] == 3))
  }

  /** What the whole stretch should count. */
  function RegisterMeaning(a: seq<Code>, b: seq<Code>, ma: seq<Code>, mb: seq<Code>): Counts
    requires SameLength(a, b, ma, mb)
  {
    TotalOf(Meanings(a, b, ma, mb))
  }

  /** The naive loop over two stretches of positions is the sum of the loops
      over each. */
  lemma RegisterCountsAppend(a: seq<Code>, b: seq<Code>, ma: seq<Code>, mb: seq<Code>,
                             a': seq<Code>, b': seq<Code>, ma': seq<Code>, mb': seq<Code>)
    requires SameLength(a, b, ma, mb) && SameLength(a', b', ma', mb')
    ensures RegisterCounts(a + a', b + b', ma + ma', mb + mb')
            == RegisterCounts(a, b, ma, mb).Plus(RegisterCounts(a', b', ma', mb'))
  {
    var x, y := Lift(a, b, ma, mb), Lift(a', b', ma', mb');
    assert Lift(a + a', b + b', ma + ma', mb + mb') == x + y;
    TotalOfAppend(x, y);
  }

  /** Number of positions a mask marks unknown. */
  function UnknownIn(m: seq<Code>): (u: nat)
    ensures u <= |m|
  {
    if |m| == 0 then 0 else UnknownIn(m[..|m| - 1]) + (if m[|m| - 1] == 3 then 1 else 0)
  }

  /** With well-formed masks the bit-level loop counts what the codes mean. */
  lemma RegisterCountsMeaning(a: seq<Code>, b: seq<Code>, ma: seq<Code>, mb: seq<Code>)
    requires SameLength(a, b, ma, mb) && AllValid(ma) && AllValid(mb)
    ensures RegisterCounts(a, b, ma, mb) == RegisterMeaning(a, b, ma, mb)
  {
    forall i | 0 <= i < |a|
      ensures Lift(a, b, ma, mb)[i] == Meanings(a, b, ma, mb)[i]
    {
      assert ValidMask(ma[i]) && ValidMask(mb[i]);
    }
    assert Lift(a, b, ma, mb) == Meanings(a, b, ma, mb);
  }

  /** Swapping the two sequences changes no count. */
  lemma RegisterCountsSymmetric(a: seq<Code>, b: seq<Code>, ma: seq<Code>, mb: seq<Code>)
    requires SameLength(a, b, ma, mb)
    ensures RegisterCounts(a, b, ma, mb) == RegisterCounts(b, a, mb, ma)
  {
    forall i | 0 <= i < |a|
      ensures Lift(a, b, ma, mb)[i] == Lift(b, a, mb, ma)[i]
    {
      BlockCountsSymmetric(a[i], b[i], ma[i], mb[i]);
    }
    assert Lift(a, b, ma, mb) == Lift(b, a, mb, ma);
  }

  /** A stretch compared with itself has no change, and its unknown count is
      the number of positions its mask marks. */
  lemma {:induction false} RegisterCountsIdentity(a: seq<Code>, m: seq<Code>)
    requires |a| == |m| && AllValid(m)
    ensures RegisterCounts(a, a, m, m) == Counts(0, 0, UnknownIn(m))
  {
    if |a| > 0 {
      var n := |a| - 1;
      assert ValidMask(m[n]);
      assert Lift(a, a, m, m)[..n] == Lift(a[..n], a[..n], m[..n], m[..n]);
      RegisterCountsIdentity(a[..n], m[..n]);
    }
  }

  /** The block registers holding one field of a run of counts. */
  function TransitionsOf(cs: seq<Counts>): (r: seq<nat>)
    ensures |r| == |cs| && forall i :: 0 <= i < |cs| ==> r[i] == cs[i].transitions
  {
    seq(|cs|, i requires 0 <= i < |cs| => cs[i].transitions)
  }

  function TransversionsOf(cs: seq<Counts>): (r: seq<nat>)
    ensures |r| == |cs| && forall i :: 0 <= i < |cs| ==> r[i] == cs[i].transversions
  {
    seq(|cs|, i requires 0 <= i < |cs| => cs[i].transversions)
  }

  function UnknownsOf(cs: seq<Counts>): (r: seq<nat>)
    ensures |r| == |cs| && forall i :: 0 <= i < |cs| ==> r[i] == cs[i].unknown
  {
    seq(|cs|, i requires 0 <= i < |cs| => cs[i].unknown)
  }

  /** Adding up the counts of a run is adding up each field's blocks. */
  lemma {:induction false} TotalOfFields(cs: seq<Counts>)
    ensures TotalOf(cs) == Counts(Sum(TransitionsOf(cs)), Sum(TransversionsOf(cs)), Sum(UnknownsOf(cs)))
  {
    if |cs| > 0 {
      var cs' := cs[..|cs| - 1];
      assert TransitionsOf(cs)[..|cs'|] == TransitionsOf(cs');
      assert TransversionsOf(cs)[..|cs'|] == TransversionsOf(cs');
      assert UnknownsOf(cs)[..|cs'|] == UnknownsOf(cs');
      TotalOfFields(cs');
    }
  }

  /** One register's worth of level-1 work, as the vector code does it: every
      block classified at once, giving three registers of 2-bit blocks that
      each hold 0 or 1. */
  function ClassifyRegister(a: seq<Code>, b: seq<Code>, ma: seq<Code>, mb: seq<Code>): (r: Sums)
    requires SameLength(a, b, ma, mb)
    ensures r.Shaped(|a|) && r.Within(1)
    ensures forall i :: 0 <= i < |a| ==> r.ts[i] + r.tv[i] <= 1
  {
    var cs := Lift(a, b, ma, mb);
    Sums(TransitionsOf(cs), TransversionsOf(cs), UnknownsOf(cs))
  }

  /** The blocks of the classified register add up to the naive count. */
  lemma ClassifyRegisterTotal(a: seq<Code>, b: seq<Code>, ma: seq<Code>, mb: seq<Code>)
    requires SameLength(a, b, ma, mb)
    ensures ClassifyRegister(a, b, ma, mb).Total() == RegisterCounts(a, b, ma, mb)
  {
    TotalOfFields(Lift(a, b, ma, mb));
  }
}
