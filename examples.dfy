/** The sample inputs and answers that primseq.py lists for itself
    (primseq.py:33-45) and the examples in the docstring of `standard`,
    checked against the model.

    Each lemma takes its concrete list or string as a parameter fixed by a
    `requires` (`requires t == "00000"`) rather than writing the literal
    into its `ensures`: the verifier then unfolds the recursive functions
    one step at a time, as the intermediate assertions direct, instead of
    trying to evaluate them on the literal all at once, which is far more
    expensive. */
module Examples {
  import opened Tokens
  import opened Canonical
  import opened Ordinal

  /** A string handed to `primseq` directly: each character is an element. */
  function TextElems(s: string): (es: seq<Elem>)
    ensures |es| == |s| && forall k :: 0 <= k < |s| ==> es[k] == Str([s[k]])
  {
    seq(|s|, k requires 0 <= k < |s| => Str([s[k]]))
  }

  /** The values of the digits of a numeral, one by one. */
  function DigitValues(s: string): (xs: seq<int>)
    requires AllDigits(s)
    ensures |xs| == |s| && forall k :: 0 <= k < |s| ==> xs[k] == DigitValue(s[k])
  {
    seq(|s|, k requires 0 <= k < |s| => DigitValue(s[k]))
  }

  lemma ParseDigit(c: char)
    requires IsDigit(c)
    ensures ParseInt([c]) == Some(DigitValue(c))
  {
    assert [c][..0] == [];
    assert ValueOf([c]) == DigitValue(c);
    assert ParseNat([c]) == Some(DigitValue(c));
  }

  /** A string of digits passes validation, each character read as its
      digit. */
  lemma {:induction false} CheckDigits(s: string)
    requires AllDigits(s)
    ensures Check(TextElems(s)) == Numbers(DigitValues(s))
  {
    if s != [] {
      ParseDigit(s[0]);
      CheckDigits(s[1..]);
      assert TextElems(s)[1..] == TextElems(s[1..]);
      assert DigitValues(s) == [DigitValue(s[0])] + DigitValues(s[1..]);
    }
  }

  /** A non-empty numeral given to `primseq` as a string is decomposed
      as the list of its digits. */
  lemma DigitsOutcome(s: string)
    requires s != [] && AllDigits(s)
    ensures PrimSeq(TextElems(s)) == Decompose(DigitValues(s))
  {
    CheckDigits(s);
  }

  lemma EmptyExample()
    ensures PrimSeq(TextElems("")) == "Empty sequence"
  {
  }

  /** `00000` is `5`. */
  lemma FiniteExample(t: string)
    requires t == "00000"
    ensures PrimSeq(TextElems(t)) == "5"
  {
    var xs := DigitValues(t);
    DigitsOutcome(t);
    assert IsConstant(xs);
    ConstantIsFinite(xs);
    assert NatToString(5) == "5";
  }

  /** Every list that standardises to `0, 1, 2` is `w^w`. */
  lemma OmegaOmegaOrdinal(xs: seq<int>, n: nat)
    requires n == 3 && |xs| > 0 && StandardForm(xs) == Iota(n)
    ensures Decompose(xs) == "w^w"
  {
    IotaIsStandard(n);
    assert Decompose(xs) == Decompose(Iota(n));
    IotaOrdinal(n);
    OmegaSteps();
  }

  /** The first two climb steps from `1`: `w`, then `w^w`. */
  lemma OmegaSteps()
    ensures OmegaTo("1") == "w"
    ensures Climb(2, "1") == "w^w"
  {
    assert "w^" + "w" == "w^w";
  }

  /** `012` is `w^w`. */
  lemma TowerExample(t: string)
    requires t == "012"
    ensures PrimSeq(TextElems(t)) == "w^w"
  {
    var xs := DigitValues(t);
    DigitsOutcome(t);
    assert xs == Iota(3);
    IotaIsStandard(3);
    OmegaOmegaOrdinal(xs, 3);
  }

  /** `[1, 2, 3]` and `[0, 2, 4]` both standardise to `[0, 1, 2]`
      (primseq.py:194-195). */
  lemma StandardExamples(x: seq<int>)
    requires x == [1, 2, 3] || x == [0, 2, 4]
    ensures StandardForm(x) == [0, 1, 2]
  {
    assert Increasing(x);
    IncreasingIsStandard(x);
    assert Iota(3) == [0, 1, 2];
  }

  /** Pass B on `0, 1, 0, 1, 2` moves left from the end: no equal pair is
      absorbed, and nothing falls before position 2. */
  lemma DominatedScan(a: seq<int>)
    requires a == [0, 1, 0, 1, 2]
    ensures Grounded(a) && BelowIndex(a, 3)
    ensures Collapse(a, 4, 5) == Dominate(a, 2, 0, 5)
  {
    assert Absorb(a, 3) == a;
    assert Collapse(a, 4, 5) == Collapse(a, 3, 5);
    assert Absorb(a, 2) == a;
    assert LastIndexOf(a, 0, 2) == 0;
  }

  /** At position 2 the block `0, 1` is a prefix of the rest, which rises
      right after it, so it is dominated and deleted. */
  lemma DominatedBlock(a: seq<int>, n: nat)
    requires a == [0, 1, 0, 1, 2] && n == 3
    ensures Grounded(a) && BelowIndex(a, 1)
    ensures Dominate(a, 2, 0, 5) == Iota(n)
  {
    var left, right := a[0..2], a[2..];
    assert StandardForm(Iota(0) + left) == Iota(0) + left by {
      assert Iota(0) + left == Iota(n - 1);
      IotaIsStandard(n - 1);
    }
    assert Dominates(left, right) by {
      DominatesMeaning(left, right);
      assert left == right[..2];
    }
    assert right == Iota(n);
  }

  /** `0, 1, 0, 1, 2` standardises to `0, 1, 2`. */
  lemma DominatedStandard(xs: seq<int>, n: nat)
    requires xs == [0, 1, 0, 1, 2] && n == 3
    ensures StandardForm(xs) == Iota(n)
  {
    assert PassA(xs) == xs by {
      NormalPassA(xs);
    }
    assert OnePass(xs) == Iota(n) by {
      DominatedScan(xs);
      DominatedBlock(xs, n);
    }
    IotaIsStandard(n);
  }

  /** `01012` is `w^w`: the first `01` is dominated, as `w + w^w` is not in
      Cantor normal form. */
  lemma DominationExample(t: string)
    requires t == "01012"
    ensures PrimSeq(TextElems(t)) == "w^w"
  {
    var xs := DigitValues(t);
    DigitsOutcome(t);
    DominatedStandard(xs, 3);
    OmegaOmegaOrdinal(xs, 3);
  }

  /** Pass B on `0, 0, 0, 1, 1, 1` from the end: the run of 1s is followed
      by nothing deeper, and nothing falls, so the scan reaches position 3
      unchanged. */
  lemma AbsorbedScan(a: seq<int>)
    requires a == [0, 0, 0, 1, 1, 1]
    ensures Grounded(a) && BelowIndex(a, 2)
    ensures Collapse(a, 5, 6) == Collapse(a, 3, 6)
  {
    AbsorbedEnd(a);
    AbsorbedRun(a);
  }

  /** The last pair of 1s has nothing after it to absorb into. */
  lemma AbsorbedEnd(a: seq<int>)
    requires a == [0, 0, 0, 1, 1, 1]
    ensures Grounded(a) && BelowIndex(a, 3)
    ensures Collapse(a, 5, 6) == Collapse(a, 4, 6)
  {
    assert !Absorbs(a, 4, 5);
    assert !Absorbs(a, 4, 4);
    assert Absorb(a, 4) == a;
  }

  /** Nor has the first pair: only 1s follow it. */
  lemma AbsorbedRun(a: seq<int>)
    requires a == [0, 0, 0, 1, 1, 1]
    ensures Grounded(a) && BelowIndex(a, 2)
    ensures Collapse(a, 4, 6) == Collapse(a, 3, 6)
  {
    CollapseStep(a, 4, 6);
  }

  /** At position 2 an equal pair of 0s is followed by a 1, so the left 0
      is absorbed: `0, 0, 0, 1, 1, 1` becomes `0, 0, 1, 1, 1`. */
  lemma AbsorbedAtTwo(a: seq<int>, b: seq<int>)
    requires a == [0, 0, 0, 1, 1, 1] && b == [0, 0, 1, 1, 1]
    ensures Grounded(a) && BelowIndex(a, 2) && Grounded(b) && BelowIndex(b, 1)
    ensures Collapse(a, 3, 6) == Collapse(b, 2, 6)
  {
    assert Absorbs(a, 2, 2);
    assert Absorb(a, 2) == b;
  }

  /** At position 1 the same happens again: `0, 0, 1, 1, 1` becomes
      `0, 1, 1, 1`, and the scan ends. */
  lemma AbsorbedAtOne(b: seq<int>, d: seq<int>)
    requires b == [0, 0, 1, 1, 1] && d == [0, 1, 1, 1]
    ensures Grounded(b) && BelowIndex(b, 1)
    ensures Collapse(b, 2, 6) == d
  {
    assert Absorbs(b, 1, 1);
    assert Absorb(b, 1) == d;
  }

  /** `0, 1, 1, 1` is standard: nothing is absorbed and nothing falls. */
  lemma PlateauStandard(d: seq<int>)
    requires d == [0, 1, 1, 1]
    ensures StandardForm(d) == d
  {
    assert PassA(d) == d by {
      NormalPassA(d);
    }
    assert !Absorbs(d, 2, 3);
    assert !Absorbs(d, 2, 2);
    assert Absorb(d, 2) == d;
    assert Absorb(d, 1) == d;
    assert Collapse(d, 2, 4) == d;
    assert Collapse(d, 3, 4) == d;
  }

  /** `0, 0, 0, 1, 1, 1` standardises to `0, 1, 1, 1`. */
  lemma AbsorbedStandard(xs: seq<int>, d: seq<int>)
    requires xs == [0, 0, 0, 1, 1, 1] && d == [0, 1, 1, 1]
    ensures StandardForm(xs) == d
  {
    var b := [0, 0, 1, 1, 1];
    assert PassA(xs) == xs by {
      NormalPassA(xs);
    }
    assert OnePass(xs) == d by {
      AbsorbedScan(xs);
      AbsorbedAtTwo(xs, b);
      AbsorbedAtOne(b, d);
    }
    PlateauStandard(d);
  }

  /** `0, 1, 1, 1` is `w^3`: a plateau of three 1s after a 0 gives the
      exponent 3. */
  lemma PlateauOrdinal(d: seq<int>)
    requires d == [0, 1, 1, 1]
    ensures OrdinalOf(d) == "w^3"
  {
    OrdinalOfFinish(d);
    assert LastIndexNotOf(d, 1, 2) == 0;
    assert LastIndexNotOf(d, d[3], 3) == 0;
    FinishCases(d, 0);
    assert d[..1] == [0];
    assert NatToString(3) == "3";
    assert OmegaTo("3") == "w^3";
  }

  /** `000111` is `w^3`: the leading 0s are absorbed. */
  lemma AbsorptionExample(t: string)
    requires t == "000111"
    ensures PrimSeq(TextElems(t)) == "w^3"
  {
    var xs := DigitValues(t);
    DigitsOutcome(t);
    var d := [0, 1, 1, 1];
    AbsorbedStandard(xs, d);
    PlateauOrdinal(d);
  }

  /** Pass A on `1, 2, 3, 0, 1, 2`: the offset starts at 1 and drops to 0
      at the fourth element, whose raw depth 0 matches the first
      element's, so the list is rebased to `0, 1, 2, 0, 1, 2`. */
  lemma RebasedPassA(x: seq<int>, a: seq<int>)
    requires x == [1, 2, 3, 0, 1, 2] && a == [0, 1, 2, 0, 1, 2]
    ensures PassA(x) == a
  {
    assert Offset(x, 3) == 1 && Offset(x, 4) == 0 && Offset(x, 5) == 0;
    assert Depths(x, 3) == [0, 1, 2];
    assert FallDepth(x, [0, 1, 2], 0, 0, 1) == 0;
    assert FallDepth(x, [0, 1, 2], 2, 0, 1) == 0;
    assert Depths(x, 4) == [0, 1, 2, 0];
    assert Depths(x, 5) == [0, 1, 2, 0, 1];
  }

  /** Pass B on `0, 1, 2, 0, 1, 2` reaches the fall at position 3
      unchanged. */
  lemma UndominatedScan(a: seq<int>)
    requires a == [0, 1, 2, 0, 1, 2]
    ensures Grounded(a) && BelowIndex(a, 4) && BelowIndex(a, 2)
    ensures Collapse(a, 5, 6) == Dominate(a, 3, 0, 6)
  {
    CollapseStep(a, 5, 6);
    assert Absorb(a, 3) == a;
    assert LastIndexOf(a, 0, 1) == 0;
    assert LastIndexOf(a, 0, 3) == 0;
  }

  /** There the block `0, 1, 2` equals what follows it, so it is not
      dominated and the scan moves on. */
  lemma UndominatedBlock(a: seq<int>, n: nat)
    requires a == [0, 1, 2, 0, 1, 2] && n == 3
    ensures Grounded(a) && BelowIndex(a, 2)
    ensures Dominate(a, 3, 0, 6) == Collapse(a, 3, 6)
  {
    var left, right := a[0..3], a[3..];
    assert StandardForm(Iota(0) + left) == Iota(0) + left by {
      assert Iota(0) + left == Iota(n);
      IotaIsStandard(n);
    }
    assert !Dominates(left, right) by {
      DominatesMeaning(left, right);
    }
  }

  /** The rest of the scan rises all the way, so nothing changes. */
  lemma UndominatedRest(a: seq<int>)
    requires a == [0, 1, 2, 0, 1, 2]
    ensures Grounded(a) && BelowIndex(a, 2)
    ensures Collapse(a, 3, 6) == a
  {
    assert Absorb(a, 2) == a;
    assert Absorb(a, 1) == a;
  }

  /** `1, 2, 3, 0, 1, 2` standardises to `0, 1, 2, 0, 1, 2`. */
  lemma RebasedStandard(x: seq<int>, a: seq<int>)
    requires x == [1, 2, 3, 0, 1, 2] && a == [0, 1, 2, 0, 1, 2]
    ensures StandardForm(x) == a
  {
    RebasedPassA(x, a);
    UndominatedScan(a);
    UndominatedBlock(a, 3);
    UndominatedRest(a);
  }

  /** `0, 1, 2, 0, 1, 2` is `w^w+w^w`: two climbs from the final plateau
      give `w^w`, and the additive step puts the ordinal of `0, 1, 2`,
      also `w^w`, before it. */
  lemma SumOrdinal(a: seq<int>, p: seq<int>, n: nat)
    requires a == [0, 1, 2, 0, 1, 2] && p == [0, 1, 2] && n == 3
    ensures OrdinalOf(a) == "w^w+w^w"
  {
    OrdinalOfFinish(a);
    assert LastIndexNotOf(a, a[5], 5) == 4;
    FinishCases(a, 4);
    assert NatToString(1) == "1";
    assert a[..5][..4] == p + [0] && (p + [0])[..3] == p;
    assert Prim(p, 0, "w^w") == PrimSeq(AsElems(p)) + "+" + "w^w";
    CheckAsElems(p);
    assert p == Iota(n);
    IotaIsStandard(n);
    OmegaOmegaOrdinal(p, n);
    OmegaSteps();
  }

  /** `123012` is `w^w+w^w`. */
  lemma SumExample(t: string)
    requires t == "123012"
    ensures PrimSeq(TextElems(t)) == "w^w+w^w"
  {
    var xs := DigitValues(t);
    DigitsOutcome(t);
    var a := [0, 1, 2, 0, 1, 2];
    RebasedStandard(xs, a);
    SumOrdinal(a, [0, 1, 2], 3);
  }

  /** Pass B on `0, 1, 2, 3, 3, 3`: the run of 3s is followed by nothing
      deeper and nothing falls, so nothing changes. */
  lemma TopPlateauCollapse(a: seq<int>)
    requires a == [0, 1, 2, 3, 3, 3]
    ensures Grounded(a) && BelowIndex(a, 4)
    ensures Collapse(a, 5, 6) == a
  {
    assert !Absorbs(a, 4, 5);
    assert !Absorbs(a, 4, 4);
    assert Absorb(a, 4) == a;
    assert Collapse(a, 5, 6) == Collapse(a, 4, 6);
    assert Absorb(a, 3) == a;
    assert Absorb(a, 2) == a;
    assert Absorb(a, 1) == a;
  }

  /** `0, 1, 2, 3, 3, 3` is standard. */
  lemma TopPlateauStandard(a: seq<int>)
    requires a == [0, 1, 2, 3, 3, 3]
    ensures StandardForm(a) == a
  {
    assert PassA(a) == a by {
      NormalPassA(a);
    }
    TopPlateauCollapse(a);
  }

  /** Three climb steps from `3`. */
  lemma ClimbFromThree()
    ensures Climb(3, "3") == "w^(w^(w^3))"
  {
    assert OmegaTo("3") == "w^3";
    assert '^' in "w^3";
    assert OmegaTo("w^3") == "w^(w^3)";
    assert '^' in "w^(w^3)";
    assert OmegaTo("w^(w^3)") == "w^(w^(w^3))";
  }

  /** `0, 1, 2, 3, 3, 3` is `w^(w^(w^3))`: the plateau of three 3s is the
      innermost exponent, and `0, 1, 2` climbs three times. */
  lemma TopPlateauOrdinal(a: seq<int>, n: nat)
    requires a == [0, 1, 2, 3, 3, 3] && n == 3
    ensures OrdinalOf(a) == "w^(w^(w^3))"
  {
    OrdinalOfFinish(a);
    assert LastIndexNotOf(a, 3, 3) == 2;
    assert LastIndexNotOf(a, a[5], 5) == 2;
    FinishCases(a, 2);
    assert a[..3] == Iota(n);
    assert NatToString(3) == "3";
    PrimIota(n, "3");
    ClimbFromThree();
  }

  /** `012333` is `w^(w^(w^3))`. */
  lemma TopPlateauExample(t: string)
    requires t == "012333"
    ensures PrimSeq(TextElems(t)) == "w^(w^(w^3))"
  {
    var xs := DigitValues(t);
    DigitsOutcome(t);
    assert xs == [0, 1, 2, 3, 3, 3];
    TopPlateauStandard(xs);
    TopPlateauOrdinal(xs, 3);
  }

  /** Pass B on `0, 1, 2, 1, 2, 3` reaches the fall at position 3
      unchanged. */
  lemma RisingScan(a: seq<int>)
    requires a == [0, 1, 2, 1, 2, 3]
    ensures Grounded(a) && BelowIndex(a, 4) && BelowIndex(a, 2)
    ensures Collapse(a, 5, 6) == Dominate(a, 3, 1, 6)
  {
    assert Absorb(a, 4) == a;
    assert Absorb(a, 3) == a;
    assert LastIndexOf(a, 1, 3) == 1;
  }

  /** There the block `1, 2` from position 1 is a prefix of the rest,
      `1, 2, 3`, which rises right after it: the block is deleted, the scan
      goes on from position 1 and stops, leaving `0, 1, 2, 3`. */
  lemma RisingBlock(a: seq<int>, n: nat)
    requires a == [0, 1, 2, 1, 2, 3] && n == 3
    ensures Grounded(a) && BelowIndex(a, 2)
    ensures Dominate(a, 3, 1, 6) == Iota(n + 1)
  {
    var left, right := a[1..3], a[3..];
    assert StandardForm(Iota(1) + left) == Iota(1) + left by {
      assert Iota(1) + left == Iota(n);
      IotaIsStandard(n);
    }
    assert Dominates(left, right) by {
      DominatesMeaning(left, right);
      assert left == right[..2];
    }
    assert a[..1] + right == Iota(n + 1);
  }

  /** `0, 1, 2, 1, 2, 3` standardises to `0, 1, 2, 3`. */
  lemma RisingStandard(xs: seq<int>, n: nat)
    requires xs == [0, 1, 2, 1, 2, 3] && n == 3
    ensures StandardForm(xs) == Iota(n + 1)
  {
    assert PassA(xs) == xs by {
      NormalPassA(xs);
    }
    assert OnePass(xs) == Iota(n + 1) by {
      RisingScan(xs);
      RisingBlock(xs, n);
    }
    IotaIsStandard(n + 1);
  }

  /** Three climb steps from `1`. */
  lemma ClimbThreeFromOne()
    ensures Climb(3, "1") == "w^(w^w)"
  {
    OmegaSteps();
    assert '^' in "w^w";
  }

  /** `012123` is `w^(w^w)`: the block `12` is dominated by `123`, leaving
      the tower `0123`. */
  lemma RisingExample(t: string)
    requires t == "012123"
    ensures PrimSeq(TextElems(t)) == "w^(w^w)"
  {
    var xs := DigitValues(t);
    DigitsOutcome(t);
    RisingStandard(xs, 3);
    IotaIsStandard(4);
    assert Decompose(xs) == Decompose(Iota(4));
    IotaOrdinal(4);
    ClimbThreeFromOne();
  }

  /** Pass B on `0, 1, 2, 2, 1`: the pair of 2s is followed by a 1, not
      by something deeper, so nothing is absorbed and nothing changes. */
  lemma PeakCollapse(a: seq<int>)
    requires a == [0, 1, 2, 2, 1]
    ensures Grounded(a) && BelowIndex(a, 3)
    ensures Collapse(a, 4, 5) == a
  {
    assert !Absorbs(a, 3, 4);
    assert !Absorbs(a, 3, 3);
    assert Absorb(a, 3) == a;
    assert Collapse(a, 4, 5) == Collapse(a, 3, 5);
    assert Absorb(a, 2) == a;
    assert Absorb(a, 1) == a;
  }

  /** `0, 1, 2, 2, 1` is standard. */
  lemma PeakStandard(a: seq<int>)
    requires a == [0, 1, 2, 2, 1]
    ensures StandardForm(a) == a
  {
    assert PassA(a) == a by {
      NormalPassA(a);
    }
    PeakCollapse(a);
  }

  /** `1, 2, 2` standardises to `0, 1, 1`: Pass A rebases it at 1. */
  lemma SquareStandard(x: seq<int>, y: seq<int>)
    requires x == [1, 2, 2] && y == [0, 1, 1]
    ensures StandardForm(x) == y
  {
    assert PassA(x) == y by {
      assert x == Shift(y, 1);
      PassAIgnoresBase(y, 1);
      NormalPassA(y);
    }
    assert Absorb(y, 1) == y;
    assert Collapse(y, 2, 3) == y;
  }

  /** `1, 2, 2` is `w^2`. */
  lemma SquareOrdinal(x: seq<int>, y: seq<int>)
    requires x == [1, 2, 2] && y == [0, 1, 1]
    ensures Decompose(x) == "w^2"
  {
    SquareStandard(x, y);
    OrdinalOfFinish(y);
    assert LastIndexNotOf(y, y[2], 2) == 0;
    FinishCases(y, 0);
    assert y[..1] == [0];
    assert NatToString(2) == "2";
    assert OmegaTo("2") == "w^2";
  }

  /** `prim` on `0, 1, 2, 2` before a 1: the rightmost 1 starts the suffix
      `1, 2, 2`, which is `w^2`, so the additive step gives `w^2+1`, and the
      last climb wraps it in parentheses. */
  lemma PeakPrim(p: seq<int>, q: seq<int>)
    requires p == [0, 1, 2, 2] && q == [1, 2, 2]
    ensures Prim(p, 1, "1") == "w^(w^2+1)"
  {
    assert LastIndexOf(p, 1, 2) == 1;
    assert LastIndexOf(p, 1, 4) == 1;
    assert p[1..] == q && p[..1] == [0];
    assert Prim(p, 1, "1") == Prim([0], 1, PrimSeq(AsElems(q)) + "+" + "1");
    CheckAsElems(q);
    SquareOrdinal(q, [0, 1, 1]);
    assert "w^2" + "+" + "1" == "w^2+1";
    assert '+' in "w^2+1";
    assert OmegaTo("w^2+1") == "w^(w^2+1)";
  }

  /** `0, 1, 2, 2, 1` is `w^(w^2+1)`. */
  lemma PeakOrdinal(a: seq<int>, p: seq<int>)
    requires a == [0, 1, 2, 2, 1] && p == [0, 1, 2, 2]
    ensures OrdinalOf(a) == "w^(w^2+1)"
  {
    OrdinalOfFinish(a);
    assert LastIndexNotOf(a, a[4], 4) == 3;
    FinishCases(a, 3);
    assert a[..4] == p;
    assert NatToString(1) == "1";
    PeakPrim(p, [1, 2, 2]);
  }

  /** `01221` is `w^(w^2+1)`. */
  lemma PeakExample(t: string)
    requires t == "01221"
    ensures PrimSeq(TextElems(t)) == "w^(w^2+1)"
  {
    var xs := DigitValues(t);
    DigitsOutcome(t);
    assert xs == [0, 1, 2, 2, 1];
    PeakStandard(xs);
    PeakOrdinal(xs, [0, 1, 2, 2]);
  }

  /** `1, 2, 3` is `w^w`: it standardises to `0, 1, 2`. */
  lemma RisingThreeOrdinal(q: seq<int>, n: nat)
    requires q == [1, 2, 3] && n == 3
    ensures Decompose(q) == "w^w"
  {
    assert Increasing(q);
    IncreasingIsStandard(q);
    OmegaOmegaOrdinal(q, n);
  }

  /** `1, 2` is `w`: it standardises to `0, 1`. */
  lemma RisingTwoOrdinal(q: seq<int>, n: nat)
    requires q == [1, 2] && n == 2
    ensures Decompose(q) == "w"
  {
    assert Increasing(q);
    IncreasingIsStandard(q);
    IotaIsStandard(n);
    assert Decompose(q) == Decompose(Iota(n));
    IotaOrdinal(n);
    assert OmegaTo("1") == "w";
  }

  /** Pass B on `0, 1, 2, 3, 1, 2, 3` reaches the fall at position 4
      unchanged. */
  lemma TwinScan(a: seq<int>)
    requires a == [0, 1, 2, 3, 1, 2, 3]
    ensures Grounded(a) && BelowIndex(a, 5) && BelowIndex(a, 3)
    ensures Collapse(a, 6, 7) == Dominate(a, 4, 1, 7)
  {
    assert Absorb(a, 5) == a;
    assert Absorb(a, 4) == a;
    assert LastIndexOf(a, 1, 2) == 1;
    assert LastIndexOf(a, 1, 4) == 1;
  }

  /** There the block `1, 2, 3` equals what follows it, so it is kept, and
      the rest of the scan rises all the way. */
  lemma TwinBlock(a: seq<int>, n: nat)
    requires a == [0, 1, 2, 3, 1, 2, 3] && n == 4
    ensures Grounded(a) && BelowIndex(a, 3)
    ensures Dominate(a, 4, 1, 7) == a
  {
    var left, right := a[1..4], a[4..];
    assert StandardForm(Iota(1) + left) == Iota(1) + left by {
      assert Iota(1) + left == Iota(n);
      IotaIsStandard(n);
    }
    assert !Dominates(left, right) by {
      DominatesMeaning(left, right);
    }
    assert Absorb(a, 3) == a;
    assert Absorb(a, 2) == a;
    assert Absorb(a, 1) == a;
  }

  /** `0, 1, 2, 3, 1, 2, 3` is standard. */
  lemma TwinStandard(a: seq<int>)
    requires a == [0, 1, 2, 3, 1, 2, 3]
    ensures StandardForm(a) == a
  {
    assert PassA(a) == a by {
      NormalPassA(a);
    }
    TwinScan(a);
    TwinBlock(a, 4);
  }

  /** `prim` on `0, 1, 2, 3, 1, 2` before a 3: two climbs give `w^w`, then
      the suffix `1, 2, 3` from the rightmost 1 is added in front as `w^w`,
      and the last climb wraps the sum in parentheses. */
  lemma TwinPrim(p: seq<int>, q: seq<int>)
    requires p == [0, 1, 2, 3, 1, 2] && q == [1, 2, 3]
    ensures Prim(p, 3, "1") == "w^(w^w+w^w)"
  {
    OmegaSteps();
    assert p[..5] == [0, 1, 2, 3, 1] && p[..5][..4] == [0, 1, 2, 3];
    assert Prim(p, 3, "1") == Prim([0, 1, 2, 3], 1, "w^w");
    var r := [0, 1, 2, 3];
    assert LastIndexOf(r, 1, 2) == 1;
    assert LastIndexOf(r, 1, 4) == 1;
    assert r[1..] == q && r[..1] == [0];
    assert Prim(r, 1, "w^w") == Prim([0], 1, PrimSeq(AsElems(q)) + "+" + "w^w");
    CheckAsElems(q);
    RisingThreeOrdinal(q, 3);
    assert "w^w" + "+" + "w^w" == "w^w+w^w";
    assert '+' in "w^w+w^w";
    assert OmegaTo("w^w+w^w") == "w^(w^w+w^w)";
  }

  /** `0123123` is `w^(w^w+w^w)`. */
  lemma TwinExample(t: string)
    requires t == "0123123"
    ensures PrimSeq(TextElems(t)) == "w^(w^w+w^w)"
  {
    var xs := DigitValues(t);
    DigitsOutcome(t);
    assert xs == [0, 1, 2, 3, 1, 2, 3];
    TwinStandard(xs);
    OrdinalOfFinish(xs);
    assert LastIndexNotOf(xs, 3, 6) == 5;
    FinishCases(xs, 5);
    assert xs[..6] == [0, 1, 2, 3, 1, 2];
    assert NatToString(1) == "1";
    TwinPrim(xs[..6], [1, 2, 3]);
  }

  /** Pass B on `0, 1, 2, 1, 2, 1, 2` reaches the fall at position 5
      unchanged. */
  lemma RepeatScan(a: seq<int>)
    requires a == [0, 1, 2, 1, 2, 1, 2]
    ensures Grounded(a) && BelowIndex(a, 5)
    ensures Collapse(a, 6, 7) == Dominate(a, 5, 3, 7)
  {
    assert Absorb(a, 5) == a;
    assert LastIndexOf(a, 1, 4) == 3;
    assert LastIndexOf(a, 1, 5) == 3;
  }

  /** The block `1, 2` at position 3 equals what follows it, so it is kept
      and the scan goes on to the fall at position 3. */
  lemma RepeatInner(a: seq<int>, n: nat)
    requires a == [0, 1, 2, 1, 2, 1, 2] && n == 3
    ensures Grounded(a) && BelowIndex(a, 5) && BelowIndex(a, 3)
    ensures Dominate(a, 5, 3, 7) == Dominate(a, 3, 1, 7)
  {
    RepeatInnerKept(a, n);
    RepeatInnerScan(a);
  }

  lemma RepeatInnerKept(a: seq<int>, n: nat)
    requires a == [0, 1, 2, 1, 2, 1, 2] && n == 3
    ensures Grounded(a) && BelowIndex(a, 4)
    ensures Dominate(a, 5, 3, 7) == Collapse(a, 5, 7)
  {
    var left, right := a[3..5], a[5..];
    assert StandardForm(Iota(1) + left) == Iota(1) + left by {
      assert Iota(1) + left == Iota(n);
      IotaIsStandard(n);
    }
    assert !Dominates(left, right) by {
      DominatesMeaning(left, right);
    }
  }

  lemma RepeatInnerScan(a: seq<int>)
    requires a == [0, 1, 2, 1, 2, 1, 2]
    ensures Grounded(a) && BelowIndex(a, 4) && BelowIndex(a, 3)
    ensures Collapse(a, 5, 7) == Dominate(a, 3, 1, 7)
  {
    assert Absorb(a, 4) == a;
    assert Absorb(a, 3) == a;
    assert LastIndexOf(a, 1, 2) == 1;
    assert LastIndexOf(a, 1, 3) == 1;
  }

  /** The block `1, 2` at position 1 is a prefix of `1, 2, 1, 2` that does
      not rise above it, so it is kept and the scan ends with the list
      unchanged. */
  lemma RepeatOuter(a: seq<int>, n: nat)
    requires a == [0, 1, 2, 1, 2, 1, 2] && n == 3
    ensures Grounded(a) && BelowIndex(a, 3)
    ensures Dominate(a, 3, 1, 7) == a
  {
    var left, right := a[1..3], a[3..];
    assert StandardForm(Iota(1) + left) == Iota(1) + left by {
      assert Iota(1) + left == Iota(n);
      IotaIsStandard(n);
    }
    assert !Dominates(left, right) by {
      DominatesMeaning(left, right);
    }
    assert Dominate(a, 3, 1, 7) == Collapse(a, 3, 7);
    CollapseStep(a, 3, 7);
    CollapseStep(a, 2, 7);
  }

  /** `0, 1, 2, 1, 2, 1, 2` is standard. */
  lemma RepeatStandard(a: seq<int>)
    requires a == [0, 1, 2, 1, 2, 1, 2]
    ensures StandardForm(a) == a
  {
    assert PassA(a) == a by {
      NormalPassA(a);
    }
    RepeatScan(a);
    RepeatInner(a, 3);
    RepeatOuter(a, 3);
  }

  /** `prim` on `0, 1, 2, 1, 2, 1` before a 2: one climb gives `w`, then
      each earlier `1, 2` is added in front as `w`, and the last climb wraps
      the sum. */
  lemma RepeatPrim(p: seq<int>, q: seq<int>)
    requires p == [0, 1, 2, 1, 2, 1] && q == [1, 2]
    ensures Prim(p, 2, "1") == "w^(w+w+w)"
  {
    assert OmegaTo("1") == "w";
    assert p[..5] == [0, 1, 2, 1, 2];
    assert Prim(p, 2, "1") == Prim([0, 1, 2, 1, 2], 1, "w");
    var r := [0, 1, 2, 1, 2];
    assert LastIndexOf(r, 1, 4) == 3;
    assert LastIndexOf(r, 1, 5) == 3;
    assert r[3..] == q && r[..3] == [0, 1, 2];
    CheckAsElems(q);
    RisingTwoOrdinal(q, 2);
    assert "w" + "+" + "w" == "w+w";
    assert Prim(r, 1, "w") == Prim([0, 1, 2], 1, "w+w");
    var u := [0, 1, 2];
    assert LastIndexOf(u, 1, 2) == 1;
    assert LastIndexOf(u, 1, 3) == 1;
    assert u[1..] == q && u[..1] == [0];
    assert "w" + "+" + "w+w" == "w+w+w";
    assert Prim(u, 1, "w+w") == Prim([0], 1, "w+w+w");
    assert '+' in "w+w+w";
    assert OmegaTo("w+w+w") == "w^(w+w+w)";
  }

  /** `0121212` is `w^(w+w+w)`. */
  lemma RepeatExample(t: string)
    requires t == "0121212"
    ensures PrimSeq(TextElems(t)) == "w^(w+w+w)"
  {
    var xs := DigitValues(t);
    DigitsOutcome(t);
    assert xs == [0, 1, 2, 1, 2, 1, 2];
    RepeatStandard(xs);
    OrdinalOfFinish(xs);
    assert LastIndexNotOf(xs, 2, 6) == 5;
    FinishCases(xs, 5);
    assert xs[..6] == [0, 1, 2, 1, 2, 1];
    assert NatToString(1) == "1";
    RepeatPrim(xs[..6], [1, 2]);
  }

  /** Pass B on `0, 1, 2, 3, 3, 4, 5, 1, 2, 3, 4` rises from the end down
      to position 8. */
  lemma SpliceRise(a: seq<int>)
    requires a == [0, 1, 2, 3, 3, 4, 5, 1, 2, 3, 4]
    ensures Grounded(a) && BelowIndex(a, 9) && BelowIndex(a, 7)
    ensures Collapse(a, 10, 11) == Collapse(a, 8, 11)
  {
    CollapseStep(a, 10, 11);
    CollapseStep(a, 9, 11);
  }

  /** At position 7 it falls, and the latest earlier 1 is at position 1:
      the block `1, 2, 3, 3, 4, 5` goes to the domination rule. */
  lemma SpliceFall(a: seq<int>)
    requires a == [0, 1, 2, 3, 3, 4, 5, 1, 2, 3, 4]
    ensures Grounded(a) && BelowIndex(a, 7) && BelowIndex(a, 6)
    ensures Collapse(a, 8, 11) == Dominate(a, 7, 1, 11)
  {
    assert Absorb(a, 7) == a;
    assert LastIndexOf(a, 1, 7) == 1 by {
      assert LastIndexOf(a, 1, 2) == 1;
      assert LastIndexOf(a, 1, 4) == 1;
    }
  }

  /** In the zero-extended block `0, 1, 2, 3, 3, 4, 5` the pair of 3s is
      followed by a 4, so the left one is absorbed. */
  lemma BumpAbsorb(e: seq<int>, n: nat)
    requires e == [0, 1, 2, 3, 3, 4, 5] && n == 6
    ensures Absorb(e, 4) == Iota(n)
  {
    assert Absorbs(e, 4, 4) by {
      assert Absorbs(e, 4, 5);
    }
    assert e[..3] + e[4..] == Iota(n);
  }

  /** Pass B on the block first steps over the rise from 4 to 5. */
  lemma BumpRise(e: seq<int>)
    requires e == [0, 1, 2, 3, 3, 4, 5]
    ensures Grounded(e) && BelowIndex(e, 5) && BelowIndex(e, 4)
    ensures Collapse(e, 6, 7) == Collapse(e, 5, 7)
  {
    CollapseStep(e, 6, 7);
  }

  /** Then it absorbs the left 3 and goes on over `0, 1, 2, 3, 4, 5`. */
  lemma BumpTwin(e: seq<int>, n: nat)
    requires e == [0, 1, 2, 3, 3, 4, 5] && n == 6
    ensures Grounded(e) && BelowIndex(e, 4)
    ensures Collapse(e, 5, 7) == Descend(Iota(n), 4, 7)
  {
    BumpAbsorb(e, n);
  }

  /** Pass B on the block: nothing else changes, giving `0, 1, 2, 3, 4, 5`. */
  lemma BumpCollapse(e: seq<int>, n: nat)
    requires e == [0, 1, 2, 3, 3, 4, 5] && n == 6
    ensures Grounded(e) && BelowIndex(e, 5)
    ensures Collapse(e, 6, 7) == Iota(n)
  {
    BumpRise(e);
    BumpTwin(e, n);
    var e' := Iota(n);
    assert Descend(e', 4, 7) == Collapse(e', 4, 7);
    CollapseIota(e', 4, 7);
  }

  /** The block standardises to `0, 1, 2, 3, 4, 5`, which differs from it. */
  lemma BumpStandard(e: seq<int>, n: nat)
    requires e == [0, 1, 2, 3, 3, 4, 5] && n == 6
    ensures StandardForm(e) == Iota(n) != e
  {
    assert PassA(e) == e by {
      NormalPassA(e);
    }
    assert OnePass(e) == Iota(n) by {
      BumpCollapse(e, n);
    }
    IotaIsStandard(n);
    assert e[4] != Iota(n)[4];
  }

  /** So the standardised block is spliced in and `stand` ends there, with
      `0, 1, 2, 3, 4, 5, 1, 2, 3, 4`. */
  lemma SpliceBlock(a: seq<int>, y: seq<int>)
    requires a == [0, 1, 2, 3, 3, 4, 5, 1, 2, 3, 4]
    requires y == [0, 1, 2, 3, 4, 5, 1, 2, 3, 4]
    ensures Grounded(a) && BelowIndex(a, 6)
    ensures Dominate(a, 7, 1, 11) == y
  {
    var left, right := a[1..7], a[7..];
    assert Iota(1) + left == [0, 1, 2, 3, 3, 4, 5] by {
      assert Iota(1) == [0];
      assert left == [1, 2, 3, 3, 4, 5];
    }
    BumpStandard(Iota(1) + left, 6);
    DominateSplice(a, 7, 1, 11);
    assert Drop(Iota(6), 1) == [1, 2, 3, 4, 5];
  }

  /** Pass B on `0, 1, 2, 3, 4, 5, 1, 2, 3, 4` rises from the end to the
      fall at position 6, where the block `1, 2, 3, 4, 5` starts at
      position 1. */
  lemma SplicedScan(y: seq<int>)
    requires y == [0, 1, 2, 3, 4, 5, 1, 2, 3, 4]
    ensures Grounded(y) && BelowIndex(y, 8) && BelowIndex(y, 5)
    ensures Collapse(y, 9, 10) == Dominate(y, 6, 1, 10)
  {
    SplicedRise(y);
    SplicedFall(y);
  }

  /** The scan steps over the rises 3 to 4 and 2 to 3. */
  lemma SplicedRise(y: seq<int>)
    requires y == [0, 1, 2, 3, 4, 5, 1, 2, 3, 4]
    ensures Grounded(y) && BelowIndex(y, 8) && BelowIndex(y, 6)
    ensures Collapse(y, 9, 10) == Collapse(y, 7, 10)
  {
    CollapseStep(y, 9, 10);
    CollapseStep(y, 8, 10);
  }

  /** At the fall from 5 to 1 the latest earlier 1 is at position 1. */
  lemma SplicedFall(y: seq<int>)
    requires y == [0, 1, 2, 3, 4, 5, 1, 2, 3, 4]
    ensures Grounded(y) && BelowIndex(y, 6) && BelowIndex(y, 5)
    ensures Collapse(y, 7, 10) == Dominate(y, 6, 1, 10)
  {
    assert Absorb(y, 6) == y;
    assert LastIndexOf(y, 1, 6) == 1 by {
      assert LastIndexOf(y, 1, 2) == 1;
    }
  }

  /** There the block `1, 2, 3, 4, 5` is longer than what follows, which it
      matches, so it is kept, and the rest of the scan rises all the way. */
  lemma SplicedBlock(y: seq<int>, n: nat)
    requires y == [0, 1, 2, 3, 4, 5, 1, 2, 3, 4] && n == 6
    ensures Grounded(y) && BelowIndex(y, 5)
    ensures Dominate(y, 6, 1, 10) == y
  {
    SplicedKeep(y, n);
    CollapseStep(y, 6, 10);
    SplicedClimb(y);
  }

  /** The block is standard and does not dominate what follows. */
  lemma SplicedKeep(y: seq<int>, n: nat)
    requires y == [0, 1, 2, 3, 4, 5, 1, 2, 3, 4] && n == 6
    ensures Grounded(y) && BelowIndex(y, 5)
    ensures Dominate(y, 6, 1, 10) == Collapse(y, 6, 10)
  {
    var left, right := y[1..6], y[6..];
    assert StandardForm(Iota(1) + left) == Iota(1) + left by {
      assert Iota(1) + left == Iota(n);
      IotaIsStandard(n);
    }
    assert !Dominates(left, right) by {
      DominatesMeaning(left, right);
    }
  }

  /** The scan then steps over the rises of `0, 1, 2, 3, 4, 5`. */
  lemma SplicedClimb(y: seq<int>)
    requires y == [0, 1, 2, 3, 4, 5, 1, 2, 3, 4]
    ensures Grounded(y) && BelowIndex(y, 4)
    ensures Collapse(y, 5, 10) == y
  {
    CollapseStep(y, 5, 10);
    CollapseStep(y, 4, 10);
    CollapseStep(y, 3, 10);
    CollapseStep(y, 2, 10);
  }

  /** `0, 1, 2, 3, 4, 5, 1, 2, 3, 4` is standard. */
  lemma SplicedStandard(y: seq<int>)
    requires y == [0, 1, 2, 3, 4, 5, 1, 2, 3, 4]
    ensures StandardForm(y) == y
  {
    assert PassA(y) == y by {
      NormalPassA(y);
    }
    SplicedScan(y);
    SplicedBlock(y, 6);
  }

  /** `0, 1, 2, 3, 3, 4, 5, 1, 2, 3, 4` standardises in two rounds of
      `stand`: the splice, then nothing. */
  lemma SpliceStandard(x: seq<int>, y: seq<int>)
    requires x == [0, 1, 2, 3, 3, 4, 5, 1, 2, 3, 4]
    requires y == [0, 1, 2, 3, 4, 5, 1, 2, 3, 4]
    ensures StandardForm(x) == y
  {
    assert PassA(x) == x by {
      NormalPassA(x);
    }
    assert OnePass(x) == y by {
      SpliceRise(x);
      SpliceFall(x);
      SpliceBlock(x, y);
    }
    SplicedStandard(y);
  }

  /** Four climb steps from `1`. */
  lemma ClimbFourFromOne()
    ensures Climb(4, "1") == "w^(w^(w^w))"
  {
    OmegaSteps();
    assert OmegaTo("w^w") == "w^(w^w)" by {
      assert '^' in "w^w";
    }
    assert OmegaTo("w^(w^w)") == "w^(w^(w^w))" by {
      assert '^' in "w^(w^w)";
    }
    assert Climb(4, "1") == Climb(3, "w");
    assert Climb(3, "w") == Climb(2, "w^w");
    assert Climb(2, "w^w") == Climb(1, "w^(w^w)");
  }

  /** `prim` on `0, 1, 2, 3, 4, 5, 1, 2, 3` before a 4: three climbs give
      `w^(w^w)` before the 1 at position 1. */
  lemma SpliceClimbs(p: seq<int>, r: seq<int>)
    requires p == [0, 1, 2, 3, 4, 5, 1, 2, 3] && r == [0, 1, 2, 3, 4, 5]
    ensures Prim(p, 4, "1") == Prim(r, 1, "w^(w^w)")
  {
    OmegaSteps();
    assert OmegaTo("w^w") == "w^(w^w)" by {
      assert '^' in "w^w";
    }
    assert Prim(p, 4, "1") == Prim(p[..8], 3, "w");
    assert Prim(p[..8], 3, "w") == Prim(p[..7], 2, "w^w") by {
      assert p[..8][..7] == p[..7];
    }
    assert Prim(p[..7], 2, "w^w") == Prim(r, 1, "w^(w^w)") by {
      assert p[..7][..6] == r;
    }
  }

  /** `1, 2, 3, 4, 5` standardises to `0, 1, 2, 3, 4` and is four climbs
      from `1`. */
  lemma RisingFiveOrdinal(q: seq<int>, n: nat)
    requires q == [1, 2, 3, 4, 5] && n == 5
    ensures Decompose(q) == "w^(w^(w^w))"
  {
    assert Increasing(q);
    IncreasingIsStandard(q);
    IotaIsStandard(n);
    assert Decompose(q) == Decompose(Iota(n));
    IotaOrdinal(n);
    ClimbFourFromOne();
  }

  /** The suffix `1, 2, 3, 4, 5` passed back to `primseq` gives
      `w^(w^(w^w))`. */
  lemma SuffixOrdinal(q: seq<int>)
    requires q == [1, 2, 3, 4, 5]
    ensures PrimSeq(AsElems(q)) == "w^(w^(w^w))"
  {
    CheckAsElems(q);
    RisingFiveOrdinal(q, 5);
  }

  /** Then the suffix from the rightmost 1 is added in front of what the
      climbs built. */
  lemma SpliceSum(r: seq<int>, q: seq<int>, a: string, b: string)
    requires r == [0, 1, 2, 3, 4, 5] && q == [1, 2, 3, 4, 5]
    requires a == "w^(w^(w^w))" && b == "w^(w^w)"
    ensures Prim(r, 1, b) == Prim([0], 1, a + "+" + b)
  {
    assert LastIndexOf(r, 1, 6) == 1 by {
      assert LastIndexOf(r, 1, 2) == 1;
      assert LastIndexOf(r, 1, 4) == 1;
    }
    assert r[1..] == q && r[..1] == [0];
    SuffixOrdinal(q);
  }

  /** A last climb wraps the sum. */
  lemma SplicePrim(r: seq<int>, q: seq<int>, a: string, b: string)
    requires r == [0, 1, 2, 3, 4, 5] && q == [1, 2, 3, 4, 5]
    requires a == "w^(w^(w^w))" && b == "w^(w^w)"
    ensures Prim(r, 1, b) == "w^(" + (a + "+" + b) + ")"
  {
    SpliceSum(r, q, a, b);
    WrapSum(a, b);
  }

  /** A climb from a sum puts the sum in parentheses. */
  lemma WrapSum(a: string, b: string)
    ensures Prim([0], 1, a + "+" + b) == "w^(" + (a + "+" + b) + ")"
  {
    var sum := a + "+" + b;
    assert sum[|a|] == '+';
  }

  lemma SpliceText(a: string, b: string)
    requires a == "w^(w^(w^w))" && b == "w^(w^w)"
    ensures "w^(" + (a + "+" + b) + ")" == "w^(w^(w^(w^w))+w^(w^w))"
  {
  }

  /** `01233451234` is `w^(w^(w^(w^w))+w^(w^w))`: its standardisation goes
      through the splice of a re-standardised block. */
  lemma SpliceExample(t: string)
    requires t == "01233451234"
    ensures PrimSeq(TextElems(t)) == "w^(w^(w^(w^w))+w^(w^w))"
  {
    var xs := DigitValues(t);
    DigitsOutcome(t);
    assert xs == [0, 1, 2, 3, 3, 4, 5, 1, 2, 3, 4];
    var y := [0, 1, 2, 3, 4, 5, 1, 2, 3, 4];
    SpliceStandard(xs, y);
    SpliceOrdinal(y);
  }

  /** The standard list `0, 1, 2, 3, 4, 5, 1, 2, 3, 4` is
      `w^(w^(w^(w^w))+w^(w^w))`. */
  lemma SpliceOrdinal(y: seq<int>)
    requires y == [0, 1, 2, 3, 4, 5, 1, 2, 3, 4]
    ensures OrdinalOf(y) == "w^(w^(w^(w^w))+w^(w^w))"
  {
    OrdinalOfFinish(y);
    assert LastIndexNotOf(y, 4, 9) == 8;
    FinishCases(y, 8);
    assert y[..9] == [0, 1, 2, 3, 4, 5, 1, 2, 3];
    assert NatToString(1) == "1";
    SpliceClimbs(y[..9], [0, 1, 2, 3, 4, 5]);
    SplicePrim([0, 1, 2, 3, 4, 5], [1, 2, 3, 4, 5], "w^(w^(w^w))", "w^(w^w)");
    SpliceText("w^(w^(w^w))", "w^(w^w)");
  }

  /** A block that is nowhere smaller than the part after it, and larger
      somewhere, is not dominated. */
  lemma KeptBlock(l: seq<int>, r: seq<int>, k: nat)
    requires k < |l| && k < |r| && l[k] > r[k]
    requires forall m :: 0 <= m < |l| && m < |r| ==> l[m] >= r[m]
    ensures !Dominates(l, r)
  {
    DominatesMeaning(l, r);
    if |l| < |r| {
      assert l[k] != r[..|l|][k];
    }
  }

  /** Pass B on `0, 1, 2, 3, 1, 2, 2, 2`: the run of 2s runs to the end of
      the list, so nothing is absorbed, and the scan reaches the fall at
      position 4 unchanged. */
  lemma ShelfScan(b: seq<int>)
    requires b == [0, 1, 2, 3, 1, 2, 2, 2]
    ensures Grounded(b) && BelowIndex(b, 6) && BelowIndex(b, 3)
    ensures Collapse(b, 7, 8) == Dominate(b, 4, 1, 8)
  {
    assert !Absorbs(b, 6, 7);
    assert !Absorbs(b, 6, 6);
    assert Absorb(b, 6) == b;
    assert Collapse(b, 7, 8) == Collapse(b, 6, 8);
    assert Absorb(b, 5) == b;
    assert Absorb(b, 4) == b;
    assert LastIndexOf(b, 1, 2) == 1;
    assert LastIndexOf(b, 1, 4) == 1;
  }

  /** There the block `1, 2, 3` is standard and larger than the `1, 2, 2`
      after it, so it is kept, and the rest of the scan rises. */
  lemma ShelfBlock(b: seq<int>, n: nat)
    requires b == [0, 1, 2, 3, 1, 2, 2, 2] && n == 4
    ensures Grounded(b) && BelowIndex(b, 3)
    ensures Dominate(b, 4, 1, 8) == b
  {
    var left, right := b[1..4], b[4..];
    assert StandardForm(Iota(1) + left) == Iota(1) + left by {
      assert Iota(1) + left == Iota(n);
      IotaIsStandard(n);
    }
    KeptBlock(left, right, 2);
    assert Absorb(b, 3) == b;
    assert Absorb(b, 2) == b;
    assert Absorb(b, 1) == b;
  }

  /** `0, 1, 2, 3, 1, 2, 2, 2` is standard. */
  lemma ShelfStandard(b: seq<int>)
    requires b == [0, 1, 2, 3, 1, 2, 2, 2]
    ensures StandardForm(b) == b
  {
    assert PassA(b) == b by {
      NormalPassA(b);
    }
    ShelfScan(b);
    ShelfBlock(b, 4);
  }

  /** Pass B on `0, 1, 2, 3, 1, 2, 2, 2, 0, 1, 2, 2, 1`: the pair of 2s at
      the end is followed by a 1, so nothing is absorbed, and the scan rises
      to the fall at position 8. */
  lemma LongRise(a: seq<int>)
    requires a == [0, 1, 2, 3, 1, 2, 2, 2, 0, 1, 2, 2, 1]
    ensures Grounded(a) && BelowIndex(a, 11) && BelowIndex(a, 8)
    ensures Collapse(a, 12, 13) == Collapse(a, 9, 13)
  {
    assert !Absorbs(a, 11, 12);
    assert !Absorbs(a, 11, 11);
    assert Absorb(a, 11) == a;
    assert Collapse(a, 12, 13) == Collapse(a, 11, 13);
    CollapseStep(a, 11, 13);
    CollapseStep(a, 10, 13);
  }

  /** At that fall the only earlier 0 is the first element, so the
      domination rule takes the block of the first eight elements. */
  lemma LongFall(a: seq<int>)
    requires a == [0, 1, 2, 3, 1, 2, 2, 2, 0, 1, 2, 2, 1]
    ensures Grounded(a) && BelowIndex(a, 7)
    ensures Collapse(a, 9, 13) == Dominate(a, 8, 0, 13)
  {
    assert Absorb(a, 8) == a;
    assert LastIndexOf(a, 0, 1) == 0;
    assert LastIndexOf(a, 0, 4) == 0;
    assert LastIndexOf(a, 0, 8) == 0;
  }

  /** That block, `0, 1, 2, 3, 1, 2, 2, 2`, is standard and larger than the
      `0, 1, 2, 2, 1` after it, so it is kept. */
  lemma LongBlock(a: seq<int>, b: seq<int>)
    requires a == [0, 1, 2, 3, 1, 2, 2, 2, 0, 1, 2, 2, 1]
    requires b == [0, 1, 2, 3, 1, 2, 2, 2]
    ensures Grounded(a) && BelowIndex(a, 7)
    ensures Dominate(a, 8, 0, 13) == Collapse(a, 8, 13)
  {
    var left, right := a[0..8], a[8..];
    assert Iota(0) + left == b;
    ShelfStandard(b);
    KeptBlock(left, right, 3);
  }

  /** The pairs of 2s at positions 5 to 7 are followed by a 0, so nothing
      is absorbed. */
  lemma LongPlateau(a: seq<int>)
    requires a == [0, 1, 2, 3, 1, 2, 2, 2, 0, 1, 2, 2, 1]
    ensures Grounded(a) && BelowIndex(a, 7)
    ensures Collapse(a, 8, 13) == Collapse(a, 6, 13)
  {
    assert !Absorbs(a, 7, 8);
    assert !Absorbs(a, 7, 7);
    assert Absorb(a, 7) == a;
    assert Collapse(a, 8, 13) == Collapse(a, 7, 13);
    assert !Absorbs(a, 6, 8);
    assert !Absorbs(a, 6, 7);
    assert !Absorbs(a, 6, 6);
    assert Absorb(a, 6) == a;
  }

  /** Then the scan rises to the fall at position 4, where the latest
      earlier 1 is at position 1. */
  lemma LongMiddle(a: seq<int>)
    requires a == [0, 1, 2, 3, 1, 2, 2, 2, 0, 1, 2, 2, 1]
    ensures Grounded(a) && BelowIndex(a, 5) && BelowIndex(a, 3)
    ensures Collapse(a, 6, 13) == Dominate(a, 4, 1, 13)
  {
    CollapseStep(a, 6, 13);
    LongFallAtFour(a);
  }

  lemma LongFallAtFour(a: seq<int>)
    requires a == [0, 1, 2, 3, 1, 2, 2, 2, 0, 1, 2, 2, 1]
    ensures Grounded(a) && BelowIndex(a, 4) && BelowIndex(a, 3)
    ensures Collapse(a, 5, 13) == Dominate(a, 4, 1, 13)
  {
    assert Absorb(a, 4) == a;
    assert LastIndexOf(a, 1, 2) == 1;
    assert LastIndexOf(a, 1, 4) == 1;
  }

  /** There the block `1, 2, 3` is standard and larger than what follows
      it, so it is kept, and the rest of the scan rises. */
  lemma LongHead(a: seq<int>, n: nat)
    requires a == [0, 1, 2, 3, 1, 2, 2, 2, 0, 1, 2, 2, 1] && n == 4
    ensures Grounded(a) && BelowIndex(a, 3)
    ensures Dominate(a, 4, 1, 13) == a
  {
    var left, right := a[1..4], a[4..];
    assert StandardForm(Iota(1) + left) == Iota(1) + left by {
      assert Iota(1) + left == Iota(n);
      IotaIsStandard(n);
    }
    KeptBlock(left, right, 2);
    assert Absorb(a, 3) == a;
    assert Absorb(a, 2) == a;
    assert Absorb(a, 1) == a;
  }

  /** `0, 1, 2, 3, 1, 2, 2, 2, 0, 1, 2, 2, 1` is standard: Pass B tests two
      blocks for domination and keeps both, and absorbs nothing. */
  lemma LongStandard(a: seq<int>)
    requires a == [0, 1, 2, 3, 1, 2, 2, 2, 0, 1, 2, 2, 1]
    ensures StandardForm(a) == a
  {
    assert PassA(a) == a by {
      NormalPassA(a);
    }
    LongCollapse(a);
  }

  /** Pass B gives `0, 1, 2, 3, 1, 2, 2, 2, 0, 1, 2, 2, 1` back unchanged. */
  lemma LongCollapse(a: seq<int>)
    requires a == [0, 1, 2, 3, 1, 2, 2, 2, 0, 1, 2, 2, 1]
    ensures Grounded(a) && BelowIndex(a, 11)
    ensures Collapse(a, 12, 13) == a
  {
    LongTail(a);
    LongFront(a);
  }

  /** The scan from the end to position 8 changes nothing. */
  lemma LongTail(a: seq<int>)
    requires a == [0, 1, 2, 3, 1, 2, 2, 2, 0, 1, 2, 2, 1]
    ensures Grounded(a) && BelowIndex(a, 11) && BelowIndex(a, 7)
    ensures Collapse(a, 12, 13) == Collapse(a, 8, 13)
  {
    LongRise(a);
    LongKept(a);
  }

  /** At the fall at position 8 the block of the first eight elements is
      kept. */
  lemma LongKept(a: seq<int>)
    requires a == [0, 1, 2, 3, 1, 2, 2, 2, 0, 1, 2, 2, 1]
    ensures Grounded(a) && BelowIndex(a, 8) && BelowIndex(a, 7)
    ensures Collapse(a, 9, 13) == Collapse(a, 8, 13)
  {
    LongFall(a);
    LongBlock(a, [0, 1, 2, 3, 1, 2, 2, 2]);
  }

  /** The scan from position 8 to the start changes nothing. */
  lemma LongFront(a: seq<int>)
    requires a == [0, 1, 2, 3, 1, 2, 2, 2, 0, 1, 2, 2, 1]
    ensures Grounded(a) && BelowIndex(a, 7)
    ensures Collapse(a, 8, 13) == a
  {
    LongPlateau(a);
    LongMiddle(a);
    LongHead(a, 4);
  }

  /** `prim` on `0, 1, 2, 3, 1` before a 2: a climb turns `3` into `w^3`,
      the suffix `1, 2, 3` from the rightmost 1 is added in front as `w^w`,
      and a last climb wraps the sum. */
  lemma ShelfPrim(p: seq<int>, q: seq<int>, a: string, c: string)
    requires p == [0, 1, 2, 3, 1] && q == [1, 2, 3]
    requires a == "w^w" && c == "w^3"
    ensures Prim(p, 2, "3") == "w^(" + (a + "+" + c) + ")"
  {
    assert OmegaTo("3") == c;
    assert p[..4] == [0, 1, 2, 3];
    assert Prim(p, 2, "3") == Prim([0, 1, 2, 3], 1, c);
    var r := [0, 1, 2, 3];
    assert LastIndexOf(r, 1, 2) == 1;
    assert LastIndexOf(r, 1, 4) == 1;
    assert r[1..] == q && r[..1] == [0];
    assert Prim(r, 1, c) == Prim([0], 1, PrimSeq(AsElems(q)) + "+" + c);
    CheckAsElems(q);
    RisingThreeOrdinal(q, 3);
    WrapSum(a, c);
  }

  /** `0, 1, 2, 3, 1, 2, 2, 2` is `w^(w^w+w^3)`: the plateau of three 2s
      gives the finite term 3. */
  lemma ShelfOrdinal(b: seq<int>, a: string, c: string)
    requires b == [0, 1, 2, 3, 1, 2, 2, 2]
    requires a == "w^w" && c == "w^3"
    ensures Decompose(b) == "w^(" + (a + "+" + c) + ")"
  {
    ShelfStandard(b);
    OrdinalOfFinish(b);
    assert LastIndexNotOf(b, 2, 5) == 4;
    assert LastIndexNotOf(b, 2, 6) == 4;
    assert LastIndexNotOf(b, 2, 7) == 4;
    FinishCases(b, 4);
    assert b[..5] == [0, 1, 2, 3, 1];
    assert NatToString(3) == "3";
    ShelfPrim([0, 1, 2, 3, 1], [1, 2, 3], a, c);
  }

  /** `prim` on the first twelve elements before the final 1: the suffix
      `1, 2, 2` from the rightmost 1 is `w^2`, added in front of `1`. */
  lemma LongSum(p: seq<int>, q: seq<int>, d: string)
    requires p == [0, 1, 2, 3, 1, 2, 2, 2, 0, 1, 2, 2] && q == [1, 2, 2]
    requires d == "w^2+1"
    ensures Prim(p, 1, "1") == Prim(p[..9], 1, d)
  {
    assert LastIndexOf(p, 1, 10) == 9;
    assert LastIndexOf(p, 1, 12) == 9;
    assert p[9..] == q;
    CheckAsElems(q);
    SquareOrdinal(q, [0, 1, 1]);
    assert "w^2" + "+" + "1" == d;
  }

  /** Then the 0 at position 8 makes a climb, and the additive step puts
      the whole first block in front of it. */
  lemma LongClimb(p: seq<int>, b: seq<int>, d: string, e: string)
    requires p == [0, 1, 2, 3, 1, 2, 2, 2, 0] && b == [0, 1, 2, 3, 1, 2, 2, 2]
    requires d == "w^2+1" && e == "w^(w^2+1)"
    ensures Prim(p, 1, d) == PrimSeq(AsElems(b)) + "+" + e
  {
    assert '+' in d;
    assert OmegaTo(d) == e;
    assert p[..8] == b;
    assert Prim(p, 1, d) == Prim(b, 0, e);
    assert LastIndexOf(b, 0, 1) == 0;
    assert LastIndexOf(b, 0, 4) == 0;
    assert LastIndexOf(b, 0, 8) == 0;
    assert b[0..] == b;
  }

  /** The decomposer starts `prim` on the first twelve elements, the
      final 1 being a plateau of one. */
  lemma LongFinish(a: seq<int>, p: seq<int>)
    requires a == [0, 1, 2, 3, 1, 2, 2, 2, 0, 1, 2, 2, 1]
    requires p == [0, 1, 2, 3, 1, 2, 2, 2, 0, 1, 2, 2]
    ensures OrdinalOf(a) == Prim(p, 1, "1")
  {
    OrdinalOfFinish(a);
    assert LastIndexNotOf(a, 1, 12) == 11;
    FinishCases(a, 11);
    assert NatToString(1) == "1";
    assert a[..12] == p;
  }

  /** `prim` on the first twelve elements before the final 1 is
      `w^(w^w+w^3)+w^(w^2+1)`. */
  lemma LongPrim(p: seq<int>, b: seq<int>, f: string)
    requires p == [0, 1, 2, 3, 1, 2, 2, 2, 0, 1, 2, 2]
    requires b == [0, 1, 2, 3, 1, 2, 2, 2]
    requires f == "w^(w^w+w^3)"
    ensures Prim(p, 1, "1") == f + "+" + "w^(w^2+1)"
  {
    LongSum(p, [1, 2, 2], "w^2+1");
    assert p[..9] == [0, 1, 2, 3, 1, 2, 2, 2, 0];
    LongClimb(p[..9], b, "w^2+1", "w^(w^2+1)");
    FirstBlockOrdinal(b, f);
  }

  /** The first block handed back to `primseq` is `w^(w^w+w^3)`. */
  lemma FirstBlockOrdinal(b: seq<int>, f: string)
    requires b == [0, 1, 2, 3, 1, 2, 2, 2]
    requires f == "w^(w^w+w^3)"
    ensures PrimSeq(AsElems(b)) == f
  {
    CheckAsElems(b);
    ShelfOrdinal(b, "w^w", "w^3");
  }

  /** The standard list of `0123122201221` is `w^(w^w+w^3)+w^(w^2+1)`. */
  lemma LongOrdinal(a: seq<int>, b: seq<int>, f: string)
    requires a == [0, 1, 2, 3, 1, 2, 2, 2, 0, 1, 2, 2, 1]
    requires b == [0, 1, 2, 3, 1, 2, 2, 2]
    requires f == "w^(w^w+w^3)"
    ensures OrdinalOf(a) == f + "+" + "w^(w^2+1)"
  {
    var p := [0, 1, 2, 3, 1, 2, 2, 2, 0, 1, 2, 2];
    LongFinish(a, p);
    LongPrim(p, b, f);
  }

  lemma LongText(f: string)
    requires f == "w^(w^w+w^3)"
    ensures f + "+" + "w^(w^2+1)" == "w^(w^w+w^3)+w^(w^2+1)"
  {
  }

  /** `0123122201221` is `w^(w^w+w^3)+w^(w^2+1)`. Its standardisation
      tests two blocks for domination and keeps both, and the decomposer
      builds it with climbs and additive steps. */
  lemma LongExample(t: string)
    requires t == "0123122201221"
    ensures PrimSeq(TextElems(t)) == "w^(w^w+w^3)+w^(w^2+1)"
  {
    var xs := DigitValues(t);
    DigitsOutcome(t);
    assert xs == [0, 1, 2, 3, 1, 2, 2, 2, 0, 1, 2, 2, 1];
    LongStandard(xs);
    LongOrdinal(xs, [0, 1, 2, 3, 1, 2, 2, 2], "w^(w^w+w^3)");
    LongText("w^(w^w+w^3)");
  }
}
