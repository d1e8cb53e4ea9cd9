/** The ordinal decomposer (`primseq` and `prim` in primseq.py): it validates
    a primitive sequence, standardises it and writes the ordinal it stands
    for in Cantor normal form, as ASCII text such as `w^(w^w)+w^3`. */
module Ordinal {
  import opened Tokens
  import opened Canonical

  /** An element of the list `primseq` is given. Python lets it be a string
      (a token of the user's input) or an integer (a slice of a standardised
      list, when `prim` calls `primseq`). */
  datatype Elem = Int(n: int) | Str(s: string)

  const EmptyMessage := "Empty sequence"
  const NegativeMessage := "Number should be positive"
  const InvalidMessage := "Invalid number"

  /** `int(e)`: an integer is itself, a string is parsed. */
  function IntValue(e: Elem): Option<int>
  {
    match e
    case Int(n) => Some(n)
    case Str(s) => ParseInt(s)
  }

  /** The outcome of the validation loop: the numbers, or the message of the
      first element that fails. */
  datatype Checked = Numbers(xs: seq<int>) | Rejected(message: string)

  /** The validation loop of `primseq` (primseq.py:148-153), element by
      element from the left. */
  function Check(es: seq<Elem>): (c: Checked)
    ensures c.Numbers? ==> |c.xs| == |es|
    ensures c.Rejected? ==> c.message == InvalidMessage || c.message == NegativeMessage
  {
    if es == [] then Numbers([])
    else
      match IntValue(es[0])
      case None => Rejected(InvalidMessage)
      case Some(v) =>
        if v < 0 then Rejected(NegativeMessage)
        else
          match Check(es[1..])
          case Numbers(vs) => Numbers([v] + vs)
          case Rejected(m) => Rejected(m)
  }

  /** Validation hands on exactly the values of the elements, all of them
      non-negative. */
  lemma {:induction false} CheckValues(es: seq<Elem>)
    requires Check(es).Numbers?
    ensures forall k :: 0 <= k < |es| ==> IntValue(es[k]) == Some(Check(es).xs[k]) && 0 <= Check(es).xs[k]
  {
    if es != [] {
      CheckValues(es[1..]);
    }
  }

  /** Elements before position `k` all read as non-negative integers. */
  ghost predicate AcceptedBefore(es: seq<Elem>, k: int) {
    forall t :: 0 <= t < k && t < |es| ==> IntValue(es[t]).Some? && IntValue(es[t]).value >= 0
  }

  /** Acceptance of a prefix splits into acceptance of the first element
      and of the rest of the prefix. */
  lemma AcceptedShift(es: seq<Elem>, k: int)
    requires 0 < k <= |es|
    ensures AcceptedBefore(es, k) <==> AcceptedBefore(es, 1) && AcceptedBefore(es[1..], k - 1)
  {
    var rest := es[1..];
    assert forall t :: 0 <= t < k - 1 ==> rest[t] == es[t + 1];
  }

  /** Every element is accepted exactly when validation returns numbers. */
  lemma {:induction false} CheckAccepts(es: seq<Elem>)
    ensures Check(es).Numbers? <==> AcceptedBefore(es, |es|)
  {
    if es != [] {
      CheckAccepts(es[1..]);
      AcceptedShift(es, |es|);
    }
  }

  /** An element is the first that fails when every element before it is
      accepted and it is not, for the reason `m`. */
  ghost predicate FailsFirst(es: seq<Elem>, k: int, m: string) {
    0 <= k < |es| && AcceptedBefore(es, k)
    && (if m == InvalidMessage then IntValue(es[k]).None?
        else IntValue(es[k]).Some? && IntValue(es[k]).value < 0)
  }

  /** The first element that is not an integer yields "Invalid number", the
      first negative one "Number should be positive", whichever comes
      first. */
  lemma {:induction false} CheckRejects(es: seq<Elem>, m: string)
    requires m == InvalidMessage || m == NegativeMessage
    ensures Check(es) == Rejected(m) <==> exists k :: FailsFirst(es, k, m)
  {
    if es != [] {
      var rest := es[1..];
      CheckRejects(rest, m);
      if IntValue(es[0]).Some? && IntValue(es[0]).value >= 0 {
        assert AcceptedBefore(es, 1);
        if k :| FailsFirst(es, k, m) {
          AcceptedShift(es, k);
          assert FailsFirst(rest, k - 1, m);
        }
        if t :| FailsFirst(rest, t, m) {
          AcceptedShift(es, t + 1);
          assert FailsFirst(es, t + 1, m);
        }
      } else {
        forall k | 0 < k
          ensures !FailsFirst(es, k, m)
        {
          if 0 < k < |es| {
            assert !(IntValue(es[0]).Some? && IntValue(es[0]).value >= 0);
            assert !AcceptedBefore(es, k);
          }
        }
        assert FailsFirst(es, 0, m) <==> Check(es) == Rejected(m);
      }
    }
  }

  /** The integers of a list, as elements `prim` hands to `primseq`. */
  function AsElems(xs: seq<int>): (es: seq<Elem>)
    ensures |es| == |xs| && forall k :: 0 <= k < |xs| ==> es[k] == Int(xs[k])
  {
    seq(|xs|, k requires 0 <= k < |xs| => Int(xs[k]))
  }

  /** The climb step (primseq.py:169-175): the accumulated expression
      becomes an exponent of `w`, in parentheses when it is not atomic. */
  function OmegaTo(ord: string): string
  {
    if ord == "1" then "w"
    else if '+' in ord || '^' in ord then "w^(" + ord + ")"
    else "w^" + ord
  }

  /** The exponent of a power of `w` written by `OmegaTo`. */
  function ExponentOf(t: string): string
  {
    if t == "w" then "1"
    else if |t| >= 4 && t[..3] == "w^(" && t[|t| - 1] == ')' then t[3..|t| - 1]
    else if |t| >= 2 then t[2..]
    else t
  }

  /** The climb step loses nothing: the exponent can be read back from the
      power, for every accumulated expression that does not start with a
      parenthesis (none that the decomposer builds does). */
  lemma OmegaToInverse(ord: string)
    requires ord != "" && ord[0] != '('
    ensures ExponentOf(OmegaTo(ord)) == ord
  {
    var t := OmegaTo(ord);
    if ord != "1" && ('+' in ord || '^' in ord) {
      assert t[..3] == "w^(" && t[3..|t| - 1] == ord;
    } else if ord != "1" {
      assert t[2] == ord[0];
      assert t[2..] == ord;
    }
  }

  /** `primseq` (primseq.py:140-164): empty input and invalid elements give
      their messages, anything else its ordinal. */
  function PrimSeq(es: seq<Elem>): string
    decreases |es|, 3
  {
    if es == [] then EmptyMessage
    else
      match Check(es)
      case Rejected(m) => m
      case Numbers(xs) => Decompose(xs)
  }

  /** The last index below `i` whose element differs from `v`, or -1. */
  function LastIndexNotOf(s: seq<int>, v: int, i: nat): (j: int)
    requires i <= |s|
    ensures -1 <= j < i
    ensures j >= 0 ==> s[j] != v
    ensures forall k :: j < k < i ==> s[k] == v
  {
    if i == 0 then -1 else if s[i - 1] != v then i - 1 else LastIndexNotOf(s, v, i - 1)
  }

  /** The part of `primseq` after validation (primseq.py:155-164): the
      standardised list's trailing plateau gives the finite term, and the
      rest is handed to `prim`. */
  function Decompose(xs: seq<int>): string
    requires |xs| > 0
    decreases |xs|, 2
  {
    OrdinalOf(StandardForm(xs))
  }

  /** The ordinal of a standard list (primseq.py:156-163): the trailing
      plateau gives the finite term, and the rest is handed to `prim`. */
  function OrdinalOf(s: seq<int>): string
    requires |s| > 0
    decreases |s|, 1
  {
    Finish(s, LastIndexNotOf(s, s[|s| - 1], |s| - 1))
  }

  /** The end of `primseq` once `i` is known: the numeral when the whole
      list is one plateau, and `prim` on what precedes the plateau
      otherwise. */
  function Finish(s: seq<int>, i: int): string
    requires -1 <= i < |s| - 1
    decreases |s|, 0
  {
    if i < 0 then NatToString(|s|)
    else Prim(s[..i + 1], s[i + 1], NatToString(|s| - 1 - i))
  }

  /** `prim` (primseq.py:167-188): `ord` is the expression built so far for
      what follows `p`, whose next element is `num`. */
  function Prim(p: seq<int>, num: int, ord: string): string
    requires |p| > 0
    decreases |p|, 4
  {
    var last := p[|p| - 1];
    if last < num then
      var ord' := OmegaTo(ord);
      if |p| == 1 then ord' else Prim(p[..|p| - 1], last, ord')
    else
      var j := LastIndexOf(p, num, |p|);
      var i := if j < 0 then 0 else j;
      var ord' := PrimSeq(AsElems(p[i..])) + "+" + ord;
      if i == 0 then ord' else Prim(p[..i], p[i], ord')
  }

  // ---------------------------------------------------------------------
  // Properties

  /** The expressions the decomposer writes: a positive numeral, `w`, `w`
      raised to `w` or to a numeral of at least 2 without parentheses, `w`
      raised to a compound expression in parentheses, and sums. */
  datatype Notation =
    | Num(n: nat)
    | W
    | OmegaPow(e: Notation)
    | OmegaPowGroup(e: Notation)
    | Plus(l: Notation, r: Notation)

  function Text(t: Notation): string
  {
    match t
    case Num(n) => NatToString(n)
    case W => "w"
    case OmegaPow(e) => "w^" + Text(e)
    case OmegaPowGroup(e) => "w^(" + Text(e) + ")"
    case Plus(l, r) => Text(l) + "+" + Text(r)
  }

  /** A compound expression, the only kind written inside parentheses. */
  predicate IsCompound(t: Notation) {
    !t.Num? && !t.W?
  }

  predicate WellFormed(t: Notation) {
    match t
    case Num(n) => n >= 1
    case W => true
    case OmegaPow(e) => e == W || (e.Num? && e.n >= 2)
    case OmegaPowGroup(e) => WellFormed(e) && IsCompound(e)
    case Plus(l, r) => WellFormed(l) && WellFormed(r)
  }

  /** Text that is some well-formed expression written out. */
  ghost predicate IsOrdinalText(s: string) {
    exists t :: WellFormed(t) && Text(t) == s
  }

  /** An expression starts with a digit or `w`, never with a letter of a
      message. */
  lemma {:induction false} TextStart(t: Notation)
    ensures Text(t) != "" && (IsDigit(Text(t)[0]) || Text(t)[0] == 'w')
  {
    match t
    case Num(n) =>
    case W =>
    case OmegaPow(e) =>
    case OmegaPowGroup(e) =>
    case Plus(l, r) =>
      TextStart(l);
      assert Text(t)[0] == Text(l)[0];
  }

  /** Exactly the compound expressions hold a `+` or a `^`, which is what
      `OmegaTo` tests to decide on parentheses. */
  lemma TextMarks(t: Notation)
    ensures IsCompound(t) <==> '+' in Text(t) || '^' in Text(t)
  {
    var s := Text(t);
    match t
    case Num(n) =>
      assert forall k :: 0 <= k < |s| ==> IsDigit(s[k]);
    case W =>
    case OmegaPow(e) =>
      assert s[1] == '^';
    case OmegaPowGroup(e) =>
      assert s[1] == '^';
    case Plus(l, r) =>
      assert s[|Text(l)|] == '+';
  }

  lemma OrdinalTextConcat(a: string, b: string)
    requires IsOrdinalText(a) && IsOrdinalText(b)
    ensures IsOrdinalText(a + "+" + b)
  {
    var ta :| WellFormed(ta) && Text(ta) == a;
    var tb :| WellFormed(tb) && Text(tb) == b;
    assert Text(Plus(ta, tb)) == a + "+" + b;
  }

  lemma OmegaToText(ord: string)
    requires IsOrdinalText(ord)
    ensures IsOrdinalText(OmegaTo(ord))
  {
    var t :| WellFormed(t) && Text(t) == ord;
    TextMarks(t);
    if ord == "1" {
      assert Text(W) == OmegaTo(ord);
    } else if '+' in ord || '^' in ord {
      assert WellFormed(OmegaPowGroup(t));
      assert Text(OmegaPowGroup(t)) == OmegaTo(ord);
    } else {
      if t.Num? {
        ValueOfNatToString(t.n);
        assert t.n != 1;
      }
      assert WellFormed(OmegaPow(t));
      assert Text(OmegaPow(t)) == OmegaTo(ord);
    }
  }

  /** Text that starts with neither a digit nor `w`, such as every message
      of `primseq`, is no expression. */
  lemma NotOrdinalText(m: string)
    requires m != "" && !IsDigit(m[0]) && m[0] != 'w'
    ensures !IsOrdinalText(m)
  {
    if IsOrdinalText(m) {
      var t :| WellFormed(t) && Text(t) == m;
      TextStart(t);
    }
  }

  /** A list of non-negative integers is accepted as it is. */
  lemma {:induction false} CheckAsElems(xs: seq<int>)
    requires forall k :: 0 <= k < |xs| ==> 0 <= xs[k]
    ensures Check(AsElems(xs)) == Numbers(xs)
  {
    if xs != [] {
      CheckAsElems(xs[1..]);
      assert AsElems(xs)[1..] == AsElems(xs[1..]);
      assert [xs[0]] + xs[1..] == xs;
    }
  }

  /** The decomposer writes a well-formed ordinal expression. */
  lemma {:induction false} DecomposeText(xs: seq<int>)
    requires |xs| > 0
    ensures IsOrdinalText(Decompose(xs))
    decreases |xs|, 2
  {
    OrdinalOfText(StandardForm(xs));
  }

  lemma {:induction false} OrdinalOfText(s: seq<int>)
    requires |s| > 0 && forall k :: 0 <= k < |s| ==> 0 <= s[k]
    ensures IsOrdinalText(OrdinalOf(s))
    decreases |s|, 1
  {
    var last := |s| - 1;
    var i := LastIndexNotOf(s, s[last], last);
    if i >= 0 {
      var p, ord := s[..i + 1], NatToString(last - i);
      assert IsOrdinalText(Prim(p, s[i + 1], ord)) by {
        assert forall k :: 0 <= k < |p| ==> 0 <= p[k];
        NumeralIsOrdinalText(last - i);
        PrimText(p, s[i + 1], ord);
      }
    } else {
      NumeralIsOrdinalText(|s|);
    }
    OrdinalOfFinish(s);
    FinishCases(s, i);
  }

  /** One step of `OrdinalOf`, stated apart so that callers need not
      unfold the decomposer themselves. */
  lemma OrdinalOfFinish(s: seq<int>)
    requires |s| > 0
    ensures OrdinalOf(s) == Finish(s, LastIndexNotOf(s, s[|s| - 1], |s| - 1))
  {
  }

  lemma FinishCases(s: seq<int>, i: int)
    requires -1 <= i < |s| - 1
    ensures i < 0 ==> Finish(s, i) == NatToString(|s|)
    ensures i >= 0 ==> Finish(s, i) == Prim(s[..i + 1], s[i + 1], NatToString(|s| - 1 - i))
  {
  }

  lemma NumeralIsOrdinalText(n: nat)
    requires n >= 1
    ensures IsOrdinalText(NatToString(n))
  {
    assert WellFormed(Num(n)) && Text(Num(n)) == NatToString(n);
  }

  lemma {:induction false} PrimText(p: seq<int>, num: int, ord: string)
    requires |p| > 0 && forall k :: 0 <= k < |p| ==> 0 <= p[k]
    requires IsOrdinalText(ord)
    ensures IsOrdinalText(Prim(p, num, ord))
    decreases |p|, 4
  {
    var last := p[|p| - 1];
    if last < num {
      OmegaToText(ord);
      if |p| > 1 {
        PrimText(p[..|p| - 1], last, OmegaTo(ord));
      }
    } else {
      var j := LastIndexOf(p, num, |p|);
      var i := if j < 0 then 0 else j;
      CheckAsElems(p[i..]);
      DecomposeText(p[i..]);
      var ord' := PrimSeq(AsElems(p[i..])) + "+" + ord;
      OrdinalTextConcat(PrimSeq(AsElems(p[i..])), ord);
      if i > 0 {
        PrimText(p[..i], p[i], ord');
      }
    }
  }

  /** What `primseq` returns: the empty-sequence message exactly for the
      empty list, a validation message exactly when validation fails, and
      otherwise an ordinal expression, which no message is. */
  lemma PrimSeqOutcome(es: seq<Elem>)
    ensures PrimSeq(es) == EmptyMessage <==> es == []
    ensures PrimSeq(es) == InvalidMessage <==> es != [] && Check(es) == Rejected(InvalidMessage)
    ensures PrimSeq(es) == NegativeMessage <==> es != [] && Check(es) == Rejected(NegativeMessage)
    ensures es != [] && Check(es).Numbers? ==> IsOrdinalText(PrimSeq(es))
  {
    NotOrdinalText(EmptyMessage);
    NotOrdinalText(NegativeMessage);
    NotOrdinalText(InvalidMessage);
    if es != [] && Check(es).Numbers? {
      DecomposeText(Check(es).xs);
    }
  }

  /** Everything after `s[i]` equals the last element, and `s[i]` does not. */
  predicate PlateauStart(s: seq<int>, i: int) {
    0 <= i < |s| - 1 && s[i] != s[|s| - 1] && forall k :: i < k < |s| ==> s[k] == s[|s| - 1]
  }

  /** The finite term (primseq.py:156-163): when the standard list is one
      plateau of length `n` the ordinal is the numeral `n`; otherwise `i`
      is the last element off the trailing plateau, and the plateau's
      length is the expression `prim` starts from on `s[..i + 1]`. */
  lemma OrdinalPlateau(s: seq<int>) returns (i: int)
    requires |s| > 0
    ensures -1 <= i < |s| - 1
    ensures i < 0 <==> IsConstant(s)
    ensures i < 0 ==> OrdinalOf(s) == NatToString(|s|)
    ensures i >= 0 ==> PlateauStart(s, i)
    ensures i >= 0 ==> OrdinalOf(s) == Prim(s[..i + 1], s[i + 1], NatToString(|s| - 1 - i))
  {
    i := LastIndexNotOf(s, s[|s| - 1], |s| - 1);
    OrdinalOfFinish(s);
    FinishCases(s, i);
    if i < 0 {
      assert forall k :: 0 <= k < |s| ==> s[k] == s[|s| - 1];
    } else {
      assert s[i] != s[0] || s[|s| - 1] != s[0];
    }
  }

  /** A constant list of length `n`, such as `00000`, is the finite ordinal
      `n`. */
  lemma ConstantIsFinite(xs: seq<int>)
    requires |xs| > 0 && IsConstant(xs)
    ensures Decompose(xs) == NatToString(|xs|)
  {
    ConstantStandardForm(xs);
    var i := OrdinalPlateau(Zeros(|xs|));
  }

  /** The additive step of `prim` (primseq.py:180-188): the term for the
      suffix starting at the rightmost element equal to `num` (at 0 when
      there is none) is computed by `primseq` and put before `ord` with a
      `+`; `prim` goes on with what precedes that suffix, if anything. */
  lemma {:induction false} PrimAdditive(p: seq<int>, num: int, ord: string)
    requires |p| > 0 && p[|p| - 1] >= num
    ensures exists i :: (0 <= i < |p|
      && (p[i] == num || (i == 0 && forall k :: 0 <= k < |p| ==> p[k] != num))
      && (forall k :: i < k < |p| ==> p[k] != num)
      && Prim(p, num, ord) == if i == 0 then PrimSeq(AsElems(p[i..])) + "+" + ord
                              else Prim(p[..i], p[i], PrimSeq(AsElems(p[i..])) + "+" + ord))
  {
    var j := LastIndexOf(p, num, |p|);
    var i := if j < 0 then 0 else j;
    assert p[i] == num || (i == 0 && forall k :: 0 <= k < |p| ==> p[k] != num);
  }

  /** `ord` raised to `w` `k` times over: the climb steps of `prim` one
      after another. */
  function Climb(k: nat, ord: string): string
  {
    if k == 0 then ord else Climb(k - 1, OmegaTo(ord))
  }

  /** On a rising list `0, 1, ..., m - 1` followed by `m`, every step of
      `prim` is a climb (primseq.py:168-179). */
  lemma {:induction false} PrimIota(m: nat, ord: string)
    requires 0 < m
    ensures Prim(Iota(m), m, ord) == Climb(m, ord)
  {
    var p := Iota(m);
    assert p[m - 1] == m - 1;
    if m > 1 {
      assert p[..m - 1] == Iota(m - 1);
      PrimIota(m - 1, OmegaTo(ord));
    }
  }

  /** The list `0, 1, ..., n - 1` is the tower of `n - 1` omegas: `1`, `w`,
      `w^w`, `w^(w^w)`, ... */
  lemma IotaOrdinal(n: nat)
    requires 0 < n
    ensures Decompose(Iota(n)) == Climb(n - 1, "1")
  {
    var s := Iota(n);
    IotaIsStandard(n);
    assert Decompose(s) == OrdinalOf(s);
    if n == 1 {
      assert LastIndexNotOf(s, s[0], 0) == -1;
    } else {
      assert LastIndexNotOf(s, s[n - 1], n - 1) == n - 2;
      assert s[..n - 1] == Iota(n - 1);
      PrimIota(n - 1, "1");
    }
    OrdinalOfFinish(s);
    FinishCases(s, LastIndexNotOf(s, s[n - 1], n - 1));
  }
}
