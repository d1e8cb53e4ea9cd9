/** The canonicaliser of primitive sequences (`standard` and `stand` in
    primseq.py), written as functions. The imperative versions in module
    CanonicalImpl are proved to compute them, and the ordinal decomposer
    uses them.

    `stand` runs two passes. Pass A renormalises depths: it rebases the list
    at an offset and makes every rise a rise by one. Pass B deletes blocks
    that do not change the ordinal. `standard` repeats `stand` while the list
    keeps getting shorter. */
module Canonical {

  /** What every result of the canonicaliser looks like: not empty, first
      depth 0, no negative depth. */
  predicate Grounded(s: seq<int>) {
    |s| > 0 && s[0] == 0 && forall k :: 0 <= k < |s| ==> 0 <= s[k]
  }

  // ---------------------------------------------------------------------
  // Pass A: depth normalisation

  /** The offset in force at step `i` of Pass A. It starts at the first
      element; a step whose element lies below the offset makes that element
      the offset of the following steps. */
  function Offset(x: seq<int>, i: nat): int
    requires 0 < |x| && i <= |x|
  {
    if i == 0 then x[0]
    else
      var o := Offset(x, i - 1);
      if x[i - 1] - o < 0 then x[i - 1] else o
  }

  /** The raw depth `n` of step `i`: the element minus the offset, or 0 when
      the element lies below the offset. */
  function Raw(x: seq<int>, i: nat): (n: int)
    requires i < |x|
    ensures n >= 0
  {
    var r := x[i] - Offset(x, i);
    if r < 0 then 0 else r
  }

  /** The canonical depth a falling step gets: scanning back from `j`, the
      depth of the latest element whose raw depth (against the current
      offset `off`) equals `n`, or one more than the depth of the latest
      element below `n`, whichever comes first. */
  function FallDepth(x: seq<int>, st: seq<int>, j: int, n: int, off: int): (d: int)
    requires 0 <= j < |st| <= |x|
    requires forall k :: 0 <= k < |st| ==> 0 <= st[k] <= k
    requires exists k :: 0 <= k <= j && x[k] - off <= n
    ensures 0 <= d <= j + 1
    decreases j
  {
    if x[j] - off == n then st[j]
    else if x[j] - off < n then st[j] + 1
    else FallDepth(x, st, j - 1, n, off)
  }

  /** The canonical depth Pass A appends at step `i`, given the depths `st`
      of the steps before it. */
  function NextDepth(x: seq<int>, st: seq<int>, i: nat): (d: int)
    requires i < |x| && |st| == i
    requires forall k :: 0 <= k < i ==> 0 <= st[k] <= k
    ensures 0 <= d <= i
  {
    var n := Raw(x, i);
    var prev := if i == 0 then 0 else Raw(x, i - 1);
    if n == prev then (if i == 0 then 0 else st[i - 1])
    else if n > prev then (assert i > 0; st[i - 1] + 1)
    else
      OffsetIsEarlier(x, i);
      var off := Offset(x, i);
      assert exists k :: 0 <= k <= i - 1 && x[k] - off <= n;
      FallDepth(x, st, i - 1, n, off)
  }

  /** The first `i` depths Pass A produces. */
  function Depths(x: seq<int>, i: nat): (st: seq<int>)
    requires 0 < |x| && i <= |x|
    ensures |st| == i
    ensures forall k :: 0 <= k < i ==> 0 <= st[k] <= k
  {
    if i == 0 then []
    else
      var st := Depths(x, i - 1);
      st + [NextDepth(x, st, i - 1)]
  }

  /** Pass A of `stand` (primseq.py:204-229). */
  function PassA(x: seq<int>): (a: seq<int>)
    requires 0 < |x|
    ensures |a| == |x| && Grounded(a)
    ensures forall k :: 0 <= k < |a| ==> a[k] <= k
  {
    Depths(x, |x|)
  }

  /** The offset at step `i` is the least element before step `i` (the first
      element at step 0), so it is always one of those elements. */
  lemma {:induction false} OffsetIsEarlier(x: seq<int>, i: nat)
    requires 0 < |x| && i <= |x|
    ensures i > 0 ==> exists k :: 0 <= k < i && x[k] == Offset(x, i)
    ensures forall k :: 0 <= k < i ==> Offset(x, i) <= x[k]
    ensures i == 0 ==> Offset(x, i) == x[0]
  {
    if i == 1 {
      assert x[0] == Offset(x, 1);
    } else if i > 1 {
      OffsetIsEarlier(x, i - 1);
      if x[i - 1] - Offset(x, i - 1) < 0 {
        assert x[i - 1] == Offset(x, i);
      } else {
        var k :| 0 <= k < i - 1 && x[k] == Offset(x, i - 1);
        assert x[k] == Offset(x, i);
      }
    }
  }

  lemma {:induction false} DepthsPrefix(x: seq<int>, i: nat, m: nat)
    requires 0 < |x| && i <= m <= |x|
    ensures Depths(x, m)[..i] == Depths(x, i)
    decreases m - i
  {
    if i < m {
      DepthsPrefix(x, i, m - 1);
      assert Depths(x, m)[..m - 1] == Depths(x, m - 1);
    }
  }

  /** How Pass A moves from one depth to the next (primseq.py:214-228): a
      repeated raw depth copies the previous canonical depth, any rise of the
      raw depth is a rise of exactly one, and a fall takes the depth of the
      latest element at the same raw depth, or one more than that of the
      latest element below it. */
  lemma PassASteps(x: seq<int>, i: nat)
    requires 0 < i < |x|
    ensures Raw(x, i) == Raw(x, i - 1) ==> PassA(x)[i] == PassA(x)[i - 1]
    ensures Raw(x, i) > Raw(x, i - 1) ==> PassA(x)[i] == PassA(x)[i - 1] + 1
    ensures Raw(x, i) < Raw(x, i - 1) ==>
      exists j :: 0 <= j < i - 1 && x[j] - Offset(x, i) <= Raw(x, i)
        && (forall t :: j < t < i ==> x[t] - Offset(x, i) > Raw(x, i))
        && PassA(x)[i] == PassA(x)[j] + (if x[j] - Offset(x, i) == Raw(x, i) then 0 else 1)
  {
    var a := PassA(x);
    DepthsPrefix(x, i + 1, |x|);
    DepthsPrefix(x, i, |x|);
    var st := Depths(x, i);
    assert a[i] == NextDepth(x, st, i);
    assert a[..i] == st;
    if Raw(x, i) < Raw(x, i - 1) {
      OffsetIsEarlier(x, i);
      OffsetIsEarlier(x, i - 1);
      var off := Offset(x, i);
      assert Offset(x, i) == Offset(x, i - 1);
      var k0 :| 0 <= k0 < i && x[k0] == off;
      var m := FallDepthFinds(x, st, i - 1, Raw(x, i), off, k0);
      assert a[i] == a[m] + (if x[m] - off == Raw(x, i) then 0 else 1);
    }
  }

  /** The backward scan of a falling step always stops at an element it can
      use, and which one it is. */
  lemma {:induction false} FallDepthFinds(x: seq<int>, st: seq<int>, j: int, n: int, off: int, k0: int)
    returns (m: int)
    requires 0 <= j < |st| <= |x|
    requires forall k :: 0 <= k < |st| ==> 0 <= st[k] <= k
    requires 0 <= k0 <= j && x[k0] - off <= n
    requires x[j] - off > n
    ensures k0 <= m < j && x[m] - off <= n
    ensures forall t :: m < t <= j ==> x[t] - off > n
    ensures FallDepth(x, st, j, n, off) == st[m] + (if x[m] - off == n then 0 else 1)
    decreases j
  {
    assert FallDepth(x, st, j, n, off) == FallDepth(x, st, j - 1, n, off);
    if x[j - 1] - off > n {
      m := FallDepthFinds(x, st, j - 1, n, off, k0);
    } else {
      m := j - 1;
    }
  }

  /** The list `x` with `c` added to every element. */
  function Shift(x: seq<int>, c: int): (y: seq<int>)
    ensures |y| == |x| && forall k :: 0 <= k < |x| ==> y[k] == x[k] + c
  {
    seq(|x|, k requires 0 <= k < |x| => x[k] + c)
  }

  lemma {:induction false} ShiftOffset(x: seq<int>, c: int, i: nat)
    requires 0 < |x| && i <= |x|
    ensures Offset(Shift(x, c), i) == Offset(x, i) + c
  {
    if i > 0 {
      ShiftOffset(x, c, i - 1);
    }
  }

  lemma {:induction false} ShiftFallDepth(x: seq<int>, c: int, st: seq<int>, j: int, n: int, off: int)
    requires 0 <= j < |st| <= |x|
    requires forall k :: 0 <= k < |st| ==> 0 <= st[k] <= k
    requires exists k :: 0 <= k <= j && x[k] - off <= n
    ensures exists k :: 0 <= k <= j && Shift(x, c)[k] - (off + c) <= n
    ensures FallDepth(Shift(x, c), st, j, n, off + c) == FallDepth(x, st, j, n, off)
    decreases j
  {
    var k :| 0 <= k <= j && x[k] - off <= n;
    assert Shift(x, c)[k] - (off + c) <= n;
    if x[j] - off > n {
      ShiftFallDepth(x, c, st, j - 1, n, off);
    }
  }

  lemma ShiftNextDepth(x: seq<int>, c: int, st: seq<int>, i: nat)
    requires i < |x| && |st| == i
    requires forall k :: 0 <= k < i ==> 0 <= st[k] <= k
    ensures NextDepth(Shift(x, c), st, i) == NextDepth(x, st, i)
  {
    var y := Shift(x, c);
    ShiftOffset(x, c, i);
    assert Raw(y, i) == Raw(x, i);
    if i > 0 {
      ShiftOffset(x, c, i - 1);
      assert Raw(y, i - 1) == Raw(x, i - 1);
      if Raw(x, i) < Raw(x, i - 1) {
        OffsetIsEarlier(x, i);
        ShiftFallDepth(x, c, st, i - 1, Raw(x, i), Offset(x, i));
      }
    }
  }

  lemma {:induction false} ShiftDepths(x: seq<int>, c: int, i: nat)
    requires 0 < |x| && i <= |x|
    ensures Depths(Shift(x, c), i) == Depths(x, i)
  {
    if i > 0 {
      ShiftDepths(x, c, i - 1);
      ShiftNextDepth(x, c, Depths(x, i - 1), i - 1);
    }
  }

  /** Pass A rebases at the offset: adding a constant to every element does
      not change its result, so `[1,2,3]` normalises like `[0,1,2]`. */
  lemma PassAIgnoresBase(x: seq<int>, c: int)
    requires 0 < |x|
    ensures PassA(Shift(x, c)) == PassA(x)
  {
    ShiftDepths(x, c, |x|);
  }

  /** A list that starts at 0, has no negative element and never rises by
      more than one: the shape Pass A gives its results. */
  predicate Normal(x: seq<int>) {
    |x| > 0 && x[0] == 0 && forall k :: 0 < k < |x| ==> 0 <= x[k] <= x[k - 1] + 1
  }

  lemma {:induction false} NormalOffset(x: seq<int>, i: nat)
    requires Normal(x) && i <= |x|
    ensures Offset(x, i) == 0
  {
    if i > 0 {
      NormalOffset(x, i - 1);
    }
  }

  lemma {:induction false} NormalDepths(x: seq<int>, i: nat)
    requires Normal(x) && i <= |x|
    ensures Depths(x, i) == x[..i]
  {
    if i > 0 {
      NormalDepths(x, i - 1);
      NormalNextDepth(x, Depths(x, i - 1), i - 1);
      assert x[..i] == x[..i - 1] + [x[i - 1]];
    }
  }

  /** On a normal list each step of Pass A gives back the element. */
  lemma NormalNextDepth(x: seq<int>, st: seq<int>, i: nat)
    requires Normal(x) && i < |x| && st == x[..i]
    requires forall k :: 0 <= k < i ==> 0 <= st[k] <= k
    ensures NextDepth(x, st, i) == x[i]
  {
    NormalOffset(x, i);
    var n := Raw(x, i);
    assert n == x[i];
    if i > 0 {
      NormalOffset(x, i - 1);
      assert Raw(x, i - 1) == x[i - 1];
      if n < x[i - 1] {
        var m := FallDepthFinds(x, st, i - 1, n, 0, 0);
        assert x[m + 1] > n;
      }
    }
  }

  /** Pass A leaves a list of its own shape as it is: `[0, 1, 0, 1, 2]` is
      its own depth list. */
  lemma NormalPassA(x: seq<int>)
    requires Normal(x)
    ensures PassA(x) == x
  {
    NormalDepths(x, |x|);
  }

  // ---------------------------------------------------------------------
  // Pass B: canonical collapse

  /** The absorption scan (primseq.py:236-244): starting at `j`, the first
      element that differs from `st[i]` is larger than it. */
  function Absorbs(st: seq<int>, i: nat, j: nat): bool
    requires i < |st| && j <= |st|
    decreases |st| - j
  {
    if j == |st| then false
    else if st[j] < st[i] then false
    else if st[j] > st[i] then true
    else Absorbs(st, i, j + 1)
  }

  /** A block at depth `st[i]` is absorbed exactly when the run of that depth
      starting at `i` is followed by a larger depth, not by a smaller one or
      by the end of the list. */
  lemma {:induction false} AbsorbsMeaning(st: seq<int>, i: nat, j: nat)
    requires i <= j <= |st| && i < |st|
    requires forall k :: i <= k < j ==> st[k] == st[i]
    ensures Absorbs(st, i, j) <==>
      exists m :: j <= m < |st| && st[m] > st[i] && forall k :: i <= k < m ==> st[k] == st[i]
    decreases |st| - j
  {
    if j < |st| && st[j] == st[i] {
      AbsorbsMeaning(st, i, j + 1);
    } else if j < |st| && st[j] < st[i] {
      forall m | j <= m < |st| && st[m] > st[i]
        ensures !(forall k :: i <= k < m ==> st[k] == st[i])
      {
        assert st[j] != st[i];
      }
    }
  }

  /** The last index below `i` holding `v`, or -1 (primseq.py:246-247). */
  function LastIndexOf(s: seq<int>, v: int, i: nat): (j: int)
    requires i <= |s|
    ensures -1 <= j < i
    ensures j >= 0 ==> s[j] == v
    ensures forall k :: j < k < i ==> s[k] != v
  {
    if i == 0 then -1 else if s[i - 1] == v then i - 1 else LastIndexOf(s, v, i - 1)
  }

  /** `list(range(n))`. */
  function Iota(n: nat): (r: seq<int>)
    ensures |r| == n && forall k :: 0 <= k < n ==> r[k] == k
  {
    seq(n, k requires 0 <= k < n => k)
  }

  /** Python's slice `s[n:]`, empty when `n` is past the end. */
  function Drop(s: seq<int>, n: nat): (r: seq<int>)
    ensures |r| == if n <= |s| then |s| - n else 0
    ensures n <= |s| ==> r == s[n..]
  {
    if n <= |s| then s[n..] else []
  }

  /** The term-by-term comparison loop of primseq.py:256-263 from position
      `k` on; the result is the final `(found, equal)`. */
  function Scan(left: seq<int>, right: seq<int>, k: nat, found: bool): (bool, bool)
    requires k <= |left|
    decreases |left| - k
  {
    if k == |left| then (found, true)
    else if |right| < k + 1 then Scan(left, right, k + 1, found)
    else if left[k] > right[k] then (found, false)
    else Scan(left, right, k + 1, found || left[k] < right[k])
  }

  /** Whether the left block is dominated by the right part
      (primseq.py:254-266). */
  function Dominates(left: seq<int>, right: seq<int>): bool
  {
    var (found, equal) := Scan(left, right, 0, false);
    found || (equal && !found && |left| < |right| && right[|left|] > right[0])
  }

  lemma {:induction false} ScanMeaning(l: seq<int>, r: seq<int>, k: nat, f: bool)
    requires k <= |l|
    ensures Scan(l, r, k, f).1 <==> forall t :: k <= t < |l| && t < |r| ==> l[t] <= r[t]
    ensures Scan(l, r, k, f).0 <==> (f ||
      exists m :: k <= m < |l| && m < |r| && l[m] < r[m] && forall t :: k <= t < m ==> l[t] <= r[t])
    decreases |l| - k
  {
    if k < |l| {
      ScanMeaning(l, r, k + 1, f || (k < |r| && l[k] < r[k]));
      if k < |r| && l[k] > r[k] {
        assert !(forall t :: k <= t < |l| && t < |r| ==> l[t] <= r[t]);
      }
    }
  }

  /** The left block is dominated exactly when, over their common length,
      some term of the left block is smaller than the right one's with no
      larger term before it, or when the left block is a proper prefix of
      the right part and the right part rises right after it. */
  lemma DominatesMeaning(l: seq<int>, r: seq<int>)
    ensures Dominates(l, r) <==>
      (exists m :: 0 <= m < |l| && m < |r| && l[m] < r[m] && forall t :: 0 <= t < m ==> l[t] <= r[t])
      || (|l| < |r| && l == r[..|l|] && r[|l|] > r[0])
  {
    ScanMeaning(l, r, 0, false);
    var (found, equal) := Scan(l, r, 0, false);
    if equal && !found && |l| < |r| {
      forall t | 0 <= t < |l| ensures l[t] == r[t] {
        assert forall u :: 0 <= u < t ==> l[u] <= r[u];
      }
    }
  }

  /** The absorption rule at position `i` (primseq.py:235-244): an equal
      pair followed by a larger depth before any smaller one loses its left
      element. */
  function Absorb(st: seq<int>, i: nat): (st1: seq<int>)
    requires 1 <= i && i + 1 < |st|
    ensures i < |st1| && |st| - 1 <= |st1| <= |st|
    ensures st1[..i - 1] == st[..i - 1]
    ensures forall k :: i - 1 <= k < |st1| ==> st1[k] == st[k + |st| - |st1|]
    ensures |st1| < |st| <==> st[i - 1] == st[i] && Absorbs(st, i, i)
    ensures Grounded(st) ==> Grounded(st1)
    ensures BelowIndex(st, i - 1) ==> BelowIndex(st1, i - 1)
  {
    if st[i - 1] == st[i] && Absorbs(st, i, i) then
      var st1 := st[..i - 1] + st[i..];
      assert forall k :: 0 <= k < i - 1 ==> st1[k] == st[k];
      st1
    else st
  }

  /** The depths before position `n` are at most their index, as Pass A
      leaves them. */
  predicate BelowIndex(s: seq<int>, n: int) {
    forall k :: 0 <= k < n && k < |s| ==> s[k] <= k
  }

  /** The `while i > 1` loop of Pass B (primseq.py:232-271) from loop head
      `h`. `bound` is the length of the list `stand` was called with. The
      depths before `h - 1` are still those of Pass A. */
  function Collapse(st: seq<int>, h: nat, bound: nat): (r: seq<int>)
    requires Grounded(st) && |st| <= bound && h < |st|
    requires BelowIndex(st, h - 1)
    ensures Grounded(r) && |r| <= |st|
    decreases bound, 0, h, 0
  {
    if h <= 1 then st else Descend(Absorb(st, h - 1), h - 1, bound)
  }

  /** One step of Pass B at `i`, after absorption: when `st[i - 1]` is
      deeper than `st[i]` and an earlier element sits at the depth of
      `st[i]`, the domination rule applies; otherwise the scan moves left. */
  function Descend(st: seq<int>, i: nat, bound: nat): (r: seq<int>)
    requires Grounded(st) && |st| <= bound && 1 <= i < |st|
    requires BelowIndex(st, i - 1)
    ensures Grounded(r) && |r| <= |st|
    decreases bound, 0, i, 2
  {
    if st[i - 1] <= st[i] then Collapse(st, i, bound)
    else
      var j := LastIndexOf(st, st[i], i);
      if j < 0 then Collapse(st, i, bound)
      else Dominate(st, i, j, bound)
  }

  /** The domination rule (primseq.py:245-271) for the block `st[j..i]`,
      where `j` is the latest position before `i` at the depth of `st[i]`
      and `st[i - 1]` is deeper. The zero-extended block is standardised
      first; if that changes it, the standardised block is spliced in and
      `stand` ends. Otherwise a dominated block is deleted and the scan goes
      on from `j`. */
  function Dominate(st: seq<int>, i: nat, j: nat, bound: nat): (r: seq<int>)
    requires Grounded(st) && |st| <= bound && j + 1 < i < |st|
    requires st[j] == st[i]
    requires BelowIndex(st, i - 1)
    ensures Grounded(r) && |r| <= |st|
    decreases bound, 0, i, 1
  {
    var left, right := st[j..i], st[i..];
    var ext := Iota(left[0]) + left;
    var std := StandardForm(ext);
    if ext != std then st[..j] + Drop(std, left[0]) + right
    else if !Dominates(left, right) then Collapse(st, i, bound)
    else if j == 0 then right
    else
      var st' := st[..j] + right;
      assert BelowIndex(st', j - 1) by {
        forall k | 0 <= k < j - 1 ensures st'[k] == st[k] {}
      }
      Collapse(st', j, bound)
  }

  /** Pass B passes over a rising step without changing anything: no
      equal pair to absorb, no fall to dominate. */
  lemma CollapseStep(st: seq<int>, h: nat, bound: nat)
    requires Grounded(st) && |st| <= bound && 1 < h < |st| && BelowIndex(st, h - 1)
    requires st[h - 2] < st[h - 1]
    ensures Collapse(st, h, bound) == Collapse(st, h - 1, bound)
  {
    assert Absorb(st, h - 1) == st;
    assert Descend(st, h - 1, bound) == Collapse(st, h - 1, bound);
  }

  /** `stand` (primseq.py:203-272): Pass A, then Pass B. */
  function OnePass(x: seq<int>): (r: seq<int>)
    requires 0 < |x|
    ensures Grounded(r) && |r| <= |x|
    decreases |x|, 1, 0, 0
  {
    var a := PassA(x);
    Collapse(a, |a| - 1, |x|)
  }

  /** `standard` (primseq.py:191-200): `stand` again as long as the list
      keeps getting shorter. */
  function StandardForm(x: seq<int>): (r: seq<int>)
    requires 0 < |x|
    ensures Grounded(r) && |r| <= |x|
    decreases |x|, 2, 0, 0
  {
    var st := OnePass(x);
    if |st| < |x| then StandardForm(st) else st
  }

  /** How many times `standard` calls `stand` on `x`. */
  function Rounds(x: seq<int>): (n: nat)
    requires 0 < |x|
    decreases |x|
  {
    var st := OnePass(x);
    if |st| < |x| then 1 + Rounds(st) else 1
  }

  /** `standard` calls `stand` at most once per element of its input, and
      what it returns is `stand` of a list that `stand` did not shorten. */
  lemma {:induction false} StandardFormTerminates(x: seq<int>)
    requires 0 < |x|
    ensures 1 <= Rounds(x) <= |x|
    ensures exists y :: 0 < |y| <= |x| && |OnePass(y)| == |y| && StandardForm(x) == OnePass(y)
    decreases |x|
  {
    var st := OnePass(x);
    if |st| < |x| {
      StandardFormTerminates(st);
    } else {
      assert 0 < |x| <= |x| && |OnePass(x)| == |x| && StandardForm(x) == OnePass(x);
    }
  }

  // ---------------------------------------------------------------------
  // The shape of standard lists: "start from 0, increment with 1"
  // (primseq.py:192-195)

  lemma {:induction false} OffsetSteady(x: seq<int>, m: nat, t: nat)
    requires m < t < |x|
    requires forall u :: m < u <= t ==> x[u] > x[m]
    ensures Offset(x, t) == Offset(x, m + 1) <= x[m]
    ensures Raw(x, m) == x[m] - Offset(x, m + 1)
    ensures Raw(x, t) == x[t] - Offset(x, m + 1)
    decreases t
  {
    if t > m + 1 {
      OffsetSteady(x, m, t - 1);
    }
  }

  /** In Pass A an element followed only by larger elements up to `t` lies
      strictly shallower than the one at `t`. */
  lemma {:induction false} RiseAbove(x: seq<int>, m: nat, t: nat)
    requires m < t < |x|
    requires forall u :: m < u <= t ==> x[u] > x[m]
    ensures PassA(x)[m] < PassA(x)[t]
    decreases t
  {
    var a := PassA(x);
    OffsetSteady(x, m, t);
    PassASteps(x, t);
    if t > m + 1 {
      OffsetSteady(x, m, t - 1);
      RiseAbove(x, m, t - 1);
      if Raw(x, t) < Raw(x, t - 1) {
        var off := Offset(x, t);
        var j :| 0 <= j < t - 1 && x[j] - off <= Raw(x, t)
          && (forall s :: j < s < t ==> x[s] - off > Raw(x, t))
          && a[t] == a[j] + (if x[j] - off == Raw(x, t) then 0 else 1);
        if j > m {
          RiseAbove(x, m, j);
        } else {
          assert j == m;
        }
      }
    }
  }

  /** Pass A always yields a list that starts at 0 and rises by at most one
      at each step. */
  lemma PassANormal(x: seq<int>)
    requires 0 < |x|
    ensures Normal(PassA(x))
  {
    var a := PassA(x);
    forall k | 0 < k < |a| ensures a[k] <= a[k - 1] + 1 {
      PassASteps(x, k);
      if Raw(x, k) < Raw(x, k - 1) {
        var off := Offset(x, k);
        var j :| 0 <= j < k - 1 && x[j] - off <= Raw(x, k)
          && (forall t :: j < t < k ==> x[t] - off > Raw(x, k))
          && a[k] == a[j] + (if x[j] - off == Raw(x, k) then 0 else 1);
        RiseAbove(x, j, k - 1);
      }
    }
  }

  /** `x` begins with `0, 1, ..., w - 1` and has nothing below `w` after
      that: the zero-extended blocks Pass B standardises have this form. */
  predicate Rooted(x: seq<int>, w: nat) {
    w < |x| && (forall k :: 0 <= k < w ==> x[k] == k) && forall k :: w <= k < |x| ==> w <= x[k]
  }

  /** In a normal list, to get from below `v` up to `v` or more a step must
      land on `v`. */
  lemma {:induction false} NoClimbPast(st: seq<int>, t: nat, b: nat, v: int)
    requires Normal(st) && t < b < |st| && v <= st[b]
    requires forall c :: t < c <= b ==> st[c] != v
    ensures v <= st[t]
    decreases b - t
  {
    if t + 1 < b {
      NoClimbPast(st, t + 1, b, v);
    }
  }

  /** Deleting `st[a..b]` between two equal depths keeps a normal list
      normal and keeps its root. */
  lemma CutNormal(st: seq<int>, a: nat, b: nat, w: nat)
    requires Normal(st) && Rooted(st, w) && w <= a < b < |st| && st[a] == st[b]
    ensures Normal(st[..a] + st[b..]) && Rooted(st[..a] + st[b..], w)
  {
    var r := st[..a] + st[b..];
    forall k | 0 < k < |r| ensures 0 <= r[k] <= r[k - 1] + 1 {
      if k < a {
        assert r[k] == st[k] && r[k - 1] == st[k - 1];
      } else if k == a {
        assert r[k] == st[b] && r[k - 1] == st[a - 1];
      } else {
        assert r[k] == st[k - a + b] && r[k - 1] == st[k - 1 - a + b];
      }
    }
    forall k | w <= k < |r| ensures w <= r[k] {
      if k < a {
        assert r[k] == st[k];
      } else {
        assert r[k] == st[k - a + b];
      }
    }
    assert r[0] == st[0] by {
      if a == 0 {
        assert r[0] == st[b];
      }
    }
  }

  /** Putting the standardised block `std[u..]` in place of `st[j..i]`,
      where both ends of the old block are at depth `u`, keeps the list
      normal and keeps its root. */
  lemma SpliceNormal(st: seq<int>, j: nat, i: nat, std: seq<int>, u: nat, w: nat)
    requires Normal(st) && Rooted(st, w) && w <= j < i < |st| && st[j] == u && st[i] == u
    requires Normal(std) && Rooted(std, u)
    ensures Normal(st[..j] + std[u..] + st[i..]) && Rooted(st[..j] + std[u..] + st[i..], w)
  {
    SpliceSteps(st, j, i, std, u);
    SpliceFloor(st, j, i, std, u, w);
  }

  /** The splice never rises by more than one nor goes negative. */
  lemma SpliceSteps(st: seq<int>, j: nat, i: nat, std: seq<int>, u: nat)
    requires Normal(st) && j < i < |st| && st[j] == u && st[i] == u
    requires Normal(std) && Rooted(std, u)
    ensures forall k :: 0 < k < |st[..j] + std[u..] + st[i..]| ==>
      0 <= (st[..j] + std[u..] + st[i..])[k] <= (st[..j] + std[u..] + st[i..])[k - 1] + 1
  {
    var b := std[u..];
    var r := st[..j] + b + st[i..];
    var e := j + |b|;
    forall k | 0 < k < |r| ensures 0 <= r[k] <= r[k - 1] + 1 {
      if k < j {
        assert r[k] == st[k] && r[k - 1] == st[k - 1];
      } else if k == j {
        assert r[k] == std[u] && r[k - 1] == st[j - 1];
        if u > 0 {
          assert std[u - 1] == u - 1;
        }
      } else if k < e {
        assert r[k] == std[u + k - j] && r[k - 1] == std[u + k - j - 1];
      } else if k == e {
        assert r[k] == st[i] && r[k - 1] == std[|std| - 1];
      } else {
        assert r[k] == st[i + k - e] && r[k - 1] == st[i + k - e - 1];
      }
    }
  }

  /** The splice starts at 0, keeps the first `w` depths and goes no lower
      than `w` after them. */
  lemma SpliceFloor(st: seq<int>, j: nat, i: nat, std: seq<int>, u: nat, w: nat)
    requires Normal(st) && Rooted(st, w) && w <= j < i < |st| && st[j] == u
    requires Normal(std) && Rooted(std, u)
    ensures (st[..j] + std[u..] + st[i..])[0] == 0
    ensures Rooted(st[..j] + std[u..] + st[i..], w)
  {
    var b := std[u..];
    var r := st[..j] + b + st[i..];
    var e := j + |b|;
    forall k | w <= k < |r| ensures w <= r[k] {
      if k < j {
        assert r[k] == st[k];
      } else if k < e {
        assert r[k] == std[u + k - j];
      } else {
        assert r[k] == st[i + k - e];
      }
    }
    assert r[0] == 0 by {
      if j == 0 {
        assert r[0] == std[u] && u == st[0];
      } else {
        assert r[0] == st[0];
      }
    }
    assert forall k :: 0 <= k < w ==> r[k] == st[k];
  }

  /** The block the domination rule zero-extends is normal and rooted at
      its first depth: nothing inside it is shallower than its ends. */
  lemma ExtendedRooted(st: seq<int>, j: nat, i: nat)
    requires Normal(st) && j < i < |st| && st[j] == st[i] < st[i - 1]
    requires forall k :: j < k < i ==> st[k] != st[i]
    ensures Normal(Iota(st[j]) + st[j..i]) && Rooted(Iota(st[j]) + st[j..i], st[j])
  {
    var u := st[j];
    var ext := Iota(u) + st[j..i];
    forall k | u <= k < |ext| ensures u <= ext[k] {
      var t := j + k - u;
      assert ext[k] == st[t];
      if j < t < i - 1 {
        NoClimbPast(st, t, i - 1, u);
      }
    }
    forall k | 0 < k < |ext| ensures 0 <= ext[k] <= ext[k - 1] + 1 {
      if k > u {
        assert ext[k] == st[j + k - u] && ext[k - 1] == st[j + k - u - 1];
      }
    }
  }

  lemma {:induction false} CollapseNormal(st: seq<int>, h: nat, bound: nat, w: nat)
    requires Grounded(st) && |st| <= bound && h < |st| && BelowIndex(st, h - 1)
    requires Normal(st) && Rooted(st, w)
    ensures Normal(Collapse(st, h, bound)) && Rooted(Collapse(st, h, bound), w)
    decreases bound, 0, h, 0
  {
    if h > 1 {
      AbsorbNormal(st, h - 1, w);
      DescendNormal(Absorb(st, h - 1), h - 1, bound, w);
    }
  }

  /** Absorbing an equal pair keeps a list normal and rooted. */
  lemma AbsorbNormal(st: seq<int>, i: nat, w: nat)
    requires 1 <= i && i + 1 < |st|
    requires Normal(st) && Rooted(st, w)
    ensures Normal(Absorb(st, i)) && Rooted(Absorb(st, i), w)
  {
    var st1 := Absorb(st, i);
    if |st1| < |st| {
      assert st[i - 1] == st[i];
      assert w <= i - 1;
      assert st1 == st[..i - 1] + st[i..];
      CutNormal(st, i - 1, i, w);
    }
  }

  lemma {:induction false} DescendNormal(st: seq<int>, i: nat, bound: nat, w: nat)
    requires Grounded(st) && |st| <= bound && 1 <= i < |st| && BelowIndex(st, i - 1)
    requires Normal(st) && Rooted(st, w)
    ensures Normal(Descend(st, i, bound)) && Rooted(Descend(st, i, bound), w)
    decreases bound, 0, i, 2
  {
    if st[i - 1] <= st[i] {
      CollapseNormal(st, i, bound, w);
    } else {
      var j := LastIndexOf(st, st[i], i);
      if j < 0 {
        CollapseNormal(st, i, bound, w);
      } else {
        DominateNormal(st, i, j, bound, w);
      }
    }
  }

  lemma {:induction false} DominateNormal(st: seq<int>, i: nat, j: nat, bound: nat, w: nat)
    requires Grounded(st) && |st| <= bound && j + 1 < i < |st| && BelowIndex(st, i - 1)
    requires st[j] == st[i] < st[i - 1] && forall k :: j < k < i ==> st[k] != st[i]
    requires Normal(st) && Rooted(st, w)
    ensures Normal(Dominate(st, i, j, bound)) && Rooted(Dominate(st, i, j, bound), w)
    decreases bound, 0, i, 1
  {
    var left, right := st[j..i], st[i..];
    var u := left[0];
    var ext := Iota(u) + left;
    assert w <= j;
    assert |ext| < bound;
    ExtendedRooted(st, j, i);
    StandardRooted(ext, u);
    var std := StandardForm(ext);
    if ext != std {
      SplicedNormal(st, i, j, bound, w, std);
    } else if !Dominates(left, right) {
      CollapseNormal(st, i, bound, w);
    } else if j == 0 {
      CutNormal(st, j, i, w);
      assert right == st[..0] + st[i..];
    } else {
      DropNormal(st, j, i, w);
      CollapseNormal(st[..j] + right, j, bound, w);
    }
  }

  /** Dropping a dominated block keeps the list normal and rooted, and the
      depths before it are still those of Pass A. */
  lemma DropNormal(st: seq<int>, j: nat, i: nat, w: nat)
    requires Normal(st) && Rooted(st, w) && w <= j < i < |st| && st[j] == st[i]
    requires BelowIndex(st, i - 1)
    ensures Normal(st[..j] + st[i..]) && Rooted(st[..j] + st[i..], w)
    ensures BelowIndex(st[..j] + st[i..], j - 1)
  {
    CutNormal(st, j, i, w);
    var st' := st[..j] + st[i..];
    forall k | 0 <= k < j - 1 ensures st'[k] == st[k] {}
  }

  /** When standardising the zero-extended block changes it, `stand` ends at
      once with the standardised block spliced in (primseq.py:251-253):
      what precedes the block and what follows it are kept as they are, and
      in between comes the standardised block without its zero extension. */
  lemma DominateSplice(st: seq<int>, i: nat, j: nat, bound: nat)
    requires Grounded(st) && |st| <= bound && j + 1 < i < |st| && BelowIndex(st, i - 1)
    requires st[j] == st[i]
    requires Iota(st[j]) + st[j..i] != StandardForm(Iota(st[j]) + st[j..i])
    ensures var r := Dominate(st, i, j, bound);
      j + (|st| - i) <= |r| && r[..j] == st[..j] && r[|r| - (|st| - i)..] == st[i..]
      && r[j..|r| - (|st| - i)] == Drop(StandardForm(Iota(st[j]) + st[j..i]), st[j])
  {
    var std := StandardForm(Iota(st[j]) + st[j..i]);
    var r := st[..j] + Drop(std, st[j]) + st[i..];
    assert Dominate(st, i, j, bound) == r;
    assert r[..j] == st[..j];
    assert r[|r| - (|st| - i)..] == st[i..];
    assert r[j..|r| - (|st| - i)] == Drop(std, st[j]);
  }

  /** The splice keeps the list normal and rooted, given that the
      standardised block is. */
  lemma SplicedNormal(st: seq<int>, i: nat, j: nat, bound: nat, w: nat, std: seq<int>)
    requires Grounded(st) && |st| <= bound && j + 1 < i < |st| && BelowIndex(st, i - 1)
    requires st[j] == st[i] && Normal(st) && Rooted(st, w) && w <= j
    requires std == StandardForm(Iota(st[j]) + st[j..i]) && Iota(st[j]) + st[j..i] != std
    requires Normal(std) && Rooted(std, st[j])
    ensures Normal(Dominate(st, i, j, bound)) && Rooted(Dominate(st, i, j, bound), w)
  {
    assert Dominate(st, i, j, bound) == st[..j] + std[st[j]..] + st[i..];
    SpliceNormal(st, j, i, std, st[j], w);
  }

  lemma {:induction false} OnePassRooted(x: seq<int>, w: nat)
    requires Normal(x) && Rooted(x, w)
    ensures Normal(OnePass(x)) && Rooted(OnePass(x), w)
    decreases |x|, 1, 0, 0
  {
    NormalPassA(x);
    CollapseNormal(x, |x| - 1, |x|, w);
  }

  lemma {:induction false} StandardRooted(x: seq<int>, w: nat)
    requires Normal(x) && Rooted(x, w)
    ensures Normal(StandardForm(x)) && Rooted(StandardForm(x), w)
    decreases |x|, 2, 0, 0
  {
    OnePassRooted(x, w);
    var st := OnePass(x);
    if |st| < |x| {
      StandardRooted(st, w);
    }
  }

  /** What `standard` returns starts from 0 and increments by at most one
      (primseq.py:192-195), whatever list it is given. */
  lemma StandardFormNormal(x: seq<int>)
    requires 0 < |x|
    ensures Normal(StandardForm(x))
  {
    var a := PassA(x);
    PassANormal(x);
    CollapseNormal(a, |a| - 1, |x|, 0);
    var st := OnePass(x);
    if |st| < |x| {
      StandardRooted(st, 0);
    }
  }

  // ---------------------------------------------------------------------
  // `standard` reaches a fixed point

  /** On a normal list Pass B either gives the list back unchanged or makes
      it shorter: an absorption or a cut deletes elements, and a splice puts
      in a block that standardising has shortened. */
  lemma {:induction false} CollapseShrinks(st: seq<int>, h: nat, bound: nat)
    requires Grounded(st) && |st| <= bound && h < |st| && BelowIndex(st, h - 1)
    requires Normal(st)
    ensures Collapse(st, h, bound) == st || |Collapse(st, h, bound)| < |st|
    decreases bound, 0, h, 0
  {
    if h > 1 {
      var st1 := Absorb(st, h - 1);
      if |st1| == |st| {
        assert st1 == st;
        DescendShrinks(st, h - 1, bound);
      }
    }
  }

  lemma {:induction false} DescendShrinks(st: seq<int>, i: nat, bound: nat)
    requires Grounded(st) && |st| <= bound && 1 <= i < |st| && BelowIndex(st, i - 1)
    requires Normal(st)
    ensures Descend(st, i, bound) == st || |Descend(st, i, bound)| < |st|
    decreases bound, 0, i, 2
  {
    if st[i - 1] <= st[i] {
      CollapseShrinks(st, i, bound);
    } else {
      var j := LastIndexOf(st, st[i], i);
      if j < 0 {
        CollapseShrinks(st, i, bound);
      } else {
        DominateShrinks(st, i, j, bound);
      }
    }
  }

  lemma {:induction false} DominateShrinks(st: seq<int>, i: nat, j: nat, bound: nat)
    requires Grounded(st) && |st| <= bound && j + 1 < i < |st| && BelowIndex(st, i - 1)
    requires st[j] == st[i] < st[i - 1] && forall k :: j < k < i ==> st[k] != st[i]
    requires Normal(st)
    ensures Dominate(st, i, j, bound) == st || |Dominate(st, i, j, bound)| < |st|
    decreases bound, 0, i, 1
  {
    var left, right := st[j..i], st[i..];
    var u := left[0];
    var ext := Iota(u) + left;
    assert |ext| < bound;
    ExtendedRooted(st, j, i);
    StandardShrinks(ext);
    var std := StandardForm(ext);
    if ext != std {
      assert |Drop(std, u)| < |left|;
    } else if !Dominates(left, right) {
      CollapseShrinks(st, i, bound);
    }
  }

  lemma {:induction false} OnePassShrinks(x: seq<int>)
    requires Normal(x)
    ensures OnePass(x) == x || |OnePass(x)| < |x|
    decreases |x|, 1, 0, 0
  {
    NormalPassA(x);
    CollapseShrinks(x, |x| - 1, |x|);
  }

  /** `standard` of a normal list is the list itself or a shorter one. */
  lemma {:induction false} StandardShrinks(x: seq<int>)
    requires Normal(x)
    ensures StandardForm(x) == x || |StandardForm(x)| < |x|
    decreases |x|, 2, 0, 0
  {
    OnePassShrinks(x);
  }

  /** What `standard` returns is a fixed point of `stand`. */
  lemma {:induction false} StandardFixed(x: seq<int>)
    requires 0 < |x|
    ensures OnePass(StandardForm(x)) == StandardForm(x)
    decreases |x|
  {
    var st := OnePass(x);
    if |st| < |x| {
      StandardFixed(st);
    } else {
      UnshortenedFixed(x);
    }
  }

  /** When `stand` does not shorten its input, its result is Pass A's
      output, which `stand` then gives back unchanged. */
  lemma UnshortenedFixed(x: seq<int>)
    requires 0 < |x| && |OnePass(x)| == |x|
    ensures OnePass(OnePass(x)) == OnePass(x)
  {
    UnshortenedPassA(x);
    PassAFixed(x);
  }

  /** Pass B can leave Pass A's output as long as it was only by leaving
      it as it was. */
  lemma UnshortenedPassA(x: seq<int>)
    requires 0 < |x| && |OnePass(x)| == |x|
    ensures OnePass(x) == PassA(x)
  {
    var a := PassA(x);
    PassANormal(x);
    CollapseShrinks(a, |a| - 1, |x|);
    assert OnePass(x) == Collapse(a, |a| - 1, |x|);
  }

  /** If Pass B leaves Pass A's output as it was, so does `stand` run on
      that output. */
  lemma PassAFixed(x: seq<int>)
    requires 0 < |x| && OnePass(x) == PassA(x)
    ensures OnePass(PassA(x)) == PassA(x)
  {
    var a := PassA(x);
    PassANormal(x);
    NormalPassA(a);
    assert OnePass(a) == Collapse(a, |a| - 1, |a|);
  }

  /** `standard` is idempotent: a standard list is its own standard form. */
  lemma StandardIdempotent(x: seq<int>)
    requires 0 < |x|
    ensures StandardForm(StandardForm(x)) == StandardForm(x)
  {
    StandardFixed(x);
  }

  // ---------------------------------------------------------------------
  // Constant lists

  function Zeros(n: nat): (z: seq<int>)
    ensures |z| == n && forall k :: 0 <= k < n ==> z[k] == 0
  {
    seq(n, k requires 0 <= k < n => 0)
  }

  predicate IsConstant(x: seq<int>) {
    forall k :: 0 <= k < |x| ==> x[k] == x[0]
  }

  lemma {:induction false} ConstantDepths(x: seq<int>, i: nat)
    requires 0 < |x| && i <= |x| && IsConstant(x)
    ensures Depths(x, i) == Zeros(i)
    ensures i < |x| ==> Offset(x, i) == x[0]
  {
    if i > 0 {
      ConstantDepths(x, i - 1);
      assert Raw(x, i - 1) == 0;
    }
  }

  lemma {:induction false} ZerosNotAbsorbed(st: seq<int>, i: nat, j: nat)
    requires i < |st| && j <= |st|
    requires forall k :: 0 <= k < |st| ==> st[k] == 0
    ensures !Absorbs(st, i, j)
    decreases |st| - j
  {
    if j < |st| {
      ZerosNotAbsorbed(st, i, j + 1);
    }
  }

  /** Pass B leaves a list of zeros as it is: nothing is absorbed and no
      element is deeper than its neighbour. */
  lemma {:induction false} CollapseZeros(st: seq<int>, h: nat, bound: nat)
    requires Grounded(st) && |st| <= bound && h < |st| && BelowIndex(st, h - 1)
    requires forall k :: 0 <= k < |st| ==> st[k] == 0
    ensures Collapse(st, h, bound) == st
    decreases h
  {
    if h > 1 {
      ZerosNotAbsorbed(st, h - 1, h - 1);
      assert Absorb(st, h - 1) == st;
      CollapseZeros(st, h - 1, bound);
    }
  }

  /** A constant list of length `n` standardises to `n` zeros. */
  lemma ConstantStandardForm(x: seq<int>)
    requires 0 < |x| && IsConstant(x)
    ensures StandardForm(x) == Zeros(|x|)
  {
    var a := PassA(x);
    ConstantDepths(x, |x|);
    assert forall k :: 0 <= k < |a| ==> a[k] == 0;
    CollapseZeros(a, |a| - 1, |x|);
    assert OnePass(x) == a;
  }

  // ---------------------------------------------------------------------
  // Rising lists

  predicate Increasing(x: seq<int>) {
    forall a, b :: 0 <= a < b < |x| ==> x[a] < x[b]
  }

  lemma {:induction false} IncreasingDepths(x: seq<int>, i: nat)
    requires 0 < |x| && i <= |x| && Increasing(x)
    ensures Depths(x, i) == Iota(i)
    ensures i < |x| ==> Offset(x, i) == x[0]
  {
    if i > 0 {
      IncreasingDepths(x, i - 1);
      assert Raw(x, i - 1) == x[i - 1] - x[0];
      assert i - 1 > 0 ==> Raw(x, i - 2) == x[i - 2] - x[0];
      assert NextDepth(x, Iota(i - 1), i - 1) == i - 1;
      assert Iota(i - 1) + [i - 1] == Iota(i);
    }
  }

  lemma {:induction false} CollapseIota(st: seq<int>, h: nat, bound: nat)
    requires Grounded(st) && |st| <= bound && h < |st| && BelowIndex(st, h - 1)
    requires forall k :: 0 <= k < |st| ==> st[k] == k
    ensures Collapse(st, h, bound) == st
    decreases h
  {
    if h > 1 {
      assert Absorb(st, h - 1) == st;
      CollapseIota(st, h - 1, bound);
    }
  }

  /** A strictly increasing list standardises to `0, 1, ..., n - 1`: it is
      rebased at 0 and every rise becomes a rise by one, so `[1, 2, 3]` and
      `[0, 2, 4]` both become `[0, 1, 2]` (primseq.py:194-195). */
  lemma IncreasingIsStandard(x: seq<int>)
    requires 0 < |x| && Increasing(x)
    ensures StandardForm(x) == Iota(|x|)
  {
    var a := PassA(x);
    IncreasingDepths(x, |x|);
    assert forall k :: 0 <= k < |a| ==> a[k] == k;
    CollapseIota(a, |a| - 1, |x|);
    assert OnePass(x) == a;
  }

  /** In particular `0, 1, ..., n - 1` is already standard. */
  lemma IotaIsStandard(n: nat)
    requires 0 < n
    ensures StandardForm(Iota(n)) == Iota(n)
  {
    IncreasingIsStandard(Iota(n));
  }
}
