/** The canonicaliser as primseq.py writes it: `stand` and `standard` as
    methods with loops that rebuild the list step by step, each proved to
    compute the function of module Canonical that specifies it. `stand`'s
    two passes are separate methods here; together they are `stand`. */
module CanonicalImpl {
  import opened Canonical

  /** Pass A of `stand` (primseq.py:204-229): one sweep that renormalises
      every depth, keeping the offset, the offset for the next step and the
      previous raw depth in variables. */
  method StandPassA(x: seq<int>) returns (st: seq<int>)
    requires 0 < |x|
    ensures st == PassA(x)
  {
    st := [];
    var offset := x[0];
    var nextoffset := offset;
    var prev := 0;
    var i := 0;
    while i < |x|
      invariant 0 <= i <= |x|
      invariant st == Depths(x, i)
      invariant nextoffset == Offset(x, i)
      invariant prev == if i == 0 then 0 else Raw(x, i - 1)
    {
      offset := nextoffset;
      var n := x[i] - offset;
      if n < 0 {
        n := 0;
        nextoffset := x[i];
      }
      assert n == Raw(x, i) && nextoffset == Offset(x, i + 1);
      ghost var st0 := st;
      if n == prev {
        if i == 0 {
          st := st + [0];
        } else {
          st := st + [st[i - 1]];
        }
      } else if n > prev {
        st := st + [st[i - 1] + 1];
      } else {
        // Scan back for the latest element at or below the raw depth `n`.
        OffsetIsEarlier(x, i);
        var j := i;
        while j > 0
          invariant 0 <= j <= i && st == st0
          invariant exists k :: 0 <= k < j && x[k] - offset <= n
          invariant FallDepth(x, st0, i - 1, n, offset) == FallDepth(x, st0, j - 1, n, offset)
        {
          j := j - 1;
          if n == x[j] - offset {
            st := st + [st[j]];
            break;
          }
          if n > x[j] - offset {
            st := st + [st[j] + 1];
            break;
          }
        }
      }
      assert st == st0 + [NextDepth(x, st0, i)];
      prev := n;
      i := i + 1;
    }
  }

  /** Pass B of `stand` (primseq.py:230-272) on the depths `a` of Pass A,
      where `bound` is the length of the list `stand` was called with. The
      loop walks `i` leftwards, applying absorption and then domination at
      each position; a normalised block ends it early. */
  method StandPassB(a: seq<int>, bound: nat) returns (r: seq<int>)
    requires Grounded(a) && |a| <= bound && BelowIndex(a, |a| - 2)
    ensures r == Collapse(a, |a| - 1, bound)
    decreases bound, 1
  {
    var st := a;
    var i := |st| - 1;
    while i > 1
      invariant Grounded(st) && |st| <= bound && 0 <= i < |st|
      invariant BelowIndex(st, i - 1)
      invariant Collapse(st, i, bound) == Collapse(a, |a| - 1, bound)
      decreases i
    {
      i := i - 1;
      st := AbsorbAt(st, i);
      var done, next, ni := DominateAt(st, i, bound);
      if done {
        r := next;
        return;
      }
      st, i := next, ni;
    }
    r := st;
  }

  /** The absorption step at `i` (primseq.py:235-244): an equal pair
      followed by a deeper element before a shallower one loses its left
      element. */
  method AbsorbAt(st: seq<int>, i: nat) returns (st1: seq<int>)
    requires 1 <= i && i + 1 < |st|
    ensures st1 == Absorb(st, i)
  {
    st1 := st;
    if st1[i - 1] == st1[i] {
      var j := i;
      while j < |st1|
        invariant i <= j <= |st1| && st1 == st
        invariant Absorbs(st, i, j) == Absorbs(st, i, i)
        decreases |st1| - j
      {
        if st1[j] < st1[i] {
          break;
        }
        if st1[j] > st1[i] {
          st1 := st1[..i - 1] + st1[i..];
          break;
        }
        j := j + 1;
      }
    }
  }

  /** The domination step at `i` (primseq.py:245-271). When `st[i - 1]` is
      deeper than `st[i]`, the block from the latest earlier element `j` at
      the depth of `st[i]` up to `i` is first normalised on its own; if that
      changes it, `stand` returns with the normalised block spliced in
      (`done`). Otherwise a dominated block is deleted and the loop of
      Pass B goes on from `j`, or `stand` returns the rest when `j` is 0.
      In every other case the list and the position stay as they are. */
  method DominateAt(st: seq<int>, i: nat, bound: nat) returns (done: bool, next: seq<int>, ni: nat)
    requires Grounded(st) && |st| <= bound && 1 <= i < |st|
    requires BelowIndex(st, i - 1)
    ensures done ==> next == Descend(st, i, bound)
    ensures !done ==> Grounded(next) && |next| <= bound && ni <= i && ni < |next|
    ensures !done ==> BelowIndex(next, ni - 1) && Collapse(next, ni, bound) == Descend(st, i, bound)
    decreases bound, 0
  {
    done, next, ni := false, st, i;
    if st[i - 1] > st[i] {
      var j := i;
      while j > 0
        invariant 0 <= j <= i
        invariant LastIndexOf(st, st[i], i) == LastIndexOf(st, st[i], j)
        decreases j
      {
        j := j - 1;
        if st[j] == st[i] {
          var left := st[j..i];
          var right := st[i..];
          var dummy := Iota(left[0]);
          assert |dummy + left| < bound;
          var std := Standard(dummy + left);
          if dummy + left != std {
            done, next := true, st[..j] + Drop(std, left[0]) + right;
            return;
          }
          assert Descend(st, i, bound) == Dominate(st, i, j, bound);
          var found := Compare(left, right);
          if found {
            if j == 0 {
              done, next := true, right;
              return;
            }
            next, ni := st[..j] + right, j;
          }
          break;
        }
      }
    }
  }

  /** The comparison of the block `left` with what follows it, `right`
      (primseq.py:254-265): `left` is dominated when, position by position,
      it first falls below `right` before it ever rises above it, or when it
      is a prefix of `right` and the element of `right` after that prefix is
      deeper than the first. */
  method Compare(left: seq<int>, right: seq<int>) returns (found: bool)
    ensures found == Dominates(left, right)
  {
    found := false;
    var equal := true;
    var k := 0;
    while k < |left|
      invariant 0 <= k <= |left| && equal
      invariant Scan(left, right, k, found) == Scan(left, right, 0, false)
      decreases |left| - k
    {
      if k + 1 <= |right| {
        if left[k] < right[k] {
          found := true;
        }
        if left[k] > right[k] {
          equal := false;
          break;
        }
      }
      k := k + 1;
    }
    if equal && !found && |left| < |right| && right[|left|] > right[0] {
      found := true;
    }
  }

  /** `stand` (primseq.py:203-272): Pass A, then Pass B. */
  method Stand(x: seq<int>) returns (r: seq<int>)
    requires 0 < |x|
    ensures r == OnePass(x)
    decreases |x|, 2
  {
    var a := StandPassA(x);
    assert OnePass(x) == Collapse(a, |a| - 1, |x|);
    r := StandPassB(a, |x|);
  }

  /** `standard` (primseq.py:191-200): `stand` again while the list keeps
      getting shorter. */
  method Standard(x: seq<int>) returns (st: seq<int>)
    requires 0 < |x|
    ensures st == StandardForm(x)
    decreases |x|, 3
  {
    var s := x;
    st := Stand(s);
    while |st| < |s|
      invariant 0 < |s| <= |x|
      invariant st == OnePass(s)
      invariant StandardForm(s) == StandardForm(x)
      decreases |s|
    {
      s := st;
      st := Stand(s);
    }
  }
}
