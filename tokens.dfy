/** Text handling around the converter: splitting the user's input into
    tokens (`makelist`), reading a token as an integer (Python's `int`) and
    writing a natural number in decimal (Python's `str`). */
module Tokens {

  datatype Option<T> = None | Some(value: T)

  /** The characters Python 2's `str.strip` and `str.split` treat as
      whitespace: space, tab, line feed, vertical tab, form feed, carriage
      return. */
  predicate IsSpace(c: char) {
    c == ' ' || ('\t' <= c <= '\r')
  }

  predicate AllSpace(g: string) {
    forall k :: 0 <= k < |g| ==> IsSpace(g[k])
  }

  predicate IsDigit(c: char) {
    '0' <= c <= '9'
  }

  /** `s.strip()`: drops leading and trailing whitespace, and nothing
      else. */
  function Strip(s: string): (r: string)
    ensures |r| <= |s|
    ensures r == "" || (!IsSpace(r[0]) && !IsSpace(r[|r| - 1]))
    ensures exists a :: Trimmed(s, a, r)
  {
    var l := StripLeft(s);
    StripTrims(s, l, StripRight(l));
    StripRight(l)
  }

  /** Whitespace dropped from the front, then from the back, leaves the
      middle of the text with only whitespace around it. */
  lemma StripTrims(s: string, l: string, r: string)
    requires |l| <= |s| && l == s[|s| - |l|..] && AllSpace(s[..|s| - |l|])
    requires |r| <= |l| && r == l[..|r|] && AllSpace(l[|r|..])
    ensures Trimmed(s, |s| - |l|, r)
  {
    var a := |s| - |l|;
    assert r == s[a..a + |r|];
    assert s[a + |r|..] == l[|r|..];
  }

  /** `r` is `s` from position `a` on, with only whitespace around it. */
  predicate Trimmed(s: string, a: int, r: string) {
    0 <= a <= |s| - |r| && r == s[a..a + |r|] && AllSpace(s[..a]) && AllSpace(s[a + |r|..])
  }

  function StripLeft(s: string): (r: string)
    ensures r == "" || !IsSpace(r[0])
    ensures |r| <= |s| && r == s[|s| - |r|..]
    ensures AllSpace(s[..|s| - |r|])
  {
    if s != [] && IsSpace(s[0]) then StripLeft(s[1..]) else s
  }

  function StripRight(s: string): (r: string)
    ensures r == "" || !IsSpace(r[|r| - 1])
    ensures |r| <= |s| && r == s[..|r|]
    ensures AllSpace(s[|r|..])
    ensures s != "" && !IsSpace(s[0]) ==> r != "" && r[0] == s[0]
  {
    if s != [] && IsSpace(s[|s| - 1]) then StripRight(s[..|s| - 1]) else s
  }

  /** `s.replace(',', ' ')`. */
  function CommasToSpaces(s: string): (r: string)
    ensures |r| == |s|
    ensures forall k :: 0 <= k < |s| ==> r[k] == (if s[k] == ',' then ' ' else s[k])
  {
    if s == [] then [] else [if s[0] == ',' then ' ' else s[0]] + CommasToSpaces(s[1..])
  }

  /** The longest prefix of `s` holding no whitespace. */
  function Word(s: string): (w: string)
    ensures |w| <= |s| && w == s[..|w|]
    ensures forall k :: 0 <= k < |w| ==> !IsSpace(w[k])
    ensures |w| == |s| || IsSpace(s[|w|])
  {
    if s == [] || IsSpace(s[0]) then [] else [s[0]] + Word(s[1..])
  }

  /** `s.split()`: the maximal runs of non-whitespace characters, in order. */
  function Split(s: string): (ts: seq<string>)
    decreases |s|
  {
    if s == [] then []
    else if IsSpace(s[0]) then Split(s[1..])
    else var w := Word(s); [w] + Split(s[|w|..])
  }

  /** `list(s)` on a string: every character becomes a one-character token. */
  function Chars(s: string): (ts: seq<string>)
    ensures |ts| == |s|
    ensures forall k :: 0 <= k < |s| ==> ts[k] == [s[k]]
  {
    seq(|s|, k requires 0 <= k < |s| => [s[k]])
  }

  /** `makelist`: after stripping, commas become spaces; if a space is then
      present the text is split on whitespace, otherwise every character is
      a token of its own. */
  function MakeList(s: string): seq<string>
  {
    Tokenize(Separate(Strip(s)))
  }

  /** Commas become spaces only when the text holds one. */
  function Separate(t: string): string
  {
    if ',' in t then CommasToSpaces(t) else t
  }

  function Tokenize(u: string): seq<string>
  {
    if ' ' in u then Split(u) else Chars(u)
  }

  /** A token holds no whitespace and is not empty. */
  predicate IsWord(t: string) {
    t != "" && forall k :: 0 <= k < |t| ==> !IsSpace(t[k])
  }

  /** The characters of `s` that are not whitespace, in order. */
  function NonSpace(s: string): string
  {
    if s == [] then [] else (if IsSpace(s[0]) then [] else [s[0]]) + NonSpace(s[1..])
  }

  function Concat(ts: seq<string>): string
  {
    if ts == [] then [] else ts[0] + Concat(ts[1..])
  }

  /** Tokens joined with single spaces, the inverse of `Split`. */
  function Join(ts: seq<string>): string
  {
    if ts == [] then [] else if |ts| == 1 then ts[0] else ts[0] + " " + Join(ts[1..])
  }

  lemma {:induction false} NonSpaceOfWord(w: string, rest: string)
    requires forall k :: 0 <= k < |w| ==> !IsSpace(w[k])
    ensures NonSpace(w + rest) == w + NonSpace(rest)
  {
    if w != [] {
      var s := w + rest;
      assert s[0] == w[0] && !IsSpace(w[0]);
      assert s[1..] == w[1..] + rest;
      calc {
        NonSpace(s);
        [w[0]] + NonSpace(w[1..] + rest);
        { NonSpaceOfWord(w[1..], rest); }
        [w[0]] + (w[1..] + NonSpace(rest));
        { assert w == [w[0]] + w[1..]; }
        w + NonSpace(rest);
      }
    } else {
      assert w + rest == rest;
    }
  }

  /** Splitting loses exactly the whitespace: every token is a non-empty run
      of non-whitespace characters, and together they spell the text with its
      whitespace removed. */
  lemma {:induction false} SplitKeepsText(s: string)
    ensures forall k :: 0 <= k < |Split(s)| ==> IsWord(Split(s)[k])
    ensures Concat(Split(s)) == NonSpace(s)
    decreases |s|
  {
    if s == [] {
    } else if IsSpace(s[0]) {
      SplitKeepsText(s[1..]);
    } else {
      var w := Word(s);
      SplitKeepsText(s[|w|..]);
      assert s == w + s[|w|..];
      NonSpaceOfWord(w, s[|w|..]);
    }
  }

  /** The text rebuilt from its tokens and the whitespace around them:
      `gaps[0] + ts[0] + gaps[1] + ... + ts[n - 1] + gaps[n]`. */
  function Weave(gaps: seq<string>, ts: seq<string>): string
    requires |gaps| == |ts| + 1
  {
    if ts == [] then gaps[0] else gaps[0] + ts[0] + Weave(gaps[1..], ts[1..])
  }

  /** `s` is the tokens `ts` woven with the whitespace runs `gaps`: each gap
      is whitespace, the ones between two tokens are not empty, and the first
      is not empty when `s` starts with whitespace. */
  predicate Spaced(s: string, gaps: seq<string>, ts: seq<string>) {
    |gaps| == |ts| + 1
    && (forall k :: 0 <= k < |gaps| ==> AllSpace(gaps[k]))
    && (forall k :: 0 < k < |gaps| - 1 ==> gaps[k] != "")
    && (s != "" && IsSpace(s[0]) ==> gaps[0] != "")
    && s == Weave(gaps, ts)
  }

  /** Splitting keeps the whitespace runs between tokens, each one non-empty,
      so no token could be longer: the text is its tokens separated by
      whitespace, with possibly empty whitespace at both ends. */
  lemma {:induction false} SplitSpacing(s: string) returns (gaps: seq<string>)
    ensures Spaced(s, gaps, Split(s))
    decreases |s|
  {
    if s == [] {
      gaps := [""];
    } else if IsSpace(s[0]) {
      var rest := SplitSpacing(s[1..]);
      gaps := [[s[0]] + rest[0]] + rest[1..];
      SpacedSpace(s[0], s[1..], rest, Split(s[1..]));
      assert [s[0]] + s[1..] == s;
    } else {
      var w := Word(s);
      var rest := SplitSpacing(s[|w|..]);
      gaps := [""] + rest;
      SpacedWord(w, s[|w|..], rest, Split(s[|w|..]));
      assert w + s[|w|..] == s;
    }
  }

  /** A whitespace character in front joins the first gap. */
  lemma SpacedSpace(c: char, s: string, gaps: seq<string>, ts: seq<string>)
    requires IsSpace(c) && Spaced(s, gaps, ts)
    ensures Spaced([c] + s, [[c] + gaps[0]] + gaps[1..], ts)
  {
    var gaps' := [[c] + gaps[0]] + gaps[1..];
    assert gaps'[1..] == gaps[1..];
    assert AllSpace(gaps'[0]) by {
      assert forall k :: 1 <= k < |gaps'[0]| ==> gaps'[0][k] == gaps[0][k - 1];
    }
    assert Weave(gaps', ts) == [c] + Weave(gaps, ts);
  }

  /** A word in front, ended by whitespace or the end, is a new token after
      an empty first gap. */
  lemma SpacedWord(w: string, s: string, gaps: seq<string>, ts: seq<string>)
    requires w != "" && !IsSpace(w[0]) && Spaced(s, gaps, ts)
    requires (s == "" && ts == []) || (s != "" && IsSpace(s[0]))
    ensures Spaced(w + s, [""] + gaps, [w] + ts)
  {
    var gaps' := [""] + gaps;
    assert gaps'[1..] == gaps && ([w] + ts)[1..] == ts;
    assert (w + s)[0] == w[0];
    assert Weave(gaps', [w] + ts) == "" + w + Weave(gaps, ts);
  }

  lemma {:induction false} WordOfJoin(t: string, rest: string)
    requires IsWord(t)
    requires rest == [] || IsSpace(rest[0])
    ensures Word(t + rest) == t
    decreases |t|
  {
    if |t| > 1 {
      assert (t + rest)[1..] == t[1..] + rest;
      WordOfJoin(t[1..], rest);
    } else {
      assert (t + rest)[1..] == rest;
    }
  }

  /** Round trip: splitting words joined by single spaces gives the words
      back. */
  lemma {:induction false} SplitJoin(ts: seq<string>)
    requires forall k :: 0 <= k < |ts| ==> IsWord(ts[k])
    ensures Split(Join(ts)) == ts
  {
    if |ts| == 1 {
      WordOfJoin(ts[0], []);
      assert ts[0] + [] == ts[0];
      assert Join(ts)[|ts[0]|..] == [];
    } else if |ts| > 1 {
      var rest := " " + Join(ts[1..]);
      var s := ts[0] + rest;
      assert Join(ts) == s;
      WordOfJoin(ts[0], rest);
      assert s[|ts[0]|..] == rest;
      assert rest[1..] == Join(ts[1..]);
      SplitJoin(ts[1..]);
    }
  }

  /** Without comma or space every character of the stripped text is a
      token: `makelist('012')` is `['0', '1', '2']`. */
  lemma MakeListWithoutSeparator(s: string)
    requires ',' !in Strip(s) && ' ' !in Strip(s)
    ensures |MakeList(s)| == |Strip(s)|
    ensures forall k :: 0 <= k < |Strip(s)| ==> MakeList(s)[k] == [Strip(s)[k]]
  {
  }

  /** With a separator the text is split on whitespace once commas are
      spaces, so `'0,1 2'` and `'0 1 2'` give the same tokens. */
  lemma MakeListWithSeparator(s: string)
    requires ',' in Strip(s) || ' ' in Strip(s)
    ensures MakeList(s) == Split(CommasToSpaces(Strip(s)))
  {
    SeparatedTokens(Strip(s));
  }

  lemma SeparatedTokens(t: string)
    requires ',' in t || ' ' in t
    ensures Tokenize(Separate(t)) == Split(CommasToSpaces(t))
  {
    var u := CommasToSpaces(t);
    if ',' !in t {
      assert forall k :: 0 <= k < |t| ==> u[k] == t[k];
      assert u == t;
      assert Separate(t) == u;
    } else {
      var k :| 0 <= k < |t| && t[k] == ',';
      assert u[k] == ' ';
      assert Separate(t) == u;
    }
    assert ' ' in u;
  }

  // Decimal numerals

  function DigitChar(d: nat): (c: char)
    requires d < 10
    ensures IsDigit(c)
  {
    ('0' as int + d) as char
  }

  function DigitValue(c: char): (d: nat)
    requires IsDigit(c)
    ensures d < 10 && DigitChar(d) == c
  {
    (c as int - '0' as int) as nat
  }

  function ValueOf(s: string): nat
    requires forall k :: 0 <= k < |s| ==> IsDigit(s[k])
  {
    if s == [] then 0 else 10 * ValueOf(s[..|s| - 1]) + DigitValue(s[|s| - 1])
  }

  predicate AllDigits(s: string) {
    forall k :: 0 <= k < |s| ==> IsDigit(s[k])
  }

  /** Python's `str(n)` for a natural number: its decimal numeral, no
      leading zeros. */
  function NatToString(n: nat): (s: string)
    ensures s != "" && AllDigits(s)
    ensures s[0] == '0' ==> n == 0
  {
    if n < 10 then [DigitChar(n)] else NatToString(n / 10) + [DigitChar(n % 10)]
  }

  /** An unsigned decimal numeral: at least one digit. */
  function ParseNat(s: string): (r: Option<nat>)
    ensures r.Some? <==> s != "" && AllDigits(s)
  {
    if s != "" && AllDigits(s) then Some(ValueOf(s)) else None
  }

  /** Python's `int(t)` on a token: an optional sign followed by decimal
      digits; anything else is rejected. */
  function ParseInt(t: string): (r: Option<int>)
    ensures r.Some? <==> (if t != "" && (t[0] == '-' || t[0] == '+') then t[1..] != "" && AllDigits(t[1..])
                          else t != "" && AllDigits(t))
    ensures r.Some? && r.value < 0 ==> t[0] == '-'
  {
    if t != "" && t[0] == '-' then
      match ParseNat(t[1..]) case None => None case Some(v) => var x: int := v; Some(-x)
    else if t != "" && t[0] == '+' then
      match ParseNat(t[1..]) case None => None case Some(v) => Some(v)
    else
      match ParseNat(t) case None => None case Some(v) => Some(v)
  }

  lemma {:induction false} ValueOfNatToString(n: nat)
    ensures ValueOf(NatToString(n)) == n
  {
    if n >= 10 {
      ValueOfNatToString(n / 10);
      var s := NatToString(n);
      assert s[..|s| - 1] == NatToString(n / 10);
    }
  }

  /** Round trip: reading back the numeral written for `n` gives `n`, and
      with a leading minus gives `-n`. */
  lemma ParseNatToString(n: nat)
    ensures ParseInt(NatToString(n)) == Some(n)
    ensures ParseInt("-" + NatToString(n)) == Some(-(n as int))
  {
    ValueOfNatToString(n);
    assert ("-" + NatToString(n))[1..] == NatToString(n);
  }
}
