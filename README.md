# primseq in Dafny

A Dafny model of the primitive-sequence analyser `primseq.py`. The analyser
reads a Kirby–Paris primitive sequence, a list of non-negative integers such
as `0123122201221`. It writes the ordinal below ε₀ that the list stands for, in
Cantor normal form, as ASCII text such as `w^(w^w+w^3)+w^(w^2+1)`.

The model follows the program's three stages:

- `tokens.dfy` (module `Tokens`) is the tokeniser `makelist`. It also holds
  the two conversions the program borrows from Python: `int` on a token and
  `str` on a natural number.
- `canonical.dfy` (module `Canonical`) is the canonicaliser, `stand` and
  `standard`, written as functions.
  - Pass A of `stand` renormalises depths.
  - Pass B deletes blocks that do not change the ordinal. It uses the
    absorption rule and the domination rule; the domination rule calls
    `standard` again on a zero-extended block.
  - `standard` repeats `stand` while the list gets shorter.
  - Termination needs no fuel. Every nested call to `standard` is on a list
    shorter than the one `stand` was given, because Pass A leaves every depth
    at most its index.
- `canonical_impl.dfy` (module `CanonicalImpl`) is `stand` and `standard` in
  the form they take in the program. They are loops that append to and splice
  the depth list, as methods. Each method is proved to compute the function of
  `Canonical` that specifies it.
- `ordinal.dfy` (module `Ordinal`) is the decomposer, `primseq` and `prim`.
  - It validates the elements and standardises the list.
  - It reads the trailing plateau as the finite term.
  - It builds the expression with the climb step (`w`, `w^x`, `w^(x)`) and the
    additive step (`x+...`).
  - The datatype `Notation` is the grammar of what it writes: positive
    numerals, `w`, `w^w` and `w^n` for a numeral `n` of at least 2, `w^(x)`
    for a compound `x`, and sums `x+y`. `IsOrdinalText` holds of text that
    is some well-formed `Notation` written out.
- `examples.dfy` (module `Examples`) proves the answers that the program lists
  for its own sample inputs (primseq.py:33-45) and the examples in the
  docstring of `standard`.

The elements `primseq` receives may be strings (tokens of the user's input) or
integers (slices of a standardised list). They are the datatype `Elem`. The
results are Python strings, so the three messages `Empty sequence`,
`Number should be positive` and `Invalid number` are results like any
ordinal.

Three points of the code matter for the proofs:

- **The falling step of Pass A.** The falling step copies the depth of the
  latest element whose raw depth is equal or lower (primseq.py:222-228). It
  copies an equal element's depth, or adds one to a lower element's depth,
  whichever of the two the backward scan meets first.
- **`standard` reaches a fixed point.** On a list that starts at 0 and rises
  by at most one, which every list Pass B sees is, `stand` either returns
  the list unchanged or returns a shorter one: a splice happens only when
  standardising the block has shortened it. So the list on which
  `standard`'s loop stops is a fixed point of `stand`, and `standard` is
  idempotent (`Canonical.StandardIdempotent`).
- **No malformed case.** The backward scan always stops
  (`Canonical.FallDepthFinds`, `Canonical.NormalPassA` and the loop of
  `CanonicalImpl.StandPassA`). The offset is always one of the earlier
  elements and the least of them.

## Model

| member | source | states |
|---|---|---|
| Tokens.MakeList | primseq.py:125-137 | `makelist`: strip, turn commas into spaces when there is a comma, then `split()` when a space is present and `list()` otherwise. Its contents are stated by `MakeListWithoutSeparator` and `MakeListWithSeparator` |
| Tokens.Strip | primseq.py:131 | the stripped text is a contiguous part of the input with only whitespace before and after it, and it neither starts nor ends with whitespace (all-whitespace input gives the empty text) |
| Tokens.CommasToSpaces | primseq.py:132-133 | same length; each comma becomes a space and every other character stays |
| Tokens.Split | primseq.py:134-135 | `str.split()` with no argument. `SplitKeepsText`, `SplitSpacing` and `SplitJoin` state that its tokens are the maximal runs without whitespace, in order |
| Tokens.Chars | primseq.py:136 | `list()` on a string: one one-character token per character, in order |
| Tokens.SplitKeepsText | primseq.py:134-135 | every token of `split()` is a non-empty run without whitespace, and the tokens together spell the text with its whitespace removed |
| Tokens.SplitSpacing | primseq.py:134-135 | the text is its `split()` tokens woven with whitespace runs, and every run between two tokens is non-empty, so no token could be extended: the tokens are the maximal runs |
| Tokens.SplitJoin | primseq.py:134-135 | round trip: splitting tokens joined by single spaces gives back the same tokens |
| Tokens.MakeListWithoutSeparator | primseq.py:131-137 | with no comma or space after stripping, every character of the stripped text is a token of its own, in order (`'012'` gives `['0','1','2']`) |
| Tokens.MakeListWithSeparator | primseq.py:131-136 | with a comma or a space after stripping, the tokens are the whitespace-split of the text with its commas turned into spaces |
| Tokens.NatToString | primseq.py:159-162 | `str(n)` is a non-empty string of digits with no leading zero unless `n` is 0 |
| Tokens.ParseInt | primseq.py:150 | `int(t)` succeeds exactly on an optional sign followed by digits, and gives a negative value only after a minus sign |
| Tokens.ParseNatToString | primseq.py:150-162 | round trip: `int(str(n)) == n` and `int('-' + str(n)) == -n` |
| Canonical.Offset | primseq.py:205-213 | the offset in force at step `i`: the first element, replaced by an element that lies below it from the next step on. `OffsetIsEarlier` states that it is the least earlier element |
| Canonical.Raw | primseq.py:209-213 | the raw depth of step `i`, the element minus the offset, or 0 when that is negative; never negative |
| Canonical.FallDepth | primseq.py:221-228 | the backward scan of a falling step, as a value between 0 and `j + 1`. `FallDepthFinds` states where it stops and what it appends |
| Canonical.NextDepth | primseq.py:214-228 | the depth appended at step `i`, between 0 and `i`. `PassASteps` states its three branches |
| Canonical.Depths | primseq.py:208-229 | the depths appended by the first `i` steps: `i` of them, each between 0 and its index |
| Canonical.PassA | primseq.py:204-229 | Pass A returns as many depths as elements, starting at 0, none negative, each at most its index |
| Canonical.OffsetIsEarlier | primseq.py:205-213 | the offset in force at step `i` is one of the earlier elements, and none of them is smaller |
| Canonical.FallDepthFinds | primseq.py:222-228 | the backward scan of a falling step always stops. It stops at the latest element at or below the new raw depth, and the step copies that element's depth (equal) or adds one to it (below) |
| Canonical.PassASteps | primseq.py:214-228 | a repeated raw depth copies the previous depth; a rise of any size adds exactly 1; a fall takes the depth of the latest element at or below it, plus 1 when below |
| Canonical.PassAIgnoresBase | primseq.py:205-213 | adding a constant to every element does not change Pass A's result |
| Canonical.NormalPassA | primseq.py:204-229 | a list that starts at 0 and never rises by more than one is its own Pass A result |
| Canonical.RiseAbove | primseq.py:214-228 | an element followed only by larger elements up to position `t` gets a strictly smaller depth than the element at `t` |
| Canonical.PassANormal | primseq.py:204-229 | Pass A's result starts at 0, has no negative depth and never rises by more than one |
| Canonical.Absorbs | primseq.py:236-244 | the absorption scan from `j`. `AbsorbsMeaning` states when it succeeds, in both directions |
| Canonical.AbsorbsMeaning | primseq.py:236-244 | the absorption scan succeeds exactly when the run of `st[i]`'s depth starting at `i` is followed by a deeper element, not by a shallower one or the end |
| Canonical.Absorb | primseq.py:235-244 | absorption deletes exactly the element at `i - 1`, and only when `st[i - 1] == st[i]` and the scan succeeds; it keeps the list grounded and the prefix unchanged |
| Canonical.LastIndexOf | primseq.py:246-247 | the result is -1 or the latest index below `i` holding `v`, and no later index below `i` holds `v` |
| Canonical.Iota | primseq.py:251 | `list(range(n))`: `n` elements, the `k`-th being `k` |
| Canonical.Drop | primseq.py:253 | the slice `s[n:]`: the elements from `n` on, none when `n` is past the end |
| Canonical.Scan | primseq.py:256-263 | the comparison loop from position `k`, giving `(found, equal)`. `ScanMeaning` states both results in closed form |
| Canonical.Dominates | primseq.py:254-265 | the domination test, the loop then the prefix test. `DominatesMeaning` states it in closed form, in both directions |
| Canonical.ScanMeaning | primseq.py:256-263 | the comparison loop's `equal` is "no term of the left block exceeds the right one's", and its `found` is "some term is smaller with none larger before it" |
| Canonical.DominatesMeaning | primseq.py:254-266 | the left block is dominated exactly when a term is smaller than the right part's with no larger one before it, or when it is a proper prefix of the right part and the right part rises right after it |
| Canonical.Collapse | primseq.py:232-271 | Pass B keeps the list grounded and never lengthens it |
| Canonical.Descend | primseq.py:245-247 | one step of Pass B keeps the list grounded and never lengthens it |
| Canonical.Dominate | primseq.py:248-271 | the domination rule keeps the list grounded and never lengthens it |
| Canonical.OnePass | primseq.py:203-272 | `stand` returns a grounded list no longer than its input |
| Canonical.StandardForm | primseq.py:191-200 | `standard` returns a grounded list (starting at 0) no longer than its input. `StandardFormNormal` states the shape of its result and `StandardIdempotent` that it is idempotent |
| Canonical.CollapseStep | primseq.py:232-245 | at a rising step Pass B neither absorbs nor dominates and moves one place left with the list unchanged |
| Canonical.DominateSplice | primseq.py:248-253 | when standardising the zero-extended block changes it, the result keeps everything before the block as its prefix and everything from `i` on as its suffix, with the standardised block, its zero extension dropped, in between |
| Canonical.CutNormal | primseq.py:240-271 | deleting an element, or a block that ends where an equal depth recurs, keeps a list normal and keeps its rooted prefix `0, 1, ..., w - 1` |
| Canonical.AbsorbNormal | primseq.py:235-244 | absorption keeps a normal list normal and keeps its rooted prefix |
| Canonical.DropNormal | primseq.py:268-269 | deleting a dominated block `st[j..i]` keeps a normal list normal and rooted, and the depths before `j - 1` stay at most their index |
| Canonical.SpliceNormal | primseq.py:251-253 | splicing a normal block rooted at the depth of `st[j]` and `st[i]` between them keeps the list normal and rooted |
| Canonical.ExtendedRooted | primseq.py:248-250 | the zero-extended block of the domination rule is normal, begins `0, 1, ..., u - 1` and has nothing below `u` after that |
| Canonical.CollapseNormal | primseq.py:232-271 | Pass B keeps a normal list normal and keeps its rooted prefix |
| Canonical.DescendNormal | primseq.py:245-271 | one step of Pass B, a rise or a fall, keeps a normal list normal and keeps its rooted prefix |
| Canonical.DominateNormal | primseq.py:245-271 | the domination rule keeps a normal list normal and keeps its rooted prefix, in the splice, keep and delete cases |
| Canonical.SplicedNormal | primseq.py:251-253 | the splice keeps a normal list normal and rooted, given that the standardised block is normal and rooted at the depth of its ends |
| Canonical.OnePassRooted | primseq.py:203-272 | `stand` keeps a normal list normal and keeps its rooted prefix |
| Canonical.StandardRooted | primseq.py:191-200 | `standard` keeps a normal list normal and keeps its rooted prefix |
| Canonical.StandardFormNormal | primseq.py:191-272 | whatever list it is given, `standard` returns one that starts from 0 and increments by at most one |
| Canonical.CollapseShrinks | primseq.py:232-271 | on a normal list Pass B either returns the list unchanged or returns a shorter one |
| Canonical.DescendShrinks | primseq.py:245-271 | on a normal list one step of Pass B either leaves the list unchanged or shortens it |
| Canonical.DominateShrinks | primseq.py:248-271 | on a normal list the domination rule either leaves the list unchanged or shortens it: a splice happens only when standardising the block has shortened it |
| Canonical.OnePassShrinks | primseq.py:203-272 | on a normal list `stand` returns the list unchanged or a shorter one |
| Canonical.StandardShrinks | primseq.py:191-200 | on a normal list `standard` returns the list unchanged or a shorter one |
| Canonical.UnshortenedPassA | primseq.py:196-200 | when `stand` does not shorten its input, it returns Pass A's output unchanged by Pass B |
| Canonical.PassAFixed | primseq.py:203-272 | in that case `stand` run again on its result gives the result back |
| Canonical.UnshortenedFixed | primseq.py:196-200 | the list on which `standard`'s loop stops is a fixed point of `stand` |
| Canonical.StandardFixed | primseq.py:191-200 | what `standard` returns is a fixed point of `stand`, for every non-empty input |
| Canonical.StandardIdempotent | primseq.py:191-200 | `standard` is idempotent: `standard(standard(x)) == standard(x)` for every non-empty `x`, so a block that is already the result of `standard` passes the test at line 252 unchanged |
| Canonical.StandardFormTerminates | primseq.py:196-200 | `standard` calls `stand` between 1 and `len(seq)` times, and returns `stand` of a list that `stand` did not shorten |
| Canonical.ConstantStandardForm | primseq.py:191-272 | a constant list of length `n` standardises to `n` zeros |
| Canonical.IncreasingIsStandard | primseq.py:194-195 | a strictly increasing list of length `n` standardises to `0, 1, ..., n - 1` |
| Canonical.IotaIsStandard | primseq.py:191-200 | `0, 1, ..., n - 1` is already standard |
| CanonicalImpl.StandPassA | primseq.py:204-229 | the appending loop with `offset`, `nextoffset`, `prev` and its backward scan computes Pass A |
| CanonicalImpl.AbsorbAt | primseq.py:235-244 | the absorption scan and splice compute the absorption rule |
| CanonicalImpl.Compare | primseq.py:254-265 | the comparison loop and the prefix test compute `Dominates` |
| CanonicalImpl.DominateAt | primseq.py:245-271 | the domination step computes the domination rule. It calls `standard` on the zero-extended block and splices when that changes it, returns `right` when a dominated block starts the list, and otherwise gives the list and position Pass B goes on from |
| CanonicalImpl.StandPassB | primseq.py:230-271 | the `while i > 1` loop with early returns computes Pass B |
| CanonicalImpl.Stand | primseq.py:203-272 | `stand` computes Pass A followed by Pass B |
| CanonicalImpl.Standard | primseq.py:191-200 | the `while len(st) < len(seq)` loop computes the standard form |
| Ordinal.PrimSeq | primseq.py:140-164 | `primseq`: the empty message, a validation message, or the decomposition. `PrimSeqOutcome` states which outcome happens when, in both directions, and that the decomposition is a well-formed expression |
| Ordinal.IntValue | primseq.py:150 | `int(i)` on an element: an integer is itself, a string is read by `Tokens.ParseInt` |
| Ordinal.Check | primseq.py:148-153 | validation gives one number per element, or one of the two messages |
| Ordinal.CheckValues | primseq.py:148-153 | the numbers are the elements' `int` values, all non-negative |
| Ordinal.CheckAccepts | primseq.py:148-153 | validation passes exactly when every element reads as a non-negative integer |
| Ordinal.CheckRejects | primseq.py:148-153 | validation fails with `Invalid number` (resp. `Number should be positive`) exactly when the first failing element is not an integer (resp. is negative) |
| Ordinal.OmegaTo | primseq.py:169-175 | the climb step. `OmegaToInverse` states that the exponent can be read back, `OmegaToText` that it keeps text well-formed |
| Ordinal.Decompose | primseq.py:155-164 | standardise, then decompose. `DecomposeText` states that the result is a well-formed expression |
| Ordinal.OrdinalOf | primseq.py:156-164 | the decomposition of a standard list. `OrdinalPlateau` states its two exits and `OrdinalOfText` that it writes a well-formed expression |
| Ordinal.Finish | primseq.py:161-164 | the numeral for a list that is one plateau, `prim` on the part before the plateau otherwise. `OrdinalPlateau` states both cases |
| Ordinal.Prim | primseq.py:167-188 | `prim`, climb step then additive step. `PrimText`, `PrimAdditive` and `PrimIota` state its properties |
| Ordinal.OmegaToInverse | primseq.py:169-175 | the climb step loses nothing: the exponent can be read back from `w`, `w^x` or `w^(x)` |
| Ordinal.TextStart | primseq.py:155-188 | every expression of the grammar starts with a digit or `w` |
| Ordinal.TextMarks | primseq.py:169-175 | exactly the compound expressions (powers and sums) contain a `+` or a `^`, the test the climb step uses to decide on parentheses |
| Ordinal.OmegaToText | primseq.py:169-175 | the climb step turns well-formed expression text into well-formed expression text: `w` from `1`, `w^(x)` from a compound `x`, and `w^x` from `w` or a numeral of at least 2 |
| Ordinal.OrdinalTextConcat | primseq.py:184-185 | the additive step joins two well-formed expressions into a well-formed sum |
| Ordinal.NumeralIsOrdinalText | primseq.py:159-162 | a positive numeral is a well-formed expression |
| Ordinal.NotOrdinalText | primseq.py:143-153 | text that starts with neither a digit nor `w`, such as every message, is no well-formed expression |
| Ordinal.LastIndexNotOf | primseq.py:157-160 | the result is -1 or the latest index below `i` whose element differs from `v`, and every later one equals `v` |
| Ordinal.OrdinalPlateau | primseq.py:156-163 | a constant standard list of length `n` gives the numeral `n`. Otherwise `prim` starts on the list up to the last element off the trailing plateau, with that plateau's length as the numeral |
| Ordinal.ConstantIsFinite | primseq.py:155-162 | a constant list of length `n`, such as `00000`, is the finite ordinal `n` |
| Ordinal.PrimAdditive | primseq.py:180-188 | the additive step puts `primseq` of the suffix from the rightmost element equal to `num` (from 0 when there is none) before `ord` with `+`. It stops when that suffix is the whole list and otherwise goes on with the part before it |
| Ordinal.PrimIota | primseq.py:168-179 | on a rising list `0, ..., m - 1` before `m`, `prim` climbs `m` times |
| Ordinal.IotaOrdinal | primseq.py:155-179 | `0, 1, ..., n - 1` is a tower of `n - 1` omegas (`1`, `w`, `w^w`, `w^(w^w)`, ...) |
| Ordinal.CheckAsElems | primseq.py:184 | a slice of a standardised list passes validation unchanged when `prim` hands it to `primseq` |
| Ordinal.PrimText | primseq.py:167-188 | from well-formed expression text, `prim` writes well-formed expression text: the text of a `Notation` built from positive numerals, `w`, powers of `w` and sums |
| Ordinal.OrdinalOfText | primseq.py:156-164 | the decomposer writes a well-formed expression for every list of non-negative numbers |
| Ordinal.DecomposeText | primseq.py:155-164 | a list of numbers is decomposed into a well-formed expression |
| Ordinal.PrimSeqOutcome | primseq.py:140-164 | `primseq` returns `Empty sequence` exactly for the empty list and each message exactly when validation fails with it; otherwise it returns a well-formed expression, which no message is |
| Examples.CheckDigits | primseq.py:148-153 | a string of digits passes validation, each character read as its digit |
| Examples.DigitsOutcome | primseq.py:140-155 | a non-empty numeral handed to `primseq` is decomposed as the list of its digits |
| Examples.EmptyExample | primseq.py:33 | `primseq('')` is `Empty sequence` |
| Examples.FiniteExample | primseq.py:34 | `primseq('00000')` is `5` |
| Examples.OmegaSteps | primseq.py:169-175 | two climb steps from `1` give `w`, then `w^w` |
| Examples.OmegaOmegaOrdinal | primseq.py:155-179 | every list that standardises to `0,1,2` is `w^w` |
| Examples.TowerExample | primseq.py:35 | `primseq('012')` is `w^w` |
| Examples.DominatedScan | primseq.py:232-247 | Pass B on `0,1,0,1,2` reaches the fall at position 2 unchanged |
| Examples.DominatedBlock | primseq.py:248-268 | there the block `0,1` is dominated and only the right part `0,1,2` survives |
| Examples.DominatedStandard | primseq.py:191-272 | `0,1,0,1,2` standardises to `0,1,2` |
| Examples.DominationExample | primseq.py:36 | `primseq('01012')` is `w^w` |
| Examples.AbsorbedScan | primseq.py:232-247 | Pass B on `0,0,0,1,1,1` reaches position 3 unchanged: the run of 1s is followed by nothing deeper |
| Examples.AbsorbedAtTwo | primseq.py:235-243 | in `0,0,0,1,1,1` the equal pair at position 2 is followed by a 1, so the left 0 is absorbed |
| Examples.AbsorbedAtOne | primseq.py:235-241 | in `0,0,1,1,1` the pair at position 1 is absorbed too, giving `0,1,1,1` |
| Examples.PlateauStandard | primseq.py:191-272 | `0,1,1,1` is standard |
| Examples.AbsorbedStandard | primseq.py:191-272 | `0,0,0,1,1,1` standardises to `0,1,1,1` |
| Examples.PlateauOrdinal | primseq.py:156-179 | `0,1,1,1` is `w^3`: the plateau of three 1s is the exponent |
| Examples.AbsorptionExample | primseq.py:38 | `primseq('000111')` is `w^3` |
| Examples.RebasedPassA | primseq.py:208-228 | Pass A on `1,2,3,0,1,2` moves the offset from 1 to 0 and gives `0,1,2,0,1,2` |
| Examples.UndominatedScan | primseq.py:232-247 | Pass B on `0,1,2,0,1,2` reaches the fall at position 3 unchanged |
| Examples.UndominatedBlock | primseq.py:254-271 | in `0,1,2,0,1,2` the block `0,1,2` equals what follows it, so it is kept |
| Examples.UndominatedRest | primseq.py:232-245 | the rest of that scan rises all the way and changes nothing |
| Examples.RebasedStandard | primseq.py:191-272 | `1,2,3,0,1,2` standardises to `0,1,2,0,1,2` |
| Examples.SumOrdinal | primseq.py:156-188 | `0,1,2,0,1,2` is `w^w+w^w`: two climbs, then the additive step puts `w^w` for `0,1,2` first |
| Examples.SumExample | primseq.py:39 | `primseq('123012')` is `w^w+w^w` |
| Examples.RisingScan | primseq.py:232-247 | Pass B on `0,1,2,1,2,3` reaches the fall at position 3 unchanged |
| Examples.RisingBlock | primseq.py:248-271 | there the block `1,2` is dominated by the rising `1,2,3`, only `0,1,2,3` survives |
| Examples.RisingStandard | primseq.py:191-272 | `0,1,2,1,2,3` standardises to `0,1,2,3` |
| Examples.ClimbThreeFromOne | primseq.py:168-179 | three climb steps from `1` give `w^(w^w)` |
| Examples.RisingExample | primseq.py:37 | `primseq('012123')` is `w^(w^w)` |
| Examples.RisingTwoOrdinal | primseq.py:155-179 | `1,2` standardises to `0,1` and is `w` |
| Examples.RisingThreeOrdinal | primseq.py:155-179 | `1,2,3` standardises to `0,1,2` and is `w^w` |
| Examples.RepeatScan | primseq.py:232-247 | Pass B on `0,1,2,1,2,1,2` reaches the fall at position 5 unchanged |
| Examples.RepeatInner | primseq.py:248-271 | the block `1,2` at position 3 equals what follows it, so it is kept and the scan reaches the fall at position 3 |
| Examples.RepeatInnerKept | primseq.py:248-271 | the block `1,2` at position 3 is standard and equals what follows it, so it is kept |
| Examples.RepeatInnerScan | primseq.py:232-248 | the scan then reaches the fall at position 3 unchanged |
| Examples.RepeatOuter | primseq.py:248-271 | the block `1,2` at position 1 is a prefix of `1,2,1,2` that does not rise above it, so it is kept |
| Examples.RepeatStandard | primseq.py:191-272 | `0,1,2,1,2,1,2` is standard |
| Examples.RepeatPrim | primseq.py:167-188 | `prim` on `0,1,2,1,2,1` before a 2 is `w^(w+w+w)`: one climb, two additive steps each putting `w` first, a last climb |
| Examples.RepeatExample | primseq.py:40 | `primseq('0121212')` is `w^(w+w+w)` |
| Examples.TwinScan | primseq.py:232-247 | Pass B on `0,1,2,3,1,2,3` reaches the fall at position 4 unchanged |
| Examples.TwinBlock | primseq.py:232-271 | there the block `1,2,3` equals what follows it, so it is kept and the list is unchanged |
| Examples.TwinStandard | primseq.py:191-272 | `0,1,2,3,1,2,3` is standard |
| Examples.TwinPrim | primseq.py:167-188 | `prim` on `0,1,2,3,1,2` before a 3 is `w^(w^w+w^w)`: two climbs, an additive step putting `w^w` first, a last climb |
| Examples.TwinExample | primseq.py:42 | `primseq('0123123')` is `w^(w^w+w^w)` |
| Examples.TopPlateauCollapse | primseq.py:232-247 | Pass B leaves `0,1,2,3,3,3` unchanged: its equal pairs are followed by nothing deeper |
| Examples.TopPlateauStandard | primseq.py:191-272 | `0,1,2,3,3,3` is standard |
| Examples.ClimbFromThree | primseq.py:168-179 | three climb steps from `3` give `w^(w^(w^3))` |
| Examples.TopPlateauOrdinal | primseq.py:156-179 | `0,1,2,3,3,3` is `w^(w^(w^3))`: the two extra 3s make the finite term 3 |
| Examples.TopPlateauExample | primseq.py:43 | `primseq('012333')` is `w^(w^(w^3))` |
| Examples.PeakCollapse | primseq.py:232-247 | Pass B leaves `0,1,2,2,1` unchanged |
| Examples.PeakStandard | primseq.py:191-272 | `0,1,2,2,1` is standard |
| Examples.SquareStandard | primseq.py:203-229 | `1,2,2` standardises to `0,1,1` |
| Examples.SquareOrdinal | primseq.py:155-179 | `1,2,2` is `w^2` |
| Examples.PeakPrim | primseq.py:167-188 | `prim` on `0,1,2,2` before a 1 is `w^(w^2+1)`: an additive step putting `w^2` before `1`, then a climb |
| Examples.PeakOrdinal | primseq.py:156-188 | `0,1,2,2,1` is `w^(w^2+1)` |
| Examples.PeakExample | primseq.py:44 | `primseq('01221')` is `w^(w^2+1)` |
| Examples.SpliceRise | primseq.py:232-245 | Pass B on `0,1,2,3,3,4,5,1,2,3,4` rises from the end to the fall at position 7 unchanged |
| Examples.SpliceFall | primseq.py:245-248 | at that fall the latest earlier 1 is at position 1, so the domination rule takes the block `1,2,3,3,4,5` |
| Examples.BumpAbsorb | primseq.py:235-244 | in the zero-extended block `0,1,2,3,3,4,5` the left 3 is absorbed |
| Examples.BumpCollapse | primseq.py:232-271 | Pass B on that block gives `0,1,2,3,4,5` |
| Examples.BumpStandard | primseq.py:191-200 | the block standardises to `0,1,2,3,4,5`, which differs from it |
| Examples.SpliceBlock | primseq.py:248-253 | so `stand` splices: `0,1,2,3,3,4,5,1,2,3,4` becomes `0,1,2,3,4,5,1,2,3,4` |
| Examples.SplicedScan | primseq.py:232-248 | Pass B on `0,1,2,3,4,5,1,2,3,4` reaches the fall at position 6 with the block `1,2,3,4,5` from position 1 |
| Examples.SplicedBlock | primseq.py:254-271 | that block is standard and not dominated, so it is kept and the list is unchanged |
| Examples.SplicedStandard | primseq.py:191-272 | `0,1,2,3,4,5,1,2,3,4` is standard |
| Examples.SpliceStandard | primseq.py:191-272 | `0,1,2,3,3,4,5,1,2,3,4` standardises to `0,1,2,3,4,5,1,2,3,4`: a splice, then a round that changes nothing |
| Examples.ClimbFourFromOne | primseq.py:168-179 | four climb steps from `1` give `w^(w^(w^w))` |
| Examples.RisingFiveOrdinal | primseq.py:155-179 | `1,2,3,4,5` standardises to `0,1,2,3,4` and is `w^(w^(w^w))` |
| Examples.SpliceClimbs | primseq.py:168-179 | `prim` on `0,1,2,3,4,5,1,2,3` before a 4 climbs three times to `w^(w^w)` |
| Examples.SpliceSum | primseq.py:180-188 | then the suffix `1,2,3,4,5` from the rightmost 1 is put first as `w^(w^(w^w))` |
| Examples.SplicePrim | primseq.py:167-188 | and a last climb wraps the sum in `w^(...)` |
| Examples.SpliceOrdinal | primseq.py:156-188 | `0,1,2,3,4,5,1,2,3,4` is `w^(w^(w^(w^w))+w^(w^w))` |
| Examples.SpliceExample | primseq.py:41 | `primseq('01233451234')` is `w^(w^(w^(w^w))+w^(w^w))` |
| Examples.KeptBlock | primseq.py:254-266 | a block that is nowhere smaller than the part after it, and larger somewhere, is not dominated |
| Examples.ShelfScan | primseq.py:232-247 | Pass B on `0,1,2,3,1,2,2,2` absorbs nothing (the run of 2s reaches the end) and reaches the fall at position 4 unchanged |
| Examples.ShelfBlock | primseq.py:248-271 | there the standard block `1,2,3` is larger than `1,2,2,2`, so it is kept, and the list is unchanged |
| Examples.ShelfStandard | primseq.py:191-272 | `0,1,2,3,1,2,2,2` is standard |
| Examples.LongRise | primseq.py:232-245 | Pass B on `0,1,2,3,1,2,2,2,0,1,2,2,1` absorbs nothing at the final pair of 2s and rises to the fall at position 8 |
| Examples.LongFall | primseq.py:245-248 | at that fall the only earlier 0 is the first element, so the domination rule takes the first eight elements as its block |
| Examples.LongBlock | primseq.py:248-271 | that block is standard (no splice) and larger than `0,1,2,2,1`, so it is kept |
| Examples.LongKept | primseq.py:245-271 | so the scan passes position 8 with the list unchanged |
| Examples.LongTail | primseq.py:232-271 | the scan from the end to position 8 changes nothing |
| Examples.LongPlateau | primseq.py:235-244 | the pairs of 2s at positions 5 to 7 are followed by a 0, so nothing is absorbed |
| Examples.LongFallAtFour | primseq.py:245-248 | at the fall at position 4 the latest earlier 1 is at position 1 |
| Examples.LongMiddle | primseq.py:232-248 | after the plateau the scan rises to that fall unchanged |
| Examples.LongHead | primseq.py:248-271 | there the standard block `1,2,3` is larger than what follows it, so it is kept, and the scan rises to the start |
| Examples.LongFront | primseq.py:232-271 | the scan from position 8 to the start changes nothing |
| Examples.LongCollapse | primseq.py:232-271 | Pass B gives `0,1,2,3,1,2,2,2,0,1,2,2,1` back unchanged: two domination tests that keep their blocks, absorption scans that fail |
| Examples.LongStandard | primseq.py:191-272 | `0,1,2,3,1,2,2,2,0,1,2,2,1` is standard |
| Examples.ShelfPrim | primseq.py:167-188 | `prim` on `0,1,2,3,1` before a 2 climbs `3` to `w^3`, puts `w^w` for `1,2,3` in front, and wraps the sum |
| Examples.ShelfOrdinal | primseq.py:155-188 | `0,1,2,3,1,2,2,2` is `w^(w^w+w^3)`: the plateau of three 2s gives the finite term 3 |
| Examples.FirstBlockOrdinal | primseq.py:184 | that block handed back to `primseq` as a slice gives `w^(w^w+w^3)` |
| Examples.LongFinish | primseq.py:156-164 | the final 1 is a plateau of one, so `prim` starts on the first twelve elements with `1` |
| Examples.LongSum | primseq.py:180-188 | the additive step puts `w^2` for the suffix `1,2,2` in front of `1` |
| Examples.LongClimb | primseq.py:168-185 | the 0 at position 8 makes a climb to `w^(w^2+1)`, then the additive step puts the whole first block in front |
| Examples.LongPrim | primseq.py:167-188 | `prim` on the first twelve elements before the final 1 is `w^(w^w+w^3)+w^(w^2+1)` |
| Examples.LongOrdinal | primseq.py:155-188 | `0,1,2,3,1,2,2,2,0,1,2,2,1` is `w^(w^w+w^3)+w^(w^2+1)` |
| Examples.LongExample | primseq.py:45 | `primseq('0123122201221')` is `w^(w^w+w^3)+w^(w^2+1)` |
| Examples.StandardExamples | primseq.py:194-195 | `[1,2,3]` and `[0,2,4]` both standardise to `[0,1,2]` |

## Left out

- `main`, `maincl` and `maincgi` (primseq.py:14-124) are not modelled: console
  and CGI input/output, HTML and TeX rendering, environment detection and the
  blanket exception handler. Their sample assertions become the lemmas of
  `Examples`.
- The `Invalid sequence` result (primseq.py:146-147) is not modelled. It
  answers a `len` that raises on a non-sequence, which typed elements rule out.
- Ordinal.IntValue: Python's `int` also accepts surrounding whitespace,
  underscores between digits (Python 3) and non-ASCII digits (unicode
  strings). It also accepts values of other types, such as floats, that it
  truncates. The model reads an optional sign followed by ASCII digits, and
  elements are strings or integers only.
- Tokens.IsSpace: whitespace is the ASCII set of Python 2 byte strings. Python
  3 strings also treat the separator controls and Unicode spaces as
  whitespace.
- Canonical.Absorb: the program splits absorption into two branches,
  `st[1:]` when `i == 1` and `st[:i-1] + st[i:]` otherwise. They build the same
  list, so the model has one branch.
- CanonicalImpl.Stand: `stand` returns a tuple, or a list after a splice. The
  model returns a sequence in both cases; every later use only indexes,
  slices, measures or compares it element by element.
- Python 2 and 3 differences (`raw_input`, `print`) and the `__main__` hook
  (primseq.py:275-276) are not modelled.
