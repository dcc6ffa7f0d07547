/**
 * `fitWords` as the loop the engine runs, and `wrapText`, which looks for a
 * number of lines whose vertical/horizontal scale ratio is acceptable: one
 * line more per call in the two older generations, a jump estimated from
 * the square root of the ratio (with a memo of string widths) in the
 * current one.
 */
module Wrap {
  import opened Wrappers
  import opened Strings
  import opened Fit
  import Surface

  /** A `fit` object: the lines and the width of the widest one. */
  datatype Fitted = Fitted(lines: seq<string>, width: Width)

  /** The `fit` object for a result of the search. */
  function FitOf(m: Measure, o: Option<Groups>): Fitted
  {
    Fitted(if o.Some? then Lines(o.value) else [], WidthOf(m, o))
  }

  /** The `options` of `wrapText`: the box and the largest y/x scale ratio. */
  datatype WrapOptions = WrapOptions(width: real, height: real, maxRatio: real)
  {
    predicate Positive()
    {
      width > 0.0 && height > 0.0 && maxRatio > 0.0
    }
  }

  ghost predicate NonNeg(m: Measure)
  {
    forall s :: m(s) >= 0.0
  }

  /** `options.height / (doc.currentLineHeight() * nbLines)`. */
  function ScaleY(o: WrapOptions, lh: real, k: nat): (r: real)
    requires o.Positive() && lh > 0.0 && k >= 1
    ensures r > 0.0
  {
    assert lh * k as real >= lh;
    o.height / (lh * k as real)
  }

  /**
   * `scaleY <= options.maxRatio * scaleX` with `scaleX = options.width /
   * fit.width`: always true for a zero width (`scaleX` is +Infinity) and
   * false for +Infinity (`scaleX` is 0).
   */
  predicate Acceptable(fw: Width, k: nat, lh: real, o: WrapOptions)
    requires o.Positive() && lh > 0.0 && k >= 1
  {
    match fw
    case Inf => false
    case Fin(w) => w == 0.0 || (w > 0.0 && ScaleY(o, lh, k) <= o.maxRatio * (o.width / w))
  }

  // -----------------------------------------------------------------------
  // fitWords
  // -----------------------------------------------------------------------

  /** Each width the measure gives is at most the widest line. */
  lemma {:induction false} LineMaxBounds(m: Measure, g: Groups)
    requires |g| >= 1
    ensures forall k :: 0 <= k < |g| ==> m(LineOf(g[k])) <= LineMax(m, g)
    ensures NonNeg(m) ==> LineMax(m, g) >= 0.0
    decreases |g|
  {
    if |g| > 1 {
      LineMaxBounds(m, g[1..]);
      forall k | 1 <= k < |g|
        ensures m(LineOf(g[k])) <= LineMax(m, g)
      {
        assert g[k] == g[1..][k - 1];
      }
    }
  }

  /** With at least as many words as lines, the fit has exactly that many lines and a finite width. */
  lemma FitShape(m: Measure, words: seq<string>, k: nat)
    requires 1 <= k <= |words|
    ensures |FitOf(m, Best(m, words, k)).lines| == k
    ensures Best(m, words, k).Some? && FitOf(m, Best(m, words, k)).width.Fin?
    ensures NonNeg(m) ==> FitOf(m, Best(m, words, k)).width.w >= 0.0
  {
    BestShape(m, words, k);
    ExaminedShape(Best(m, words, k).value, words, k);
    LineMaxBounds(m, Best(m, words, k).value);
  }

  /** One round of the loop of `fitWords`, as `Scan` takes it. */
  lemma ScanStep(m: Measure, words: seq<string>, n: nat, i: nat, best: Option<Groups>)
    requires n >= 2 && i < |words|
    ensures var w0 := Fin(m(LineOf(words[..i + 1])));
      var rem := Best(m, words[i + 1..], n - 1);
      Scan(m, words, n, i, best)
        == if !Below(w0, WidthOf(m, best)) || !Below(WidthOf(m, rem), WidthOf(m, best)) then Scan(m, words, n, i + 1, best)
           else Scan(m, words, n, i + 1, Some([words[..i + 1]] + rem.value))
  {
  }

  /** The fit of a split whose first line is `first`, followed by the split `rem`. */
  lemma FitCons(m: Measure, first: seq<string>, rem: Option<Groups>)
    requires rem.Some? && |rem.value| >= 1
    ensures FitOf(m, Some([first] + rem.value))
      == Fitted([LineOf(first)] + FitOf(m, rem).lines, Max(Fin(m(LineOf(first))), FitOf(m, rem).width))
  {
    var g := [first] + rem.value;
    assert g[1..] == rem.value;
    assert Lines(g) == [LineOf(first)] + Lines(rem.value);
  }

  /**
   * `fitWords(doc, words, n)`: the loop over the length of the first line,
   * recursing on the remaining words. It returns the fit of the search
   * `Best`, whose optimality and tie rule are proved in `Fit`.
   */
  method FitWords(doc: Surface.Doc, words: seq<string>, n: nat) returns (fit: Fitted)
    requires n >= 1 && doc.CacheSound()
    modifies doc`cache
    ensures doc.CacheSound() && (doc.cache.Some? <==> old(doc.cache).Some?)
    ensures fit == FitOf(doc.Measure(), Best(doc.Measure(), words, n))
    decreases n
  {
    ghost var m := doc.Measure();
    if n == 1 {
      var line := Join(words, " ");
      var w := doc.WidthOfString(line);
      return Fitted([line], Fin(w));
    } else if |words| < n {
      return Fitted([], Inf);
    }
    ghost var best: Option<Groups> := None;
    ghost var goal := Best(m, words, n);
    fit := Fitted([], Inf);
    var i := 0;
    while i < |words|
      invariant 0 <= i <= |words|
      invariant doc.CacheSound() && (doc.cache.Some? <==> old(doc.cache).Some?)
      invariant doc.Measure() == m
      invariant fit == FitOf(m, best)
      invariant Scan(m, words, n, i, best) == goal
    {
      var line0 := Join(words[..i + 1], " ");
      var width0 := doc.WidthOfString(line0);
      ghost var rem := Best(m, words[i + 1..], n - 1);
      ScanStep(m, words, n, i, best);
      assert width0 == m(LineOf(words[..i + 1]));
      if !Below(Fin(width0), fit.width) {
        i := i + 1;
        continue;
      }
      var remainder := FitWords(doc, words[i + 1..], n - 1);
      if !Below(remainder.width, fit.width) {
        i := i + 1;
        continue;
      }
      FitCons(m, words[..i + 1], rem);
      best := Some([words[..i + 1]] + rem.value);
      fit := Fitted([line0] + remainder.lines, Max(Fin(width0), remainder.width));
      i := i + 1;
    }
  }

  // -----------------------------------------------------------------------
  // wrapText, one line more per call
  // -----------------------------------------------------------------------

  /**
   * The recursive `wrapText(doc, words, k, options)` of the two older
   * generations: the fit for the first count from `k` on whose ratio is
   * acceptable, or for one line per word.
   */
  function WrapRec(m: Measure, lh: real, words: seq<string>, k: nat, o: WrapOptions): (r: Fitted)
    requires 1 <= k <= |words| && lh > 0.0 && o.Positive()
    ensures k <= |r.lines| <= |words|
    ensures r == FitOf(m, Best(m, words, |r.lines|))
    ensures Acceptable(r.width, |r.lines|, lh, o) || |r.lines| == |words|
    ensures forall j :: k <= j < |r.lines| ==> !Acceptable(FitOf(m, Best(m, words, j)).width, j, lh, o)
    decreases |words| - k
  {
    FitShape(m, words, k);
    var fit := FitOf(m, Best(m, words, k));
    if Acceptable(fit.width, k, lh, o) || |words| == k then fit
    else WrapRec(m, lh, words, k + 1, o)
  }

  /** Any count from `k` on that would stop the search is at least the count `WrapRec` returns. */
  lemma WrapRecLeast(m: Measure, lh: real, words: seq<string>, k: nat, o: WrapOptions, c: nat)
    requires 1 <= k <= c <= |words| && lh > 0.0 && o.Positive()
    requires Acceptable(FitOf(m, Best(m, words, c)).width, c, lh, o) || c == |words|
    ensures |WrapRec(m, lh, words, k, o).lines| <= c
  {
  }

  // -----------------------------------------------------------------------
  // wrapText with an estimated number of extra lines
  // -----------------------------------------------------------------------

  /** `Math.floor(Math.sqrt(q))`. */
  function FloorSqrt(q: real): (r: nat)
    requires q >= 0.0
    ensures (r * r) as real <= q < ((r + 1) * (r + 1)) as real
  {
    FloorSqrtFrom(q, 0)
  }

  function FloorSqrtFrom(q: real, r: nat): (s: nat)
    requires (r * r) as real <= q
    ensures r <= s && (s * s) as real <= q < ((s + 1) * (s + 1)) as real
    decreases q.Floor - r
  {
    if ((r + 1) * (r + 1)) as real > q then r
    else
      assert r + 1 <= (r + 1) * (r + 1) <= q.Floor;
      FloorSqrtFrom(q, r + 1)
  }

  lemma QuotientAboveOne(a: real, b: real)
    requires a > b > 0.0
    ensures a / b > 1.0
  {
    assert a / b * b == a;
  }

  /**
   * `Math.floor(Math.sqrt(scaleY / (options.maxRatio * scaleX)))` for a
   * ratio that is not acceptable: at least one.
   */
  function Increment(fw: Width, k: nat, lh: real, o: WrapOptions): (incr: nat)
    requires o.Positive() && lh > 0.0 && k >= 1
    requires fw.Fin? && fw.w >= 0.0 && !Acceptable(fw, k, lh, o)
    ensures incr >= 1
  {
    var scaleX := o.width / fw.w;
    assert scaleX > 0.0;
    var q := ScaleY(o, lh, k) / (o.maxRatio * scaleX);
    QuotientAboveOne(ScaleY(o, lh, k), o.maxRatio * scaleX);
    FloorSqrt(q)
  }

  function Min(a: nat, b: nat): nat
  {
    if a <= b then a else b
  }

  /**
   * The line count the loop of the current `wrapText` stops at, starting
   * from `k`: the first acceptable count it tries, or one line per word.
   */
  function Jump(m: Measure, lh: real, words: seq<string>, k: nat, o: WrapOptions): (c: nat)
    requires 1 <= k <= |words| && lh > 0.0 && o.Positive() && NonNeg(m)
    ensures k <= c <= |words|
    ensures Acceptable(FitOf(m, Best(m, words, c)).width, c, lh, o) || c == |words|
    ensures Acceptable(FitOf(m, Best(m, words, k)).width, k, lh, o) ==> c == k
    decreases |words| - k
  {
    FitShape(m, words, k);
    if Acceptable(FitOf(m, Best(m, words, k)).width, k, lh, o) || k == |words| then k
    else Jump(m, lh, words, Next(m, lh, words, k, o), o)
  }

  /** The count the loop tries after `k` when `k` is neither acceptable nor the last. */
  function Next(m: Measure, lh: real, words: seq<string>, k: nat, o: WrapOptions): (n: nat)
    requires 1 <= k < |words| && lh > 0.0 && o.Positive() && NonNeg(m)
    requires !Acceptable(FitOf(m, Best(m, words, k)).width, k, lh, o)
    ensures k < n <= |words|
  {
    FitShape(m, words, k);
    Min(|words|, k + Increment(FitOf(m, Best(m, words, k)).width, k, lh, o))
  }

  /**
   * The estimated jumps never stop below the count the one-line-at-a-time
   * search finds: they can only overshoot it.
   */
  lemma JumpNoFewer(m: Measure, lh: real, words: seq<string>, k: nat, o: WrapOptions)
    requires 1 <= k <= |words| && lh > 0.0 && o.Positive() && NonNeg(m)
    ensures |WrapRec(m, lh, words, k, o).lines| <= Jump(m, lh, words, k, o)
  {
    WrapRecLeast(m, lh, words, k, o, Jump(m, lh, words, k, o));
  }

  /** When the starting count is acceptable, both searches return its fit. */
  lemma StartAcceptable(m: Measure, lh: real, words: seq<string>, k: nat, o: WrapOptions)
    requires 1 <= k <= |words| && lh > 0.0 && o.Positive() && NonNeg(m)
    requires Acceptable(FitOf(m, Best(m, words, k)).width, k, lh, o)
    ensures Jump(m, lh, words, k, o) == k
    ensures WrapRec(m, lh, words, k, o) == FitOf(m, Best(m, words, k))
  {
    FitShape(m, words, k);
  }

  /**
   * `wrapText(doc, words, nbLines, options)` of the current generation:
   * installs the width memo, calls `fitWords` for growing line counts, and
   * removes the memo before returning.
   */
  method WrapText(doc: Surface.Doc, words: seq<string>, nbLines: nat, o: WrapOptions) returns (fit: Fitted)
    requires 1 <= nbLines <= |words| && o.Positive() && doc.Valid() && doc.cache.None?
    modifies doc`cache
    ensures doc.cache.None?
    ensures NonNeg(doc.Measure())
    ensures fit == FitOf(doc.Measure(), Best(doc.Measure(), words, Jump(doc.Measure(), doc.LineHeight(), words, nbLines, o)))
  {
    ghost var m := doc.Measure();
    var lh := doc.LineHeight();
    assert NonNeg(m);
    doc.cache := Some(map[]);
    var k := nbLines;
    while true
      invariant nbLines <= k <= |words|
      invariant doc.cache.Some? && doc.CacheSound() && doc.Measure() == m
      invariant Jump(m, lh, words, k, o) == Jump(m, lh, words, nbLines, o)
      decreases |words| - k
    {
      fit := FitWords(doc, words, k);
      FitShape(m, words, k);
      if Acceptable(fit.width, k, lh, o) || |words| == k {
        break;
      }
      var incr := Increment(fit.width, k, lh, o);
      assert Min(|words|, k + incr) == Next(m, lh, words, k, o);
      k := Min(|words|, k + incr);
    }
    doc.cache := None;
  }
}
