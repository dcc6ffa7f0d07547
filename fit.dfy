/**
 * The line-fitting search of `fitWords`: split a list of words into a given
 * number of lines so that the widest line is as narrow as possible. The
 * search tries every length of the first line and recurses on the rest,
 * pruning a candidate whose first line or remainder is already at least as
 * wide as the best split found so far.
 *
 * The result is described here on groups of words; the lines of the source
 * are the groups joined with single spaces.
 */
module Fit {
  import opened Wrappers
  import opened Strings

  /** A measured width, or `+Infinity`. */
  datatype Width = Fin(w: real) | Inf

  /** `a < b` on widths. */
  predicate Below(a: Width, b: Width)
  {
    a.Fin? && (b.Inf? || a.w < b.w)
  }

  /** `a <= b` on widths. */
  predicate AtMost(a: Width, b: Width)
  {
    !Below(b, a)
  }

  /** `Math.max`. */
  function Max(a: Width, b: Width): Width
  {
    if a.Inf? || b.Inf? then Inf else Fin(if a.w >= b.w then a.w else b.w)
  }

  type Measure = string -> real
  type Groups = seq<seq<string>>

  /** The text of one line: its words joined with single spaces. */
  function LineOf(words: seq<string>): string
  {
    Join(words, " ")
  }

  /** The lines of a split. */
  function Lines(g: Groups): (r: seq<string>)
    ensures |r| == |g|
  {
    seq(|g|, k requires 0 <= k < |g| => LineOf(g[k]))
  }

  /** The width of the widest line, computed as `Math.max(width0, remainder.width)`. */
  function LineMax(m: Measure, g: Groups): real
    requires |g| >= 1
  {
    if |g| == 1 then m(LineOf(g[0])) else Max(Fin(m(LineOf(g[0]))), Fin(LineMax(m, g[1..]))).w
  }

  /** `fit.width`: the widest line of a split, +Infinity when there is none. */
  function WidthOf(m: Measure, o: Option<Groups>): Width
  {
    if o.Some? && |o.value| >= 1 then Fin(LineMax(m, o.value)) else Inf
  }

  /** The result of `fitWords(doc, words, n)`, as groups; None for `{lines: [], width: +Infinity}`. */
  function Best(m: Measure, words: seq<string>, n: nat): Option<Groups>
    requires n >= 1
    decreases n, 1
  {
    if n == 1 then Some([words])
    else if |words| < n then None
    else Scan(m, words, n, 0, None)
  }

  /**
   * The loop of `fitWords` from first-line length `i + 1` on, with `best`
   * the split kept so far.
   */
  function Scan(m: Measure, words: seq<string>, n: nat, i: nat, best: Option<Groups>): Option<Groups>
    requires n >= 2 && i <= |words|
    decreases n, 0, |words| - i
  {
    if i == |words| then best
    else
      var w0 := Fin(m(LineOf(words[..i + 1])));
      if !Below(w0, WidthOf(m, best)) then Scan(m, words, n, i + 1, best)
      else
        var rem := Best(m, words[i + 1..], n - 1);
        if !Below(WidthOf(m, rem), WidthOf(m, best)) then Scan(m, words, n, i + 1, best)
        else Scan(m, words, n, i + 1, Some([words[..i + 1]] + rem.value))
  }

  /**
   * The splits `fitWords` examines: one group for one line; otherwise at
   * least as many words as lines, a non-empty first group, and an examined
   * split of the remaining words.
   */
  predicate Examined(g: Groups, words: seq<string>, n: nat)
    decreases n
  {
    if n == 1 then g == [words]
    else
      n >= 2 && |words| >= n && |g| == n && 1 <= |g[0]| <= |words|
      && g[0] == words[..|g[0]|] && Examined(g[1..], words[|g[0]|..], n - 1)
  }

  function Flatten(g: Groups): seq<string>
  {
    if g == [] then [] else g[0] + Flatten(g[1..])
  }

  /** A split into `n` non-empty lines. */
  predicate IsSplit(g: Groups, words: seq<string>, n: nat)
  {
    |g| == n && Flatten(g) == words && forall k :: 0 <= k < |g| ==> g[k] != []
  }

  /** The value of the candidate whose first line holds `j + 1` words. */
  function Cand(m: Measure, words: seq<string>, n: nat, j: nat): Width
    requires n >= 2 && j < |words|
  {
    Max(Fin(m(LineOf(words[..j + 1]))), WidthOf(m, Best(m, words[j + 1..], n - 1)))
  }

  // -----------------------------------------------------------------------
  // Shape
  // -----------------------------------------------------------------------

  /** An examined split has `n` lines and its groups concatenate to the words. */
  lemma {:induction false} ExaminedShape(g: Groups, words: seq<string>, n: nat)
    requires n >= 1 && Examined(g, words, n)
    ensures |g| == n && Flatten(g) == words
    ensures forall k :: 0 <= k < n - 1 ==> g[k] != []
    decreases n
  {
    if n >= 2 {
      ExaminedShape(g[1..], words[|g[0]|..], n - 1);
      assert words == g[0] + words[|g[0]|..];
      forall k | 0 <= k < n - 1
        ensures g[k] != []
      {
        if k > 0 {
          assert g[k] == g[1..][k - 1];
        }
      }
    } else {
      assert Flatten(g) == words + Flatten([]);
    }
  }

  /** Every split into non-empty lines is examined. */
  lemma {:induction false} SplitIsExamined(g: Groups, words: seq<string>, n: nat)
    requires n >= 1 && IsSplit(g, words, n)
    ensures Examined(g, words, n)
    decreases n
  {
    FlattenLength(g);
    if n == 1 {
      assert g[1..] == [];
      assert Flatten(g[1..]) == [];
      assert Flatten(g) == g[0] + Flatten(g[1..]) == g[0];
      assert g == [g[0]];
    } else {
      assert words == g[0] + Flatten(g[1..]);
      assert words[..|g[0]|] == g[0];
      assert words[|g[0]|..] == Flatten(g[1..]);
      SplitIsExamined(g[1..], Flatten(g[1..]), n - 1);
    }
  }

  lemma {:induction false} FlattenLength(g: Groups)
    requires forall k :: 0 <= k < |g| ==> g[k] != []
    ensures |Flatten(g)| >= |g|
    decreases |g|
  {
    if g != [] {
      FlattenLength(g[1..]);
    }
  }

  /** A split kept by the loop is an examined split of the words. */
  lemma {:induction false} ScanExamined(m: Measure, words: seq<string>, n: nat, i: nat, best: Option<Groups>)
    requires n >= 2 && i <= |words| && |words| >= n
    requires best.None? || Examined(best.value, words, n)
    ensures Scan(m, words, n, i, best).None? || Examined(Scan(m, words, n, i, best).value, words, n)
    ensures best.Some? ==> Scan(m, words, n, i, best).Some?
    decreases n, 0, |words| - i
  {
    if i < |words| {
      var w0 := Fin(m(LineOf(words[..i + 1])));
      if Below(w0, WidthOf(m, best)) {
        var rem := Best(m, words[i + 1..], n - 1);
        BestShape(m, words[i + 1..], n - 1);
        if Below(WidthOf(m, rem), WidthOf(m, best)) {
          var g := [words[..i + 1]] + rem.value;
          assert g[1..] == rem.value;
          assert words[|g[0]|..] == words[i + 1..];
          ScanExamined(m, words, n, i + 1, Some(g));
          return;
        }
      }
      ScanExamined(m, words, n, i + 1, best);
    }
  }

  /**
   * `fitWords` base cases and shape: one line holds all the words; with
   * fewer words than lines there is no result (+Infinity); otherwise the
   * result is an examined split into exactly `n` lines.
   */
  lemma {:induction false} BestShape(m: Measure, words: seq<string>, n: nat)
    requires n >= 1
    ensures n == 1 ==> Best(m, words, n) == Some([words])
    ensures Best(m, words, n).None? <==> (n >= 2 && |words| < n)
    ensures Best(m, words, n).Some? ==> Examined(Best(m, words, n).value, words, n)
    decreases n, 1
  {
    if n >= 2 && |words| >= n {
      BestShape(m, words[1..], n - 1);
      var rem := Best(m, words[1..], n - 1);
      assert rem.Some?;
      var g := [words[..1]] + rem.value;
      assert g[1..] == rem.value;
      ExaminedShape(rem.value, words[1..], n - 1);
      assert Scan(m, words, n, 0, None) == Scan(m, words, n, 1, Some(g));
      ScanExamined(m, words, n, 1, Some(g));
    }
  }

  /** The lines of a split into non-empty groups join back to the words. */
  lemma {:induction false} LinesJoin(g: Groups)
    requires |g| >= 1 && forall k :: 0 <= k < |g| ==> g[k] != []
    ensures LineOf(Flatten(g)) == Join(Lines(g), " ")
    decreases |g|
  {
    if |g| == 1 {
      assert g[1..] == [];
      assert Flatten(g[1..]) == [];
      assert Flatten(g) == g[0] + Flatten(g[1..]) == g[0];
      assert Lines(g) == [LineOf(g[0])];
    } else {
      LinesJoin(g[1..]);
      assert Lines(g[1..]) == Lines(g)[1..];
      JoinAppend(g[0], Flatten(g[1..]));
    }
  }

  lemma {:induction false} JoinAppend(a: seq<string>, b: seq<string>)
    requires a != [] && b != []
    ensures Join(a + b, " ") == Join(a, " ") + " " + Join(b, " ")
    decreases |a|
  {
    if |a| == 1 {
      assert (a + b)[1..] == b;
    } else {
      assert (a + b)[1..] == a[1..] + b;
      JoinAppend(a[1..], b);
    }
  }

  // -----------------------------------------------------------------------
  // Optimality and ties
  // -----------------------------------------------------------------------

  /**
   * The loop result is no wider than the split it started from, nor than
   * any candidate it went through.
   */
  lemma {:induction false} ScanBelowAll(m: Measure, words: seq<string>, n: nat, i: nat, best: Option<Groups>)
    requires n >= 2 && i <= |words|
    requires best.Some? ==> |best.value| >= 1
    ensures var r := Scan(m, words, n, i, best);
      AtMost(WidthOf(m, r), WidthOf(m, best))
      && (forall j :: i <= j < |words| ==> AtMost(WidthOf(m, r), Cand(m, words, n, j)))
    decreases |words| - i
  {
    if i < |words| {
      var w0 := Fin(m(LineOf(words[..i + 1])));
      var rem := Best(m, words[i + 1..], n - 1);
      var c := Cand(m, words, n, i);
      if !Below(w0, WidthOf(m, best)) || !Below(WidthOf(m, rem), WidthOf(m, best)) {
        ScanBelowAll(m, words, n, i + 1, best);
      } else {
        var g := [words[..i + 1]] + rem.value;
        assert g[1..] == rem.value;
        assert WidthOf(m, Some(g)) == c;
        ScanBelowAll(m, words, n, i + 1, Some(g));
      }
    }
  }

  /** The loop result is either the split it started from or strictly narrower. */
  lemma {:induction false} ScanStrict(m: Measure, words: seq<string>, n: nat, i: nat, best: Option<Groups>)
    requires n >= 2 && i <= |words|
    requires best.Some? ==> |best.value| >= 1
    ensures var r := Scan(m, words, n, i, best);
      r == best || Below(WidthOf(m, r), WidthOf(m, best))
    decreases |words| - i
  {
    if i < |words| {
      var w0 := Fin(m(LineOf(words[..i + 1])));
      var rem := Best(m, words[i + 1..], n - 1);
      if !Below(w0, WidthOf(m, best)) || !Below(WidthOf(m, rem), WidthOf(m, best)) {
        ScanStrict(m, words, n, i + 1, best);
      } else {
        var g := [words[..i + 1]] + rem.value;
        assert g[1..] == rem.value;
        ScanStrict(m, words, n, i + 1, Some(g));
      }
    }
  }

  /** No examined split has a narrower widest line than the result of `fitWords`. */
  lemma {:induction false} BestOptimal(m: Measure, words: seq<string>, n: nat, g: Groups)
    requires n >= 1 && Examined(g, words, n)
    ensures Best(m, words, n).Some? && |Best(m, words, n).value| == n
    ensures LineMax(m, Best(m, words, n).value) <= LineMax(m, g)
    decreases n
  {
    BestShape(m, words, n);
    ExaminedShape(g, words, n);
    ExaminedShape(Best(m, words, n).value, words, n);
    if n >= 2 {
      var j := |g[0]| - 1;
      var rest := words[j + 1..];
      BestOptimal(m, rest, n - 1, g[1..]);
      assert words[..j + 1] == g[0];
      ScanBelowAll(m, words, n, 0, None);
      assert AtMost(Cand(m, words, n, j), Fin(LineMax(m, g)));
    }
  }

  /** Corollary for splits into non-empty lines. */
  lemma BestBeatsEverySplit(m: Measure, words: seq<string>, n: nat, g: Groups)
    requires n >= 1 && IsSplit(g, words, n)
    ensures Best(m, words, n).Some? && |Best(m, words, n).value| == n
    ensures LineMax(m, Best(m, words, n).value) <= LineMax(m, g)
  {
    SplitIsExamined(g, words, n);
    BestOptimal(m, words, n, g);
  }

  /**
   * A candidate that beats the starting split and reaches the loop's final
   * width has a first line at least as long as the result's: the loop keeps
   * the earliest candidate of minimal width.
   */
  lemma {:induction false} ScanEarliest(m: Measure, words: seq<string>, n: nat, i: nat, best: Option<Groups>, j: nat)
    requires n >= 2 && i <= j < |words|
    requires best.Some? ==> |best.value| >= 1
    requires Below(Cand(m, words, n, j), WidthOf(m, best))
    requires Cand(m, words, n, j) == WidthOf(m, Scan(m, words, n, i, best))
    ensures Scan(m, words, n, i, best).Some? && |Scan(m, words, n, i, best).value| >= 1
    ensures |Scan(m, words, n, i, best).value[0]| <= j + 1
    decreases |words| - i
  {
    var w0 := Fin(m(LineOf(words[..i + 1])));
    var rem := Best(m, words[i + 1..], n - 1);
    if !Below(w0, WidthOf(m, best)) || !Below(WidthOf(m, rem), WidthOf(m, best)) {
      assert !Below(Cand(m, words, n, i), WidthOf(m, best));
      ScanEarliest(m, words, n, i + 1, best, j);
    } else {
      var g := [words[..i + 1]] + rem.value;
      assert g[1..] == rem.value;
      assert WidthOf(m, Some(g)) == Cand(m, words, n, i);
      ScanStrict(m, words, n, i + 1, Some(g));
      var r := Scan(m, words, n, i + 1, Some(g));
      if r != Some(g) {
        ScanBelowAll(m, words, n, i + 1, Some(g));
        ScanEarliest(m, words, n, i + 1, Some(g), j);
      }
    }
  }

  /**
   * Ties keep the earlier split: any split as narrow as the result has a
   * first line at least as long as the result's.
   */
  lemma BestEarliest(m: Measure, words: seq<string>, n: nat, g: Groups)
    requires n >= 2 && Examined(g, words, n)
    requires Best(m, words, n).Some? && |Best(m, words, n).value| >= 1
    requires LineMax(m, g) <= LineMax(m, Best(m, words, n).value)
    ensures |Best(m, words, n).value[0]| <= |g[0]|
  {
    var j := |g[0]| - 1;
    var rest := words[j + 1..];
    BestOptimal(m, rest, n - 1, g[1..]);
    ExaminedShape(g, words, n);
    assert words[..j + 1] == g[0];
    ScanBelowAll(m, words, n, 0, None);
    assert Cand(m, words, n, j) == WidthOf(m, Best(m, words, n));
    ScanEarliest(m, words, n, 0, None, j);
  }

  // -----------------------------------------------------------------------
  // More lines, narrower fit
  // -----------------------------------------------------------------------

  /**
   * A measure under which a line is at least as wide as any non-empty
   * prefix or suffix of its words, as with non-negative advance widths.
   */
  ghost predicate Monotone(m: Measure)
  {
    forall words: seq<string>, i {:trigger words[..i], words[i..]} :: 0 < i < |words| ==>
      m(LineOf(words[..i])) <= m(LineOf(words)) && m(LineOf(words[i..])) <= m(LineOf(words))
  }

  /** One line of two or more words cut after its first word: no wider. */
  lemma RefineOne(m: Measure, words: seq<string>) returns (h: Groups)
    requires Monotone(m) && 2 <= |words|
    ensures |h| == 2 && Examined(h, words, 2)
    ensures LineMax(m, h) <= LineMax(m, [words])
  {
    h := [words[..1], words[1..]];
    assert h[1..] == [words[1..]];
    assert m(LineOf(words[..1])) <= m(LineOf(words)) && m(LineOf(words[1..])) <= m(LineOf(words));
  }

  /**
   * The first line of an examined split cut after its first word, when it
   * holds at least two: an examined split with one line more, no wider.
   */
  lemma RefineFirst(m: Measure, g: Groups, words: seq<string>, n: nat) returns (h: Groups)
    requires Monotone(m) && 2 <= n < |words| && Examined(g, words, n) && |g| == n && 2 <= |g[0]|
    ensures |h| == n + 1 && Examined(h, words, n + 1)
    ensures LineMax(m, h) <= LineMax(m, g)
  {
    var p := |g[0]|;
    var tail := [words[1..p]] + g[1..];
    h := [words[..1]] + tail;
    assert h[1..] == tail;
    assert tail[1..] == g[1..];
    assert words[1..][..p - 1] == words[1..p];
    assert words[1..][p - 1..] == words[p..];
    assert Examined(tail, words[1..], n);
    var w := words[..p];
    assert w[..1] == words[..1] && w[1..] == words[1..p];
    assert m(LineOf(w[..1])) <= m(LineOf(w)) && m(LineOf(w[1..])) <= m(LineOf(w));
  }

  /**
   * Under a monotone measure, an examined split into fewer lines than words
   * can be refined, by cutting one line in two, into an examined split with
   * one line more that is no wider.
   */
  lemma {:induction false} Refine(m: Measure, g: Groups, words: seq<string>, n: nat) returns (h: Groups)
    requires Monotone(m) && 1 <= n < |words| && Examined(g, words, n)
    ensures |g| == n && |h| == n + 1 && Examined(h, words, n + 1)
    ensures LineMax(m, h) <= LineMax(m, g)
    decreases n
  {
    ExaminedShape(g, words, n);
    if n == 1 {
      h := RefineOne(m, words);
    } else if n - 1 < |words[|g[0]|..]| {
      var h1 := Refine(m, g[1..], words[|g[0]|..], n - 1);
      h := [g[0]] + h1;
      assert h[1..] == h1;
    } else {
      h := RefineFirst(m, g, words, n);
    }
  }

  /**
   * Under a monotone measure, `fitWords(words, n).width` does not grow with
   * `n`: one line more never makes the best split wider.
   */
  lemma BestMonotone(m: Measure, words: seq<string>, n: nat)
    requires Monotone(m) && 1 <= n < |words|
    ensures Best(m, words, n).Some? && |Best(m, words, n).value| == n
    ensures Best(m, words, n + 1).Some? && |Best(m, words, n + 1).value| == n + 1
    ensures LineMax(m, Best(m, words, n + 1).value) <= LineMax(m, Best(m, words, n).value)
  {
    BestShape(m, words, n);
    var g := Best(m, words, n).value;
    var h := Refine(m, g, words, n);
    BestOptimal(m, words, n + 1, h);
  }

  /** The same across any range of line counts up to one line per word. */
  lemma {:induction false} BestAntitone(m: Measure, words: seq<string>, n: nat, k: nat)
    requires Monotone(m) && 1 <= n <= k <= |words|
    ensures Best(m, words, n).Some? && |Best(m, words, n).value| == n
    ensures Best(m, words, k).Some? && |Best(m, words, k).value| == k
    ensures LineMax(m, Best(m, words, k).value) <= LineMax(m, Best(m, words, n).value)
    decreases k - n
  {
    if n == k {
      BestShape(m, words, n);
      ExaminedShape(Best(m, words, n).value, words, n);
    } else {
      BestMonotone(m, words, n);
      BestAntitone(m, words, n + 1, k);
    }
  }
}
