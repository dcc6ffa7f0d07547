/**
 * Placement of a text field's lines inside its padded box: the multi-line
 * layout (one scale for the whole block, each line aligned within the
 * widest one), the single-line layout (horizontal stretch capped at
 * `maxHRatio` times the vertical one), and the choice between the two.
 */
module Layout {
  import opened Fit
  import opened JsValues
  import opened Surface
  import Wrap
  import Strings
  import Prep = Text

  /** `fieldOptions.align`. */
  datatype Align = AlignLeft | AlignRight | AlignCenter

  /** The `switch` on `align`: "left", "right", and anything else centres. */
  function AlignOf(v: Val): (a: Align)
    ensures a == AlignLeft <==> v == Str("left")
    ensures a == AlignRight <==> v == Str("right")
  {
    if v.Str? && v.s == "left" then AlignLeft
    else if v.Str? && v.s == "right" then AlignRight
    else AlignCenter
  }

  /**
   * The x offset of a line of width `lw` in a block of width `fw`: 0,
   * `fw - lw` or `(fw - lw) / 2`. A line no wider than the block stays
   * inside it, flush left, flush right, or with equal margins.
   */
  function LineX(a: Align, fw: real, lw: real): (x: real)
    ensures lw <= fw ==> 0.0 <= x && x + lw <= fw
    ensures a == AlignLeft ==> x == 0.0
    ensures a == AlignRight ==> x + lw == fw
    ensures a == AlignCenter ==> x == fw - (x + lw)
  {
    match a
    case AlignLeft => 0.0
    case AlignRight => fw - lw
    case AlignCenter => (fw - lw) / 2.0
  }

  /** `a / b` where the divisor is not zero; 0 stands for the IEEE infinities and NaN otherwise. */
  function Div(a: real, b: real): (q: real)
    ensures b != 0.0 ==> q * b == a
  {
    if b == 0.0 then 0.0 else a / b
  }

  // -----------------------------------------------------------------------
  // Multi-line layout
  // -----------------------------------------------------------------------

  /** The `doc.text(line, x, y)` calls of a block: line `i` at `y = i * lineHeight`. */
  function LineCmds(m: Measure, lh: real, lines: seq<string>, fw: real, a: Align): seq<Cmd>
  {
    seq(|lines|, i requires 0 <= i < |lines| => Text(lines[i], LineX(a, fw, m(lines[i])), i as real * lh))
  }

  /** `doc.scale(width / fit.width, height / (lineHeight * lines))`. */
  function BlockScale(lh: real, fit: Wrap.Fitted, o: Wrap.WrapOptions): Cmd
    requires fit.width.Fin?
  {
    Scale(Div(o.width, fit.width.w), Div(o.height, lh * |fit.lines| as real))
  }

  /** The block's scale followed by its lines. */
  function MultiLine(m: Measure, lh: real, fit: Wrap.Fitted, o: Wrap.WrapOptions, a: Align): seq<Cmd>
    requires fit.width.Fin?
  {
    [BlockScale(lh, fit, o)] + LineCmds(m, lh, fit.lines, fit.width.w, a)
  }

  /** Every line of a fit is at most as wide as the fit. */
  lemma FitLinesWithin(m: Measure, words: seq<string>, k: nat)
    requires 1 <= k <= |words|
    ensures var fit := Wrap.FitOf(m, Best(m, words, k));
      fit.width.Fin? && forall i :: 0 <= i < |fit.lines| ==> m(fit.lines[i]) <= fit.width.w
  {
    Wrap.FitShape(m, words, k);
    var g := Best(m, words, k).value;
    Wrap.LineMaxBounds(m, g);
  }

  /**
   * The multi-line layout of a fit: the scaled block is exactly the box,
   * lines are one line height apart from the top, and each line lies
   * within the block's width.
   */
  lemma MultiLineInsideBox(m: Measure, lh: real, words: seq<string>, k: nat, o: Wrap.WrapOptions, a: Align)
    requires 1 <= k <= |words| && lh > 0.0
    ensures var fit := Wrap.FitOf(m, Best(m, words, k));
      fit.width.Fin? && var cmds := MultiLine(m, lh, fit, o, a);
      |cmds| == k + 1 && cmds[0].Scale?
      && cmds[0].sy * (lh * k as real) == o.height
      && (fit.width.w != 0.0 ==> cmds[0].sx * fit.width.w == o.width)
      && forall i :: 1 <= i <= k ==>
        cmds[i].Text? && cmds[i].s == fit.lines[i - 1]
        && cmds[i].y == (i - 1) as real * lh
        && 0.0 <= cmds[i].x && cmds[i].x + m(cmds[i].s) <= fit.width.w
  {
    FitLinesWithin(m, words, k);
    Wrap.FitShape(m, words, k);
    var fit := Wrap.FitOf(m, Best(m, words, k));
    assert lh * k as real >= lh;
    var cmds := MultiLine(m, lh, fit, o, a);
    forall i | 1 <= i <= k
      ensures cmds[i] == Text(fit.lines[i - 1], LineX(a, fit.width.w, m(fit.lines[i - 1])), (i - 1) as real * lh)
    {
    }
  }

  /**
   * The loop that draws a block's lines: `y` starts at 0 and grows by the
   * line height after each line.
   */
  method DrawLines(doc: Doc, lines: seq<string>, fw: real, a: Align)
    requires doc.Valid() && doc.cache.None?
    modifies doc`cache, doc`log
    ensures doc.cache.None?
    ensures doc.log == old(doc.log) + LineCmds(doc.Measure(), doc.LineHeight(), lines, fw, a)
  {
    ghost var m, lh := doc.Measure(), doc.LineHeight();
    ghost var spec := LineCmds(m, lh, lines, fw, a);
    var y := 0.0;
    var i := 0;
    while i < |lines|
      invariant 0 <= i <= |lines|
      invariant doc.cache.None? && doc.Measure() == m && doc.LineHeight() == lh
      invariant y == i as real * lh
      invariant doc.log == old(doc.log) + spec[..i]
    {
      var lineWidth := doc.WidthOfString(lines[i]);
      assert spec[i] == Text(lines[i], LineX(a, fw, lineWidth), y);
      doc.Draw([Text(lines[i], LineX(a, fw, lineWidth), y)]);
      assert spec[..i + 1] == spec[..i] + [spec[i]];
      y := y + doc.LineHeight();
      i := i + 1;
    }
    assert spec[..i] == spec;
  }

  /**
   * A multi-line block drawn on `doc`: the scale, then the lines from the
   * top, one line height apart.
   */
  method DrawBlock(doc: Doc, fit: Wrap.Fitted, o: Wrap.WrapOptions, a: Align)
    requires doc.Valid() && doc.cache.None? && fit.width.Fin?
    modifies doc`cache, doc`log
    ensures doc.cache.None?
    ensures doc.log == old(doc.log) + MultiLine(doc.Measure(), doc.LineHeight(), fit, o, a)
  {
    ghost var m := doc.Measure();
    var lh := doc.LineHeight();
    ghost var log0 := doc.log;
    var scale := BlockScale(lh, fit, o);
    doc.Draw([scale]);
    DrawLines(doc, fit.lines, fit.width.w, a);
    assert doc.Measure() == m && doc.LineHeight() == lh;
    assert doc.log == log0 + ([scale] + LineCmds(m, lh, fit.lines, fit.width.w, a));
    assert MultiLine(m, lh, fit, o, a) == [scale] + LineCmds(m, lh, fit.lines, fit.width.w, a);
  }

  // -----------------------------------------------------------------------
  // Single-line layout
  // -----------------------------------------------------------------------

  /** `height / lineHeight`. */
  function SingleScaleY(o: Wrap.WrapOptions, lh: real): real
    requires lh > 0.0
  {
    o.height / lh
  }

  /**
   * `width / lineWidth`, lowered to `scaleY * maxHRatio` when larger. A
   * zero-width line has an infinite stretch and so takes the cap.
   */
  function SingleScaleX(lw: real, o: Wrap.WrapOptions, lh: real, maxH: real): real
    requires lh > 0.0
  {
    var cap := SingleScaleY(o, lh) * maxH;
    if lw == 0.0 || o.width / lw > cap then cap else o.width / lw
  }

  /** Translate by the aligned offset, scale, and draw a line of width `lw` at the origin. */
  function SingleCmds(line: string, lw: real, lh: real, o: Wrap.WrapOptions, maxH: real, a: Align): seq<Cmd>
    requires lh > 0.0
  {
    var sx := SingleScaleX(lw, o, lh, maxH);
    [Translate(LineX(a, o.width, lw * sx), 0.0), Scale(sx, SingleScaleY(o, lh)), Text(line, 0.0, 0.0)]
  }

  /** The single-line layout of `line` under measure `m`. */
  function SingleLine(m: Measure, lh: real, line: string, o: Wrap.WrapOptions, maxH: real, a: Align): seq<Cmd>
    requires lh > 0.0
  {
    SingleCmds(line, m(line), lh, o, maxH, a)
  }

  /** A single line drawn on `doc`: offset, capped stretch, then the text at the origin. */
  method DrawSingle(doc: Doc, line: string, o: Wrap.WrapOptions, maxH: real, a: Align)
    requires doc.Valid() && doc.cache.None?
    modifies doc`cache, doc`log
    ensures doc.cache.None?
    ensures doc.log == old(doc.log) + SingleLine(doc.Measure(), doc.LineHeight(), line, o, maxH, a)
  {
    var lh := doc.LineHeight();
    var lineWidth := doc.WidthOfString(line);
    var scaleX := Div(o.width, lineWidth);
    var scaleY := o.height / lh;
    if lineWidth == 0.0 || scaleX > scaleY * maxH {
      scaleX := scaleY * maxH;
    }
    assert scaleX == SingleScaleX(lineWidth, o, lh, maxH) && scaleY == SingleScaleY(o, lh);
    var x := LineX(a, o.width, lineWidth * scaleX);
    var cmds := [Translate(x, 0.0), Scale(scaleX, scaleY), Text(line, 0.0, 0.0)];
    ghost var spec := SingleCmds(line, lineWidth, lh, o, maxH, a);
    assert |spec| == 3;
    assert spec[0] == Translate(x, 0.0);
    assert spec[1] == Scale(scaleX, scaleY);
    assert spec[2] == Text(line, 0.0, 0.0);
    assert spec == [Translate(x, 0.0), Scale(scaleX, scaleY), Text(line, 0.0, 0.0)];
    assert doc.Measure()(line) == lineWidth;
    doc.Draw(cmds);
  }

  /**
   * The single-line layout never stretches more than `maxHRatio` times the
   * height scale, the scaled line fits the box width (exactly when the cap
   * is not reached), and so the aligned offset keeps it inside the box.
   */
  lemma SingleLineInsideBox(m: Measure, lh: real, line: string, o: Wrap.WrapOptions, maxH: real, a: Align)
    requires lh > 0.0 && o.width > 0.0 && m(line) >= 0.0
    ensures var sx := SingleScaleX(m(line), o, lh, maxH);
      var cmds := SingleLine(m, lh, line, o, maxH, a);
      sx <= SingleScaleY(o, lh) * maxH
      && m(line) * sx <= o.width
      && (sx < SingleScaleY(o, lh) * maxH ==> m(line) * sx == o.width)
      && cmds[0].Translate? && 0.0 <= cmds[0].dx && cmds[0].dx + m(line) * sx <= o.width
  {
    var lw := m(line);
    var cap := SingleScaleY(o, lh) * maxH;
    if lw != 0.0 {
      var q := o.width / lw;
      assert q * lw == o.width;
      if q > cap {
        assert lw * cap < lw * q;
      }
    }
  }

  // -----------------------------------------------------------------------
  // Text fields
  // -----------------------------------------------------------------------

  /**
   * The layout of a text wrapped into `k` lines: the best split of its words
   * into `k` lines; several lines use the multi-line layout and a single one
   * the single-line layout.
   */
  function WrappedLayout(m: Measure, lh: real, words: seq<string>, k: nat, o: Wrap.WrapOptions, maxH: real, a: Align): seq<Cmd>
    requires 1 <= k <= |words| && lh > 0.0
  {
    var fit := Wrap.FitOf(m, Best(m, words, k));
    Wrap.FitShape(m, words, k);
    if |fit.lines| > 1 then MultiLine(m, lh, fit, o, a)
    else SingleLine(m, lh, fit.lines[0], o, maxH, a)
  }

  /**
   * A text field of the current generation: the words of the text wrapped
   * from one line on by the jumping search of its `wrapText`.
   */
  function TextLayout(m: Measure, lh: real, text: string, o: Wrap.WrapOptions, maxH: real, a: Align): seq<Cmd>
    requires lh > 0.0 && o.Positive() && Wrap.NonNeg(m)
  {
    var words := Prep.SplitWords(text);
    WrappedLayout(m, lh, words, Wrap.Jump(m, lh, words, 1, o), o, maxH, a)
  }

  /**
   * A text field of the browser generation: the same layout, for the line
   * count of its one-line-at-a-time `wrapText`.
   */
  function BrowserTextLayout(m: Measure, lh: real, text: string, o: Wrap.WrapOptions, maxH: real, a: Align): seq<Cmd>
    requires lh > 0.0 && o.Positive()
  {
    var words := Prep.SplitWords(text);
    WrappedLayout(m, lh, words, |Wrap.WrapRec(m, lh, words, 1, o).lines|, o, maxH, a)
  }

  /**
   * The browser lays a text out in the fewest acceptable lines, and the
   * current generation in no fewer: when the current count is `c`, the
   * browser's is at most `c`, and every count below the browser's is
   * unacceptable.
   */
  lemma BrowserNoMoreLines(m: Measure, lh: real, text: string, o: Wrap.WrapOptions)
    requires lh > 0.0 && o.Positive() && Wrap.NonNeg(m)
    ensures var words := Prep.SplitWords(text);
      var b := |Wrap.WrapRec(m, lh, words, 1, o).lines|;
      1 <= b <= Wrap.Jump(m, lh, words, 1, o)
      && forall j :: 1 <= j < b ==> !Wrap.Acceptable(Wrap.FitOf(m, Best(m, words, j)).width, j, lh, o)
  {
    var words := Prep.SplitWords(text);
    Wrap.JumpNoFewer(m, lh, words, 1, o);
  }

  /** A text field of the original generation: words split on " ", always the centred multi-line layout. */
  function OriginalTextLayout(m: Measure, lh: real, text: string, o: Wrap.WrapOptions): seq<Cmd>
    requires lh > 0.0 && o.Positive()
  {
    var words := Strings.SplitOn(text, " ");
    var fit := Wrap.WrapRec(m, lh, words, 1, o);
    Wrap.FitShape(m, words, |fit.lines|);
    MultiLine(m, lh, fit, o, AlignCenter)
  }

  /** A fit of `k` lines drawn on `doc` with the layout `WrappedLayout` gives. */
  method DrawFit(doc: Doc, ghost words: seq<string>, ghost k: nat, fit: Wrap.Fitted, o: Wrap.WrapOptions, maxH: real, a: Align)
    requires doc.Valid() && doc.cache.None? && 1 <= k <= |words|
    requires fit == Wrap.FitOf(doc.Measure(), Best(doc.Measure(), words, k))
    modifies doc`cache, doc`log
    ensures doc.cache.None?
    ensures doc.log == old(doc.log) + WrappedLayout(doc.Measure(), doc.LineHeight(), words, k, o, maxH, a)
  {
    ghost var m, lh := doc.Measure(), doc.LineHeight();
    Wrap.FitShape(m, words, k);
    ghost var spec := WrappedLayout(m, lh, words, k, o, maxH, a);
    if |fit.lines| > 1 {
      assert spec == MultiLine(m, lh, fit, o, a);
      DrawBlock(doc, fit, o, a);
    } else {
      assert spec == SingleLine(m, lh, fit.lines[0], o, maxH, a);
      DrawSingle(doc, fit.lines[0], o, maxH, a);
    }
  }

  /**
   * Draws a text field of the current generation on `doc`:
   * `wrapText(doc, splitWords(text), 1, options)`, then the layout for the
   * number of lines found.
   */
  method DrawText(doc: Doc, text: string, o: Wrap.WrapOptions, maxH: real, a: Align)
    requires doc.Valid() && doc.cache.None? && o.Positive()
    modifies doc`cache, doc`log
    ensures doc.cache.None? && Wrap.NonNeg(doc.Measure())
    ensures doc.log == old(doc.log) + TextLayout(doc.Measure(), doc.LineHeight(), text, o, maxH, a)
  {
    ghost var m := doc.Measure();
    var lh := doc.LineHeight();
    var words := Prep.SplitWords(text);
    var fit := Wrap.WrapText(doc, words, 1, o);
    assert doc.Measure() == m;
    ghost var k := Wrap.Jump(m, lh, words, 1, o);
    assert old(doc.log) == doc.log;
    DrawFit(doc, words, k, fit, o, maxH, a);
  }

  /**
   * Draws a text field of the browser generation on `doc`: its recursive
   * `wrapText(doc, splitWords(text), 1, options)`, then the same layout.
   */
  method DrawBrowserText(doc: Doc, text: string, o: Wrap.WrapOptions, maxH: real, a: Align)
    requires doc.Valid() && doc.cache.None? && o.Positive()
    modifies doc`cache, doc`log
    ensures doc.cache.None?
    ensures doc.log == old(doc.log) + BrowserTextLayout(doc.Measure(), doc.LineHeight(), text, o, maxH, a)
  {
    var lh := doc.LineHeight();
    var words := Prep.SplitWords(text);
    var fit := Wrap.WrapRec(doc.Measure(), lh, words, 1, o);
    DrawFit(doc, words, |fit.lines|, fit, o, maxH, a);
  }

  /** The original generation's text field drawn on `doc`. */
  method DrawOriginalText(doc: Doc, text: string, o: Wrap.WrapOptions)
    requires doc.Valid() && doc.cache.None? && o.Positive()
    modifies doc`cache, doc`log
    ensures doc.cache.None?
    ensures doc.log == old(doc.log) + OriginalTextLayout(doc.Measure(), doc.LineHeight(), text, o)
  {
    ghost var m := doc.Measure();
    var lh := doc.LineHeight();
    var words := Strings.SplitOn(text, " ");
    var fit := Wrap.WrapRec(doc.Measure(), lh, words, 1, o);
    Wrap.FitShape(m, words, |fit.lines|);
    assert OriginalTextLayout(m, lh, text, o) == MultiLine(m, lh, fit, o, AlignCenter);
    assert old(doc.log) == doc.log;
    DrawBlock(doc, fit, o, AlignCenter);
  }
}
