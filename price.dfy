/**
 * Price fields: the parse of the price text into currency sign, main part
 * and decimal part in each generation, and their layout. All three parts
 * share one horizontal scale (except the main part when `mainWidth` is
 * set), the main part is taller, and the x positions where the currency
 * sign and the main part end are published as `<id>.currency` and
 * `<id>.separator`.
 */
module Price {
  import opened Wrappers
  import opened Strings
  import opened JsValues
  import opened Surface
  import opened Fit
  import opened Layout
  import Prep = Text

  /**
   * `s.split(separator)` for a string or one-class regular expression
   * separator; any other separator leaves the text whole.
   */
  function SplitSeparator(s: string, sep: Val): seq<string>
  {
    match sep
    case Str(t) => SplitOn(s, t)
    case Regex(cls) => SplitAt(s, OneOf(cls))
    case _ => [s]
  }

  /**
   * `parts[parts.length - 1]` of `text.split(currency)`; None when the
   * split is empty, where the source reads `undefined` and then throws.
   */
  function LastPart(text: string, currency: string): Option<string>
  {
    var ps := SplitOn(text, currency);
    if ps == [] then None else Some(ps[|ps| - 1])
  }

  /** The main part and the decimal part; an empty decimal stands for a missing one. */
  datatype Parts = Parts(main: string, decimal: string)

  /**
   * The current generation's parse: the text after the last currency sign,
   * split on the separator. Without a decimal part, a main part longer than
   * four characters gives its last two characters to the decimal part.
   * None when the source throws.
   */
  function CurrentParts(text: string, currency: string, sep: Val): Option<Parts>
  {
    match LastPart(text, currency)
    case None => None
    case Some(last) =>
      var ps := SplitSeparator(last, sep);
      if ps == [] then None
      else
        var main := ps[0];
        var decimal := if |ps| > 1 then ps[1] else "";
        if decimal == "" && |main| > 4 then Some(Parts(main[..|main| - 2], main[|main| - 2..]))
        else Some(Parts(main, decimal))
  }

  /** The browser generation's parse: as the current one, but a missing decimal part is two spaces. */
  function BrowserParts(text: string, currency: string, sep: Val): Option<Parts>
  {
    match LastPart(text, currency)
    case None => None
    case Some(last) =>
      var ps := SplitSeparator(last, sep);
      if ps == [] then None
      else Some(Parts(ps[0], if |ps| > 1 && ps[1] != "" then ps[1] else "  "))
  }

  /**
   * The original generation's parse: the whole text split on the separator
   * first; the main part loses one leading character equal to the currency
   * sign; a missing decimal part is two spaces.
   */
  function OriginalParts(text: string, currency: string, sep: Val): Option<Parts>
  {
    var ps := SplitSeparator(text, sep);
    if ps == [] then None
    else
      var main := if |ps[0]| > 0 && [ps[0][0]] == currency then ps[0][1..] else ps[0];
      Some(Parts(main, if |ps| > 1 && ps[1] != "" then ps[1] else "  "))
  }

  /** The text after the last currency sign ends the text. */
  lemma LastPartEndsText(text: string, currency: string)
    requires currency != ""
    ensures LastPart(text, currency).Some?
    ensures var last := LastPart(text, currency).value;
      |last| <= |text| && text[|text| - |last|..] == last
  {
    SplitOnJoin(text, currency);
    Prep.JoinLast(SplitOn(text, currency), currency);
  }

  /** The first two pieces of a split, with the separator between them, start the text. */
  lemma FirstTwoPieces(s: string, sep: string)
    requires sep != ""
    ensures |SplitOn(s, sep)| >= 1 && SplitOn(s, sep)[0] <= s
    ensures var ps := SplitOn(s, sep); |ps| == 1 ==> ps[0] == s
    ensures var ps := SplitOn(s, sep); |ps| >= 2 ==> ps[0] + sep + ps[1] <= s
  {
    var ps := SplitOn(s, sep);
    SplitOnJoin(s, sep);
    JoinHead(ps, sep);
    if |ps| >= 2 {
      JoinHead(ps[1..], sep);
      assert Join(ps, sep) == ps[0] + sep + Join(ps[1..], sep);
    }
  }

  /**
   * The current parse with string currency and separator: with a decimal
   * part, main, separator and decimal start the text after the last
   * currency sign; otherwise main and decimal together are its first
   * piece, the decimal taking two characters exactly when that piece is
   * longer than four.
   */
  lemma CurrentPartsSplit(text: string, currency: string, sep: string)
    requires currency != "" && sep != ""
    ensures CurrentParts(text, currency, Str(sep)).Some?
    ensures var last := LastPart(text, currency).value;
      var ps := SplitOn(last, sep);
      var r := CurrentParts(text, currency, Str(sep)).value;
      (|ps| >= 2 && ps[1] != "" ==> r == Parts(ps[0], ps[1]) && r.main + sep + r.decimal <= last)
      && (!(|ps| >= 2 && ps[1] != "") ==>
            r.main + r.decimal == ps[0] && ps[0] <= last
            && (|ps| == 1 ==> ps[0] == last)
            && (|ps[0]| > 4 <==> |r.decimal| == 2)
            && (|ps[0]| <= 4 ==> r.decimal == ""))
  {
    LastPartEndsText(text, currency);
    var last := LastPart(text, currency).value;
    FirstTwoPieces(last, sep);
    var ps := SplitOn(last, sep);
    if !(|ps| >= 2 && ps[1] != "") && |ps[0]| > 4 {
      assert ps[0] == ps[0][..|ps[0]| - 2] + ps[0][|ps[0]| - 2..];
    }
  }

  /** The browser parse never leaves the decimal part empty. */
  lemma BrowserPartsSplit(text: string, currency: string, sep: string)
    requires currency != "" && sep != ""
    ensures BrowserParts(text, currency, Str(sep)).Some?
    ensures var last := LastPart(text, currency).value;
      var ps := SplitOn(last, sep);
      var r := BrowserParts(text, currency, Str(sep)).value;
      r.main == ps[0] && r.decimal != ""
      && (|ps| >= 2 && ps[1] != "" ==> r.main + sep + r.decimal <= last)
      && (!(|ps| >= 2 && ps[1] != "") ==> r.decimal == "  ")
  {
    LastPartEndsText(text, currency);
    FirstTwoPieces(LastPart(text, currency).value, sep);
  }

  /**
   * The original parse: the first piece of the text is the main part,
   * preceded by the currency sign when that sign is its first character.
   */
  lemma OriginalPartsSplit(text: string, currency: string, sep: string)
    requires sep != ""
    ensures OriginalParts(text, currency, Str(sep)).Some?
    ensures var ps := SplitOn(text, sep);
      var r := OriginalParts(text, currency, Str(sep)).value;
      ps[0] <= text && r.decimal != ""
      && (|ps[0]| > 0 && [ps[0][0]] == currency ==> currency + r.main == ps[0])
      && (!(|ps[0]| > 0 && [ps[0][0]] == currency) ==> r.main == ps[0])
      && (|ps| >= 2 && ps[1] != "" ==> ps[0] + sep + r.decimal <= text)
  {
    FirstTwoPieces(text, sep);
    var ps := SplitOn(text, sep);
    if |ps[0]| > 0 && [ps[0][0]] == currency {
      assert ps[0] == [ps[0][0]] + ps[0][1..];
    }
  }

  // -----------------------------------------------------------------------
  // Layout
  // -----------------------------------------------------------------------

  /** The field box (width and height of the resolved box), the padding and `mainHeight`. */
  datatype PriceBox = PriceBox(width: real, height: real, padX: real, padY: real, mainHeight: real)

  /** The drawing commands, then the values stored under `<id>.currency` and `<id>.separator`. */
  datatype PriceOut = PriceOut(cmds: seq<Cmd>, currencyX: real, separatorX: real)

  /** `decimal || '00'`: the decimal part the widths are computed with. */
  function Decimal00(p: Parts): string
  {
    if p.decimal == "" then "00" else p.decimal
  }

  /**
   * The shared horizontal scale of the current generation: with
   * `mainWidth`, what is left of `width - padX` after it, over the width of
   * currency and decimal; otherwise `width - padX` over the width of all
   * three parts.
   */
  function CurrentScaleX(m: Measure, b: PriceBox, currency: string, p: Parts, mainWidth: real): real
  {
    if mainWidth != 0.0 then Div(b.width - b.padX - mainWidth, m(currency + Decimal00(p)))
    else Div(b.width - b.padX, m(currency + p.main + Decimal00(p)))
  }

  /** The main part's horizontal scale: `mainWidth` over its width, or the shared scale. */
  function CurrentScaleXMain(m: Measure, b: PriceBox, currency: string, p: Parts, mainWidth: real): real
  {
    if mainWidth != 0.0 then Div(mainWidth, m(p.main)) else CurrentScaleX(m, b, currency, p, mainWidth)
  }

  /** `(height - padY * 2) / lineHeight` and the same for `mainHeight`. */
  function ScaleY(lh: real, h: real, padY: real): real
    requires lh > 0.0
  {
    (h - padY * 2.0) / lh
  }

  /**
   * The current generation's price layout, drawn at the box origin shifted
   * by the padding; `left` is the box's left edge on the page.
   */
  function CurrentPriceLayout(m: Measure, lh: real, left: real, b: PriceBox, currency: string, p: Parts, mainWidth: real): PriceOut
    requires lh > 0.0
  {
    var sx := CurrentScaleX(m, b, currency, p, mainWidth);
    var sxm := CurrentScaleXMain(m, b, currency, p, mainWidth);
    var sy := ScaleY(lh, b.height, b.padY);
    var x1 := m(currency);
    var x2 := x1 + Div(m(p.main) * sxm, sx);
    PriceOut(
      [Save, Scale(sx, sy), Text(currency, 0.0, 0.0), Restore,
       Save, Scale(sxm, ScaleY(lh, b.mainHeight, b.padY)), Text(p.main, Div(x1 * sx, sxm), 0.0), Restore,
       Scale(sx, sy), Text(p.decimal, x2, 0.0)],
      left + x1 * sx, left + x2 * sx)
  }

  /**
   * `.currency` is the left edge plus the scaled currency width, and
   * `.separator` is `.currency` plus the main part's scaled width, which is
   * `mainWidth` itself when that is set.
   */
  lemma CurrentPriceCoords(m: Measure, lh: real, left: real, b: PriceBox, currency: string, p: Parts, mainWidth: real)
    requires lh > 0.0
    ensures var r := CurrentPriceLayout(m, lh, left, b, currency, p, mainWidth);
      var sx := CurrentScaleX(m, b, currency, p, mainWidth);
      var sxm := CurrentScaleXMain(m, b, currency, p, mainWidth);
      r.currencyX == left + m(currency) * sx
      && (sx != 0.0 ==> r.separatorX - r.currencyX == m(p.main) * sxm)
      && (mainWidth != 0.0 && sx != 0.0 && m(p.main) != 0.0 ==> r.separatorX - r.currencyX == mainWidth)
  {
    var sx := CurrentScaleX(m, b, currency, p, mainWidth);
    var sxm := CurrentScaleXMain(m, b, currency, p, mainWidth);
    var r := CurrentPriceLayout(m, lh, left, b, currency, p, mainWidth);
    var x1, w := m(currency), m(p.main);
    assert r.currencyX == left + x1 * sx;
    assert r.separatorX == left + (x1 + Div(w * sxm, sx)) * sx;
    if sx != 0.0 {
      ScaledOffset(left, x1, w, sxm, sx);
    }
    if mainWidth != 0.0 && w != 0.0 {
      assert sxm == Div(mainWidth, w);
      WidthBack(mainWidth, w);
    }
  }

  /** Scaling `w` by `mainWidth / w` gives `mainWidth` back. */
  lemma WidthBack(mainWidth: real, w: real)
    requires w != 0.0
    ensures w * Div(mainWidth, w) == mainWidth
  {
  }

  /** Moving by `w * sxm / sx` at scale `sx` moves by `w * sxm`. */
  lemma ScaledOffset(left: real, x1: real, w: real, sxm: real, sx: real)
    requires sx != 0.0
    ensures (left + (x1 + Div(w * sxm, sx)) * sx) - (left + x1 * sx) == w * sxm
  {
    var d := Div(w * sxm, sx);
    assert d * sx == w * sxm;
    assert (x1 + d) * sx == x1 * sx + d * sx;
  }

  /** The main part starts at `.currency` and the decimal part at `.separator`. */
  lemma CurrentPriceParts(m: Measure, lh: real, left: real, b: PriceBox, currency: string, p: Parts, mainWidth: real)
    requires lh > 0.0
    ensures var r := CurrentPriceLayout(m, lh, left, b, currency, p, mainWidth);
      var sx := CurrentScaleX(m, b, currency, p, mainWidth);
      var sxm := CurrentScaleXMain(m, b, currency, p, mainWidth);
      |r.cmds| == 10 && r.cmds[6] == Text(p.main, r.cmds[6].x, 0.0) && r.cmds[9] == Text(p.decimal, r.cmds[9].x, 0.0)
      && (sxm != 0.0 ==> left + r.cmds[6].x * sxm == r.currencyX)
      && left + r.cmds[9].x * sx == r.separatorX
  {
  }

  /**
   * The parts fill `width - padX`: all three at the shared scale, or
   * currency and decimal at the shared scale plus `mainWidth`.
   */
  lemma CurrentPriceFills(m: Measure, b: PriceBox, currency: string, p: Parts, mainWidth: real)
    ensures var sx := CurrentScaleX(m, b, currency, p, mainWidth);
      (mainWidth != 0.0 && m(currency + Decimal00(p)) != 0.0 ==>
         sx * m(currency + Decimal00(p)) + mainWidth == b.width - b.padX)
      && (mainWidth == 0.0 && m(currency + p.main + Decimal00(p)) != 0.0 ==>
         sx * m(currency + p.main + Decimal00(p)) == b.width - b.padX)
  {
  }

  /**
   * The browser layout (`mainShift` None) and the original one, which also
   * moves the main part down by `mainShift`: one horizontal scale, `width -
   * padX` over the width of the three parts.
   */
  function PlainPriceLayout(m: Measure, lh: real, left: real, b: PriceBox, currency: string, p: Parts, mainShift: Option<real>): PriceOut
    requires lh > 0.0
  {
    var sx := Div(b.width - b.padX, m(currency + p.main + p.decimal));
    var sy := ScaleY(lh, b.height, b.padY);
    var x1 := m(currency);
    var x2 := x1 + m(p.main);
    var shift := if mainShift.Some? then [Translate(0.0, mainShift.value)] else [];
    PriceOut(
      [Save, Scale(sx, sy), Text(currency, 0.0, 0.0), Restore, Save]
      + shift
      + [Scale(sx, ScaleY(lh, b.mainHeight, b.padY)), Text(p.main, x1, 0.0), Restore,
         Scale(sx, sy), Text(p.decimal, x2, 0.0)],
      left + x1 * sx, left + x2 * sx)
  }

  /**
   * What the older layouts publish: `.separator` is `.currency` plus the
   * main part's width at the shared scale, the main and decimal parts
   * start at those two positions, and the parts fill `width - padX`.
   */
  lemma PlainPriceCoords(m: Measure, lh: real, left: real, b: PriceBox, currency: string, p: Parts, mainShift: Option<real>)
    requires lh > 0.0
    ensures var r := PlainPriceLayout(m, lh, left, b, currency, p, mainShift);
      var sx := Div(b.width - b.padX, m(currency + p.main + p.decimal));
      var k := if mainShift.Some? then 1 else 0;
      r.currencyX == left + m(currency) * sx
      && r.separatorX - r.currencyX == m(p.main) * sx
      && |r.cmds| == 10 + k && r.cmds[6 + k].Text? && r.cmds[9 + k].Text?
      && left + r.cmds[6 + k].x * sx == r.currencyX
      && left + r.cmds[9 + k].x * sx == r.separatorX
      && (mainShift.Some? ==> r.cmds[5] == Translate(0.0, mainShift.value))
      && (m(currency + p.main + p.decimal) != 0.0 ==> sx * m(currency + p.main + p.decimal) == b.width - b.padX)
  {
    var sx := Div(b.width - b.padX, m(currency + p.main + p.decimal));
    assert (m(currency) + m(p.main)) * sx == m(currency) * sx + m(p.main) * sx;
  }
}
