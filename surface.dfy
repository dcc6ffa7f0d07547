/**
 * The PDF document the engine draws on (a PDFKit `PDFDocument`): text
 * metrics for the current font, the line height, the memo that `wrapText`
 * installs in front of `widthOfString`, and the drawing calls, kept as an
 * append-only log of commands.
 */
module Surface {
  import opened Wrappers
  import Fit

  /** What `doc.font(...)` is given: a standard PDF font name or an embedded font file. */
  datatype FontRef = Standard(name: string) | Embedded(url: string)

  /** The drawing calls the engine makes, as logged commands. */
  datatype Cmd =
    | Save
    | Restore
    | Translate(dx: real, dy: real)
    | Rotate(angle: real)
    | Scale(sx: real, sy: real)
    | FillRect(w: real, h: real, color: string)
    | FillColor(color: string)
    | Background(url: string, w: real, h: real)
    | Picture(url: string, w: real, h: real)
    | UseFont(font: FontRef)
    | Text(s: string, x: real, y: real)
    | End

  /** `widthOfString` for font `f`, as a measure on strings. */
  function MeasureOf(metrics: (FontRef, string) -> real, f: FontRef): Fit.Measure
  {
    s => metrics(f, s)
  }

  class Doc {
    /** `widthOfString(s)` for a font, at the document's font size. */
    const metrics: (FontRef, string) -> real
    /** `currentLineHeight()` for a font. */
    const lineHeights: FontRef -> real
    var font: FontRef
    /** The memo `wrapText` puts in front of `widthOfString`, absent otherwise. */
    var cache: Option<map<string, real>>
    var log: seq<Cmd>

    /** Widths are never negative and lines have a positive height. */
    ghost predicate Valid()
    {
      (forall f, s :: metrics(f, s) >= 0.0) && (forall f :: lineHeights(f) > 0.0)
    }

    /** Every memoised width is the width of its string in the current font. */
    ghost predicate CacheSound()
      reads this`font, this`cache
    {
      cache.Some? ==> forall s :: s in cache.value ==> cache.value[s] == metrics(font, s)
    }

    /** `widthOfString` for the current font, as a measure on strings. */
    function Measure(): (m: Fit.Measure)
      reads this`font
      ensures forall s :: m(s) == metrics(font, s)
    {
      MeasureOf(metrics, font)
    }

    /** `currentLineHeight()`. */
    function LineHeight(): (h: real)
      reads this`font
      requires Valid()
      ensures h > 0.0 && h == lineHeights(font)
    {
      lineHeights(font)
    }

    /** A new document: PDFKit starts with Helvetica, nothing drawn. */
    constructor (metrics: (FontRef, string) -> real, lineHeights: FontRef -> real)
      ensures this.metrics == metrics && this.lineHeights == lineHeights
      ensures font == Standard("Helvetica") && cache == None && log == []
    {
      this.metrics := metrics;
      this.lineHeights := lineHeights;
      font := Standard("Helvetica");
      cache := None;
      log := [];
    }

    /**
     * `doc.widthOfString(s)`. While the memo is installed, a missing or zero
     * entry is computed and stored (the memo tests `!cache[string]`); the
     * result is the font's width either way.
     */
    method WidthOfString(s: string) returns (w: real)
      requires CacheSound()
      modifies this`cache
      ensures CacheSound()
      ensures w == metrics(font, s)
      ensures cache.Some? <==> old(cache).Some?
      ensures cache.Some? ==> s in cache.value && old(cache).value.Keys <= cache.value.Keys
    {
      match cache
      case None =>
        w := metrics(font, s);
      case Some(c) =>
        if !(s in c && c[s] != 0.0) {
          cache := Some(c[s := metrics(font, s)]);
        }
        w := cache.value[s];
    }

    /** `doc.font(f)`. */
    method SetFont(f: FontRef)
      modifies this`font, this`log
      ensures font == f && log == old(log) + [UseFont(f)]
    {
      font := f;
      log := log + [UseFont(f)];
    }

    /** Appends drawing commands. */
    method Draw(cmds: seq<Cmd>)
      modifies this`log
      ensures log == old(log) + cmds
    {
      log := log + cmds;
    }
  }
}
