/**
 * What `generatePDF` does with one field whose four edges are known, in
 * each generation of the engine: the box frame (save, move to the box,
 * rotation, inverted fill, colour, background), the next scraped image for
 * an image field, and for the other fields the text read from the inputs,
 * normalised, filtered and truncated, then padded, set in its font and laid
 * out as text or as a price. A price publishes `<id>.currency` and
 * `<id>.separator`.
 */
module Render {
  import opened Wrappers
  import opened JsValues
  import opened Surface
  import opened Fonts
  import Options
  import Fit
  import Wrap
  import Layout
  import Price
  import Prep = Text

  /** `src/templates/generate.js`, `src/grocery-signs.js` and `grocery-signs.js`. */
  datatype Generation = Current | Browser | Original

  /** A field box in page coordinates. */
  datatype Box = Box(left: real, top: real, right: real, bottom: real)
  {
    function Width(): real { right - left }
    function Height(): real { bottom - top }
  }

  /**
   * The arguments of `generatePDF`: the template, the input texts by input
   * id (the HTML inputs in the older generations), the shuffled scraped
   * images, and the global options.
   */
  datatype Job = Job(template: Template, inputs: Props, images: seq<ImageFile>, global: Props)

  /** `globalMaxLength`. */
  const GlobalMaxLength: real := 100.0

  function NumOr(v: Val, d: real): (r: real)
    ensures v.Num? ==> r == v.n
    ensures !v.Num? ==> r == d
  {
    if v.Num? then v.n else d
  }

  predicate IsStr(v: Val, s: string)
  {
    v.Str? && v.s == s
  }

  // -----------------------------------------------------------------------
  // Options
  // -----------------------------------------------------------------------

  /** The first object `mergeObjects` / `$.extend` is given. */
  function Defaults(gen: Generation, id: string): (d: Props)
    ensures gen == Current <==> "color" in d
  {
    var common := map[
      "inputId" := Str(id), "type" := Str("text"), "padX" := Num(0.0), "padY" := Num(0.0),
      "actualMaxLength" := Num(GlobalMaxLength), "maxRatio" := Num(2.0), "maxHRatio" := Num(4.0),
      "align" := Str("center"), "currency" := Str("$"), "separator" := Str(".")];
    if gen == Current then common["color" := Str("black")] else common
  }

  /**
   * The merged options of a field: defaults, then the global options
   * (current generation only), the template and the field, each defined
   * property overriding the earlier ones.
   */
  function FieldOptions(gen: Generation, job: Job, f: FieldEntry): Props
  {
    if gen == Current then Options.Overlay(Defaults(gen, f.id), [job.global, job.template.props, f.props])
    else Options.Overlay(Defaults(gen, f.id), [job.template.props, f.props])
  }

  /** The branch the field takes. */
  datatype Kind = TextKind | StaticKind | PriceKind | ImageKind | OtherKind

  /** The option values one field is drawn with. */
  datatype Settings = Settings(
    kind: Kind, inputKey: string, staticText: Val, filter: Val, maxLength: Val,
    padX: real, padY: real, maxRatio: real, maxHRatio: real, align: Layout.Align,
    currency: Val, separator: Val, fill: Option<string>, angle: Val,
    mainHeight: real, mainWidth: real, mainShift: Option<real>,
    inverted: bool, background: Val, font: Val, templateFont: Val)

  /** `type` compared with 'text', 'static', 'price' and 'image'; the older generations know only text and price. */
  function KindOf(gen: Generation, t: Val): (k: Kind)
    ensures k == PriceKind <==> IsStr(t, "price")
    ensures k == TextKind <==> IsStr(t, "text")
    ensures k == ImageKind ==> gen == Current
  {
    if IsStr(t, "text") then TextKind
    else if IsStr(t, "price") then PriceKind
    else if gen == Current && IsStr(t, "static") then StaticKind
    else if gen == Current && IsStr(t, "image") then ImageKind
    else OtherKind
  }

  /**
   * The settings: merged options in the current and browser generations,
   * `field.x || template.x || default` look-ups in the original one, which
   * reads its input by field id, has no filter, no length limit and no
   * alignment, and takes `currency`, `separator`, `mainHeight` and
   * `mainShift` from the field alone.
   */
  function SettingsOf(gen: Generation, job: Job, f: FieldEntry): (s: Settings)
    ensures gen != Current ==> s.background == Undefined && s.fill.None? && s.kind != ImageKind && s.kind != StaticKind
  {
    if gen == Original then OriginalSettings(job.template.props, f)
    else MergedSettings(gen, FieldOptions(gen, job, f), f)
  }

  /** The original generation's `||` look-ups on the field and the template. */
  function OriginalSettings(tp: Props, f: FieldEntry): (s: Settings)
    ensures s.background == Undefined && s.fill.None? && s.kind != ImageKind && s.kind != StaticKind
    ensures s.inputKey == f.id && s.filter == Undefined && s.maxLength == Undefined
  {
    var fp := f.props;
    Settings(
      KindOf(Original, Options.Or(Get(fp, "type"), Str("text"))), f.id, Undefined, Undefined, Undefined,
      NumOr(Options.Or(Options.Or(Get(fp, "padX"), Get(tp, "padX")), Num(0.0)), 0.0),
      NumOr(Options.Or(Options.Or(Get(fp, "padY"), Get(tp, "padY")), Num(0.0)), 0.0),
      NumOr(Options.Or(Options.Or(Get(fp, "maxRatio"), Get(tp, "maxRatio")), Num(2.0)), 2.0),
      4.0, Layout.AlignCenter,
      Options.Or(Get(fp, "currency"), Str("$")), Options.Or(Get(fp, "separator"), Str(".")),
      None, Undefined,
      NumOr(Get(fp, "mainHeight"), 0.0), 0.0,
      Some(NumOr(Options.Or(Get(fp, "mainShift"), Num(0.0)), 0.0)),
      Truthy(Get(fp, "inverted")), Undefined, Get(fp, "font"), Get(tp, "font"))
  }

  /** The settings read from the merged options `o` of the current or browser generation. */
  function MergedSettings(gen: Generation, o: Props, f: FieldEntry): (s: Settings)
    ensures gen != Current ==> s.background == Undefined && s.fill.None? && s.kind != ImageKind && s.kind != StaticKind
  {
    var inputId := Get(o, "inputId");
    Settings(
      KindOf(gen, Get(o, "type")), if inputId.Str? then inputId.s else f.id,
      Get(o, "text"), Get(o, "filter"), Get(o, "actualMaxLength"),
      NumOr(Get(o, "padX"), 0.0), NumOr(Get(o, "padY"), 0.0),
      NumOr(Get(o, "maxRatio"), 2.0), NumOr(Get(o, "maxHRatio"), 4.0), Layout.AlignOf(Get(o, "align")),
      Get(o, "currency"), Get(o, "separator"),
      if gen == Current then Some(var c := Get(o, "color"); if c.Str? then c.s else "black") else None,
      Get(o, "angle"),
      NumOr(Get(o, "mainHeight"), 0.0), if gen == Current then NumOr(Get(o, "mainWidth"), 0.0) else 0.0,
      None,
      Truthy(Get(f.props, "inverted")), if gen == Current then Get(f.props, "background") else Undefined,
      Get(o, "font"), Undefined)
  }

  /** No option of the field, the template or the global options sets any of these keys. */
  predicate Unset(p: Props)
  {
    forall k :: k in ["padX", "padY", "maxRatio", "maxHRatio", "align", "currency", "separator"] ==> k !in p
  }

  /**
   * The documented defaults are the engine's: no padding, a y/x ratio of 2,
   * an x/y ratio of 4, centred lines, "$" and ".".
   */
  lemma DocumentedDefaults(gen: Generation, job: Job, f: FieldEntry)
    requires Unset(job.global) && Unset(job.template.props) && Unset(f.props)
    ensures var s := SettingsOf(gen, job, f);
      s.padX == 0.0 && s.padY == 0.0 && s.maxRatio == 2.0 && s.maxHRatio == 4.0
      && s.align == Layout.AlignCenter && s.currency == Str("$") && s.separator == Str(".")
  {
    if gen == Original {
      OriginalDefaults(job.template.props, f);
    } else {
      OverlaidDefaults(gen, job, f);
    }
  }

  lemma OriginalDefaults(tp: Props, f: FieldEntry)
    requires Unset(tp) && Unset(f.props)
    ensures var s := OriginalSettings(tp, f);
      s.padX == 0.0 && s.padY == 0.0 && s.maxRatio == 2.0 && s.maxHRatio == 4.0
      && s.align == Layout.AlignCenter && s.currency == Str("$") && s.separator == Str(".")
  {
  }

  lemma OverlaidDefaults(gen: Generation, job: Job, f: FieldEntry)
    requires gen != Original
    requires Unset(job.global) && Unset(job.template.props) && Unset(f.props)
    ensures var s := MergedSettings(gen, FieldOptions(gen, job, f), f);
      s.padX == 0.0 && s.padY == 0.0 && s.maxRatio == 2.0 && s.maxHRatio == 4.0
      && s.align == Layout.AlignCenter && s.currency == Str("$") && s.separator == Str(".")
  {
    var d := Defaults(gen, f.id);
    DefaultValues(gen, f.id);
    var srcs := if gen == Current then [job.global, job.template.props, f.props] else [job.template.props, f.props];
    DefaultsKept(d, srcs);
    MergedDefaults(gen, FieldOptions(gen, job, f), f);
  }

  /** The values `Defaults` gives the documented keys. */
  lemma DefaultValues(gen: Generation, id: string)
    ensures var d := Defaults(gen, id);
      d["padX"] == Num(0.0) && d["padY"] == Num(0.0) && d["maxRatio"] == Num(2.0) && d["maxHRatio"] == Num(4.0)
      && d["align"] == Str("center") && d["currency"] == Str("$") && d["separator"] == Str(".")
  {
  }

  /** Merged options holding the default values give the default settings. */
  lemma MergedDefaults(gen: Generation, o: Props, f: FieldEntry)
    requires Get(o, "padX") == Num(0.0) && Get(o, "padY") == Num(0.0) && Get(o, "maxRatio") == Num(2.0)
    requires Get(o, "maxHRatio") == Num(4.0) && Get(o, "align") == Str("center")
    requires Get(o, "currency") == Str("$") && Get(o, "separator") == Str(".")
    ensures var s := MergedSettings(gen, o, f);
      s.padX == 0.0 && s.padY == 0.0 && s.maxRatio == 2.0 && s.maxHRatio == 4.0
      && s.align == Layout.AlignCenter && s.currency == Str("$") && s.separator == Str(".")
  {
  }

  /** Keys no source sets keep the default. */
  lemma DefaultsKept(d: Props, srcs: seq<Props>)
    requires forall k :: k in ["padX", "padY", "maxRatio", "maxHRatio", "align", "currency", "separator"] ==> k in d
    requires forall i :: 0 <= i < |srcs| ==> Unset(srcs[i])
    ensures forall k :: k in ["padX", "padY", "maxRatio", "maxHRatio", "align", "currency", "separator"] ==>
      Get(Options.Overlay(d, srcs), k) == d[k]
  {
    forall k | k in ["padX", "padY", "maxRatio", "maxHRatio", "align", "currency", "separator"]
      ensures Get(Options.Overlay(d, srcs), k) == d[k]
    {
      DefaultKept(d, srcs, k);
    }
  }

  lemma DefaultKept(d: Props, srcs: seq<Props>, k: string)
    requires k in d && forall i :: 0 <= i < |srcs| ==> k !in srcs[i]
    ensures Get(Options.Overlay(d, srcs), k) == d[k]
  {
    Options.NoneDefined(d, srcs, k);
  }

  /**
   * In the current generation the field's own value wins over the
   * template's, which wins over the global option's.
   */
  lemma FieldWins(job: Job, f: FieldEntry, key: string)
    requires key in f.props && !f.props[key].Undefined?
    ensures Get(FieldOptions(Current, job, f), key) == f.props[key]
  {
    Options.LastDefinedWins(Defaults(Current, f.id), [job.global, job.template.props, f.props], key, 2);
  }

  // -----------------------------------------------------------------------
  // Frame
  // -----------------------------------------------------------------------

  /** Saved state, origin at the box, and (current generation) the rotation and fill colour. */
  datatype Framed = Framed(cmds: seq<Cmd>, ok: bool)

  /**
   * `doc.save(); doc.translate(left, top)`, the rotation if `angle` is set
   * (current generation), the black box and white text of an inverted
   * field or the text colour, and the background image, which PDFKit
   * rejects unless it is a loaded, decodable image.
   */
  function FrameOf(gen: Generation, s: Settings, b: Box): (r: Framed)
    ensures |r.cmds| >= 2 && r.cmds[..2] == [Save, Translate(b.left, b.top)]
    ensures !r.ok ==> Truthy(s.background)
  {
    var rotate := if gen == Current && Truthy(s.angle) then [Rotate(NumOr(s.angle, 0.0))] else [];
    var color := if s.fill.Some? then s.fill.value else "black";
    var paint :=
      if s.inverted then [FillRect(b.Width(), b.Height(), color), FillColor("white")]
      else if s.fill.Some? then [FillColor(s.fill.value)] else [];
    var bg := s.background;
    var base := [Save, Translate(b.left, b.top)] + rotate + paint;
    if !Truthy(bg) then Framed(base, true)
    else if bg.Image? && bg.image.loaded && bg.image.decodable then
      Framed(base + [Background(bg.image.url, b.Width(), b.Height())], true)
    else Framed(base, false)
  }

  // -----------------------------------------------------------------------
  // Text of a field
  // -----------------------------------------------------------------------

  /** `normalizeString(v)`; None when `v.trim` is not a function. */
  function Normalized(v: Val): (r: Option<string>)
    ensures v.Undefined? ==> r == Some("")
    ensures v.Str? ==> r == Some(Prep.NormalizeString(Some(v.s)))
    ensures r.Some? <==> v.Undefined? || v.Str?
  {
    match v
    case Undefined => Some("")
    case Str(t) => Some(Prep.NormalizeString(Some(t)))
    case _ => None
  }

  /**
   * The text of a field: the static text or the input's value, normalised,
   * passed through the filter if one is set, and cut to `actualMaxLength`.
   * None when one of these throws.
   */
  function FieldText(s: Settings, job: Job): (r: Option<string>)
  {
    var raw := if s.kind == StaticKind then s.staticText else Get(job.inputs, s.inputKey);
    match Normalized(raw)
    case None => None
    case Some(t) =>
      if !Truthy(s.filter) then Some(Options.Truncate(t, s.maxLength))
      else if s.filter.Filter? then Some(Options.Truncate(s.filter.f(t), s.maxLength))
      else None
  }

  /**
   * Without a filter the text is a prefix of the normalised input, and no
   * longer than a positive limit; in the original generation it is the
   * normalised input itself.
   */
  lemma FieldTextBounds(s: Settings, job: Job)
    ensures var raw := if s.kind == StaticKind then s.staticText else Get(job.inputs, s.inputKey);
      var r := FieldText(s, job);
      (r.Some? && !Truthy(s.filter) ==> Normalized(raw).Some? && r.value <= Normalized(raw).value)
      && (r.Some? && s.maxLength.Num? && s.maxLength.n > 0.0 ==> |r.value| as real <= s.maxLength.n)
  {
  }

  /**
   * In the current and browser generations the text is no longer than the
   * field's positive `actualMaxLength`; when no field, template or global
   * option sets one, no longer than `globalMaxLength`.
   */
  lemma ShownWithin(gen: Generation, job: Job, f: FieldEntry)
    requires gen != Original
    ensures var r := FieldText(SettingsOf(gen, job, f), job);
      var m := Get(f.props, "actualMaxLength");
      (m.Num? && m.n > 0.0 && r.Some? ==> |r.value| as real <= m.n)
      && (m.Undefined? && Get(job.template.props, "actualMaxLength").Undefined?
            && Get(job.global, "actualMaxLength").Undefined? && r.Some?
          ==> |r.value| as real <= GlobalMaxLength)
  {
    var key := "actualMaxLength";
    var d := Defaults(gen, f.id);
    DefaultMaxLength(gen, f.id);
    if gen == Current {
      Options.FieldOverTemplate(d, job.global, job.template.props, f.props, key);
    } else if !Get(f.props, key).Undefined? {
      Options.LastDefinedWins(d, [job.template.props, f.props], key, 1);
    } else if Get(job.template.props, key).Undefined? {
      Options.NoneDefined(d, [job.template.props, f.props], key);
    }
    MergedMaxLength(gen, job, f);
    FieldTextBounds(SettingsOf(gen, job, f), job);
  }

  lemma DefaultMaxLength(gen: Generation, id: string)
    ensures Get(Defaults(gen, id), "actualMaxLength") == Num(GlobalMaxLength)
  {
  }

  lemma MergedMaxLength(gen: Generation, job: Job, f: FieldEntry)
    requires gen != Original
    ensures SettingsOf(gen, job, f).maxLength == Get(FieldOptions(gen, job, f), "actualMaxLength")
  {
  }

  /** The original generation shows the normalised input of the field's own id, whole. */
  lemma OriginalFieldText(job: Job, f: FieldEntry)
    ensures FieldText(SettingsOf(Original, job, f), job) == Normalized(Get(job.inputs, f.id))
  {
  }

  // -----------------------------------------------------------------------
  // Body
  // -----------------------------------------------------------------------

  /**
   * `doc.translate(padX, padY)`, and in the browser generation the rotation,
   * which it applies inside the padding.
   */
  function Prelude(gen: Generation, s: Settings): (cmds: seq<Cmd>)
    ensures |cmds| >= 1 && cmds[0] == Translate(s.padX, s.padY)
  {
    [Translate(s.padX, s.padY)] + (if gen == Browser && Truthy(s.angle) then [Rotate(NumOr(s.angle, 0.0))] else [])
  }

  /** The font a non-empty text is set in. */
  ghost function FontSpec(gen: Generation, s: Settings, text: string): FontChoice
  {
    match gen
    case Current => CurrentFontSpec(s.font, text)
    case Browser => LoadFont(s.font)
    case Original => OriginalFont(s.font, s.templateFont)
  }

  /** The drawing commands of the text or price, the coordinates published, and whether it threw. */
  datatype BodyOut = BodyOut(cmds: seq<Cmd>, marks: map<string, real>, throws: bool)

  /** The box a text is wrapped in: the padded box and the ratio limit. */
  function TextBox(s: Settings, b: Box): Wrap.WrapOptions
  {
    Wrap.WrapOptions(b.Width() - s.padX * 2.0, b.Height() - s.padY * 2.0, s.maxRatio)
  }

  /** The text layout of the generation; nothing for an empty padded box. */
  function TextBody(gen: Generation, m: Fit.Measure, lh: real, s: Settings, b: Box, text: string): seq<Cmd>
    requires lh > 0.0 && Wrap.NonNeg(m)
  {
    var o := TextBox(s, b);
    if !o.Positive() then []
    else
      match gen
      case Current => Layout.TextLayout(m, lh, text, o, s.maxHRatio, s.align)
      case Browser => Layout.BrowserTextLayout(m, lh, text, o, s.maxHRatio, s.align)
      case Original => Layout.OriginalTextLayout(m, lh, text, o)
  }

  /** The parse of the generation, None when it throws. */
  function PartsOf(gen: Generation, text: string, currency: string, sep: Val): Option<Price.Parts>
  {
    match gen
    case Current => Price.CurrentParts(text, currency, sep)
    case Browser => Price.BrowserParts(text, currency, sep)
    case Original => Price.OriginalParts(text, currency, sep)
  }

  /** The price layout of the generation, and the two coordinates it publishes. */
  function PriceBody(gen: Generation, m: Fit.Measure, lh: real, s: Settings, b: Box, id: string, text: string): (r: BodyOut)
    requires lh > 0.0
    ensures r.marks.Keys <= {id + ".currency", id + ".separator"}
    ensures r.marks != map[] ==> r.marks.Keys == {id + ".currency", id + ".separator"} && !r.throws
  {
    if !s.currency.Str? then BodyOut([], map[], false)
    else
      var c := s.currency.s;
      match PartsOf(gen, text, c, s.separator)
      case None => BodyOut([], map[], true)
      case Some(p) =>
        var pb := Price.PriceBox(b.Width(), b.Height(), s.padX, s.padY, s.mainHeight);
        var out :=
          if gen == Current then Price.CurrentPriceLayout(m, lh, b.left, pb, c, p, s.mainWidth)
          else Price.PlainPriceLayout(m, lh, b.left, pb, c, p, s.mainShift);
        BodyOut(out.cmds, map[id + ".currency" := out.currencyX, id + ".separator" := out.separatorX], false)
  }

  /** The `switch (type)`: text (and static text) or price; any other type draws nothing. */
  function Body(gen: Generation, m: Fit.Measure, lh: real, s: Settings, b: Box, id: string, text: string): (r: BodyOut)
    requires lh > 0.0 && Wrap.NonNeg(m)
    ensures r.marks != map[] ==> s.kind == PriceKind
  {
    match s.kind
    case TextKind => BodyOut(TextBody(gen, m, lh, s, b, text), map[], false)
    case StaticKind => BodyOut(TextBody(gen, m, lh, s, b, text), map[], false)
    case PriceKind => PriceBody(gen, m, lh, s, b, id, text)
    case _ => BodyOut([], map[], false)
  }

  // -----------------------------------------------------------------------
  // A whole field
  // -----------------------------------------------------------------------

  /**
   * What drawing one field does: the commands logged, the font it leaves
   * set (None: unchanged), the coordinates it publishes, whether it takes
   * the next image, and whether it threw (which ends `generatePDF`).
   */
  datatype Effect = Effect(cmds: seq<Cmd>, font: Option<FontRef>, marks: map<string, real>, advance: bool, throws: bool)

  /** Widths are never negative and line heights positive, in every font. */
  ghost predicate Metrics(metrics: (FontRef, string) -> real, lineHeights: FontRef -> real)
  {
    (forall f, s :: metrics(f, s) >= 0.0) && (forall f :: lineHeights(f) > 0.0)
  }

  lemma MeasureNonNeg(metrics: (FontRef, string) -> real, f: FontRef)
    requires forall f, s :: metrics(f, s) >= 0.0
    ensures Wrap.NonNeg(MeasureOf(metrics, f))
  {
    forall s ensures MeasureOf(metrics, f)(s) >= 0.0 {
      assert MeasureOf(metrics, f)(s) == metrics(f, s);
    }
  }

  /** The next image: taken when it exists and is loaded, drawn when PDFKit accepts it. */
  function ImageCmds(job: Job, b: Box, imageIndex: nat): (cmds: seq<Cmd>)
  {
    if imageIndex < |job.images| && job.images[imageIndex].loaded && job.images[imageIndex].decodable then
      [Picture(job.images[imageIndex].url, b.Width(), b.Height())]
    else []
  }

  /** A non-empty text: padding, font, then the body, unless choosing the font throws. */
  ghost function FontedEffect(gen: Generation, metrics: (FontRef, string) -> real, lineHeights: FontRef -> real,
                              s: Settings, b: Box, id: string, text: string): Effect
    requires Metrics(metrics, lineHeights)
  {
    match FontSpec(gen, s, text)
    case Throws => Effect(Prelude(gen, s), None, map[], false, true)
    case Use(fr) =>
      MeasureNonNeg(metrics, fr);
      var body := Body(gen, MeasureOf(metrics, fr), lineHeights(fr), s, b, id, text);
      Effect(Prelude(gen, s) + [UseFont(fr)] + body.cmds + (if body.throws then [] else [Restore]),
             Some(fr), body.marks, false, body.throws)
  }

  /** The text part of a field once the frame is drawn. */
  ghost function ContentEffect(gen: Generation, metrics: (FontRef, string) -> real, lineHeights: FontRef -> real,
                               job: Job, id: string, s: Settings, b: Box): Effect
    requires Metrics(metrics, lineHeights)
  {
    match FieldText(s, job)
    case None => Effect([], None, map[], false, true)
    case Some(text) =>
      if text == "" then Effect([Restore], None, map[], false, false)
      else FontedEffect(gen, metrics, lineHeights, s, b, id, text)
  }

  /** One field with settings `s` drawn in the box `b`, with the image cursor at `imageIndex`. */
  ghost function FieldEffect(gen: Generation, metrics: (FontRef, string) -> real, lineHeights: FontRef -> real,
                             job: Job, id: string, s: Settings, b: Box, imageIndex: nat): Effect
    requires Metrics(metrics, lineHeights)
  {
    var frame := FrameOf(gen, s, b);
    if !frame.ok then Effect(frame.cmds, None, map[], false, true)
    else if s.kind == ImageKind then
      var advance := imageIndex < |job.images| && job.images[imageIndex].loaded;
      Effect(frame.cmds + ImageCmds(job, b, imageIndex) + [Restore], None, map[], advance, false)
    else
      var c := ContentEffect(gen, metrics, lineHeights, job, id, s, b);
      Effect(frame.cmds + c.cmds, c.font, c.marks, false, c.throws)
  }

  /**
   * A field starts by saving the state and moving to its box, and unless
   * it throws it ends by restoring the state.
   */
  lemma FieldFramed(gen: Generation, metrics: (FontRef, string) -> real, lineHeights: FontRef -> real,
                    job: Job, id: string, s: Settings, b: Box, imageIndex: nat)
    requires Metrics(metrics, lineHeights)
    ensures var e := FieldEffect(gen, metrics, lineHeights, job, id, s, b, imageIndex);
      |e.cmds| >= 2 && e.cmds[0] == Save && e.cmds[1] == Translate(b.left, b.top)
      && (!e.throws ==> e.cmds[|e.cmds| - 1] == Restore)
  {
    var frame := FrameOf(gen, s, b);
    var rest := FieldRest(gen, metrics, lineHeights, job, id, s, b, imageIndex);
    KeepsEnds(frame.cmds, rest);
  }

  /**
   * What follows the frame: nothing when the background cannot be drawn,
   * and otherwise the image or the text part, which ends by restoring the
   * state unless it throws.
   */
  lemma FieldRest(gen: Generation, metrics: (FontRef, string) -> real, lineHeights: FontRef -> real,
                  job: Job, id: string, s: Settings, b: Box, imageIndex: nat) returns (rest: seq<Cmd>)
    requires Metrics(metrics, lineHeights)
    ensures var e := FieldEffect(gen, metrics, lineHeights, job, id, s, b, imageIndex);
      e.cmds == FrameOf(gen, s, b).cmds + rest && (!e.throws ==> |rest| >= 1 && rest[|rest| - 1] == Restore)
  {
    var frame := FrameOf(gen, s, b);
    FieldCmds(gen, metrics, lineHeights, job, id, s, b, imageIndex);
    if !frame.ok {
      rest := [];
    } else if s.kind == ImageKind {
      rest := ImageCmds(job, b, imageIndex) + [Restore];
    } else {
      ContentEndsRestore(gen, metrics, lineHeights, job, id, s, b);
      rest := ContentEffect(gen, metrics, lineHeights, job, id, s, b).cmds;
    }
  }

  /** A field's commands: its frame, then the image or the text part. */
  lemma FieldCmds(gen: Generation, metrics: (FontRef, string) -> real, lineHeights: FontRef -> real,
                    job: Job, id: string, s: Settings, b: Box, imageIndex: nat)
    requires Metrics(metrics, lineHeights)
    ensures var e, frame := FieldEffect(gen, metrics, lineHeights, job, id, s, b, imageIndex), FrameOf(gen, s, b);
      && (!frame.ok ==> e.cmds == frame.cmds && e.throws)
      && (frame.ok && s.kind == ImageKind ==> e.cmds == frame.cmds + (ImageCmds(job, b, imageIndex) + [Restore]) && !e.throws)
      && (frame.ok && s.kind != ImageKind ==>
            var c := ContentEffect(gen, metrics, lineHeights, job, id, s, b);
            e.cmds == frame.cmds + c.cmds && e.throws == c.throws)
  {
  }

  /** The text part ends by restoring the state unless it throws. */
  lemma ContentEndsRestore(gen: Generation, metrics: (FontRef, string) -> real, lineHeights: FontRef -> real,
                           job: Job, id: string, s: Settings, b: Box)
    requires Metrics(metrics, lineHeights)
    ensures var c := ContentEffect(gen, metrics, lineHeights, job, id, s, b);
      !c.throws ==> |c.cmds| >= 1 && c.cmds[|c.cmds| - 1] == Restore
  {
    var t := FieldText(s, job);
    if t.Some? && t.value != "" {
      var fc := FontSpec(gen, s, t.value);
      if fc.Use? {
        MeasureNonNeg(metrics, fc.font);
        var body := Body(gen, MeasureOf(metrics, fc.font), lineHeights(fc.font), s, b, id, t.value);
        var front := Prelude(gen, s) + [UseFont(fc.font)] + body.cmds;
        if !body.throws {
          assert (front + [Restore])[|front|] == Restore;
        }
      }
    }
  }

  /**
   * Only a price field with a non-empty text publishes coordinates, and
   * then exactly its `.currency` and `.separator`.
   */
  lemma MarksOnlyPrices(gen: Generation, metrics: (FontRef, string) -> real, lineHeights: FontRef -> real,
                        job: Job, id: string, s: Settings, b: Box, imageIndex: nat)
    requires Metrics(metrics, lineHeights)
    ensures var e := FieldEffect(gen, metrics, lineHeights, job, id, s, b, imageIndex);
      e.marks.Keys <= {id + ".currency", id + ".separator"}
      && (e.marks != map[] ==>
            s.kind == PriceKind && FieldText(s, job).Some? && FieldText(s, job).value != ""
            && e.marks.Keys == {id + ".currency", id + ".separator"})
  {
  }

  /**
   * The image cursor moves only for an image field of the current
   * generation whose image exists and is loaded, even when PDFKit rejects
   * the image.
   */
  lemma AdvanceOnlyImages(gen: Generation, metrics: (FontRef, string) -> real, lineHeights: FontRef -> real,
                          job: Job, id: string, s: Settings, b: Box, imageIndex: nat)
    requires Metrics(metrics, lineHeights)
    ensures var e := FieldEffect(gen, metrics, lineHeights, job, id, s, b, imageIndex);
      e.advance <==> (s.kind == ImageKind && FrameOf(gen, s, b).ok
                      && imageIndex < |job.images| && job.images[imageIndex].loaded)
  {
  }

  // -----------------------------------------------------------------------
  // Drawing
  // -----------------------------------------------------------------------

  /** `doc.font(...)` as each generation chooses it. */
  method ChooseFont(gen: Generation, s: Settings, text: string) returns (c: FontChoice)
    ensures c == FontSpec(gen, s, text)
  {
    match gen
    case Current => c := CurrentFont(s.font, text);
    case Browser => c := LoadFont(s.font);
    case Original => c := OriginalFont(s.font, s.templateFont);
  }

  /** The text or price of a field, drawn on `doc` in its current font. */
  method DrawBody(doc: Doc, gen: Generation, s: Settings, b: Box, id: string, text: string) returns (marks: map<string, real>, throws: bool)
    requires doc.Valid() && doc.cache.None?
    modifies doc`cache, doc`log
    ensures doc.cache.None?
    ensures Wrap.NonNeg(doc.Measure())
    ensures var r := Body(gen, doc.Measure(), doc.LineHeight(), s, b, id, text);
      doc.log == old(doc.log) + r.cmds && marks == r.marks && throws == r.throws
  {
    ghost var m := doc.Measure();
    var lh := doc.LineHeight();
    MeasureNonNeg(doc.metrics, doc.font);
    marks, throws := map[], false;
    match s.kind
    case PriceKind =>
      var r := PriceBody(gen, doc.Measure(), lh, s, b, id, text);
      doc.Draw(r.cmds);
      marks, throws := r.marks, r.throws;
    case OtherKind =>
    case ImageKind =>
    case _ =>
      var o := TextBox(s, b);
      if o.Positive() {
        match gen
        case Current => Layout.DrawText(doc, text, o, s.maxHRatio, s.align);
        case Browser => Layout.DrawBrowserText(doc, text, o, s.maxHRatio, s.align);
        case Original => Layout.DrawOriginalText(doc, text, o);
      }
  }

  /** A non-empty text drawn on `doc`, as `FontedEffect` describes. */
  method DrawFonted(doc: Doc, gen: Generation, s: Settings, b: Box, id: string, text: string)
    returns (marks: map<string, real>, throws: bool)
    requires doc.Valid() && doc.cache.None?
    modifies doc`font, doc`cache, doc`log
    ensures doc.cache.None?
    ensures var e := FontedEffect(gen, doc.metrics, doc.lineHeights, s, b, id, text);
      doc.log == old(doc.log) + e.cmds && marks == e.marks && throws == e.throws && !e.advance
      && doc.font == (if e.font.Some? then e.font.value else old(doc.font))
  {
    marks, throws := map[], false;
    doc.Draw(Prelude(gen, s));
    var choice := ChooseFont(gen, s, text);
    if choice.Throws? {
      throws := true;
      return;
    }
    doc.SetFont(choice.font);
    assert doc.Measure() == MeasureOf(doc.metrics, choice.font);
    marks, throws := DrawBody(doc, gen, s, b, id, text);
    ghost var body := Body(gen, MeasureOf(doc.metrics, choice.font), doc.lineHeights(choice.font), s, b, id, text);
    ghost var tail: seq<Cmd> := if throws then [] else [Restore];
    if !throws {
      doc.Draw([Restore]);
    }
    Append5(old(doc.log), Prelude(gen, s), [UseFont(choice.font)], body.cmds, tail);
  }

  /** The text part of a field once its frame is drawn, as `ContentEffect` describes. */
  method DrawContent(doc: Doc, gen: Generation, job: Job, id: string, s: Settings, b: Box)
    returns (marks: map<string, real>, throws: bool)
    requires doc.Valid() && doc.cache.None?
    modifies doc`font, doc`cache, doc`log
    ensures doc.cache.None?
    ensures var e := ContentEffect(gen, doc.metrics, doc.lineHeights, job, id, s, b);
      doc.log == old(doc.log) + e.cmds && marks == e.marks && throws == e.throws && !e.advance
      && doc.font == (if e.font.Some? then e.font.value else old(doc.font))
  {
    marks, throws := map[], false;
    var text := FieldText(s, job);
    if text.None? {
      throws := true;
    } else if text.value == "" {
      doc.Draw([Restore]);
    } else {
      marks, throws := DrawFonted(doc, gen, s, b, id, text.value);
    }
  }

  /**
   * One field whose box is known, drawn on `doc` with settings `s`: the frame, then the next
   * image or the text, as `FieldEffect` describes.
   */
  method DrawField(doc: Doc, gen: Generation, job: Job, id: string, s: Settings, b: Box, imageIndex: nat)
    returns (marks: map<string, real>, advance: bool, throws: bool)
    requires doc.Valid() && doc.cache.None?
    modifies doc`font, doc`cache, doc`log
    ensures doc.cache.None?
    ensures var e := FieldEffect(gen, doc.metrics, doc.lineHeights, job, id, s, b, imageIndex);
      doc.log == old(doc.log) + e.cmds && marks == e.marks && advance == e.advance && throws == e.throws
      && doc.font == (if e.font.Some? then e.font.value else old(doc.font))
  {
    var frame := FrameOf(gen, s, b);
    doc.Draw(frame.cmds);
    marks, advance, throws := map[], false, false;
    if !frame.ok {
      throws := true;
      return;
    }
    if s.kind == ImageKind {
      var pic := ImageCmds(job, b, imageIndex);
      if imageIndex < |job.images| && job.images[imageIndex].loaded {
        doc.Draw(pic);
        advance := true;
      } else {
        assert pic == [];
        assert doc.log == doc.log + pic;
      }
      doc.Draw([Restore]);
      Append4(old(doc.log), frame.cmds, pic, [Restore]);
      return;
    }
    ghost var log1 := doc.log;
    marks, throws := DrawContent(doc, gen, job, id, s, b);
    ghost var c := ContentEffect(gen, doc.metrics, doc.lineHeights, job, id, s, b);
    Append3(old(doc.log), frame.cmds, c.cmds);
  }

  /** The first two and the last command of a concatenation; kept apart so that the
      commands stay opaque. */
  lemma KeepsEnds(a: seq<Cmd>, b: seq<Cmd>)
    requires |a| >= 2
    ensures (a + b)[0] == a[0] && (a + b)[1] == a[1]
    ensures |b| >= 1 ==> (a + b)[|a + b| - 1] == b[|b| - 1]
  {
  }

  /** Regrouping of a drawing log; kept as lemmas so that the methods' proofs see
      the appended parts as opaque sequences. */
  lemma Append3(a: seq<Cmd>, b: seq<Cmd>, c: seq<Cmd>)
    ensures a + b + c == a + (b + c)
  {
  }

  lemma Append4(a: seq<Cmd>, b: seq<Cmd>, c: seq<Cmd>, d: seq<Cmd>)
    ensures a + b + c + d == a + (b + c + d)
  {
  }

  lemma Append5(a: seq<Cmd>, b: seq<Cmd>, c: seq<Cmd>, d: seq<Cmd>, e: seq<Cmd>)
    ensures a + b + c + d + e == a + (b + c + d + e)
  {
  }
}
