/**
 * The shipped templates: "Rubik Black", "Template 1", "Template 2" and
 * "Template 3", all US Letter pages set in the first font set, with their
 * fields in declaration order, and the word filters "Template 3" uses to
 * spread one input over two boxes.
 */
module Templates {
  import opened Wrappers
  import opened JsValues
  import opened Strings
  import opened Text
  import Options
  import opened Surface
  import opened Render
  import opened Resolver

  // -----------------------------------------------------------------------
  // Word filters
  // -----------------------------------------------------------------------

  /** `splitWords(text).slice(0, -1).join(" ")`: every word but the last. */
  function AllButLast(text: string): string
  {
    var ws := SplitWords(text);
    if |ws| == 0 then "" else Join(ws[..|ws| - 1], " ")
  }

  /** `splitWords(text).slice(-1).join(" ")`: the last word. */
  function LastWord(text: string): string
  {
    var ws := SplitWords(text);
    if |ws| == 0 then "" else ws[|ws| - 1]
  }

  lemma {:induction false} JoinSnoc(ps: seq<string>, x: string, sep: string)
    requires |ps| >= 1
    ensures Join(ps + [x], sep) == Join(ps, sep) + sep + x
    decreases |ps|
  {
    if |ps| == 1 {
      assert ps + [x] == [ps[0]] + [x];
      JoinCons(ps[0], [x], sep);
    } else {
      assert ps + [x] == [ps[0]] + (ps[1..] + [x]);
      JoinCons(ps[0], ps[1..] + [x], sep);
      JoinSnoc(ps[1..], x, sep);
      assert ps == [ps[0]] + ps[1..];
      JoinCons(ps[0], ps[1..], sep);
    }
  }

  /**
   * On normalised text the two filters split it at its last space: the
   * boxes show the words but the last and the last word, which put back
   * together with a space are the text; a single word goes wholly to the
   * second box and leaves the first one empty.
   */
  lemma FiltersSplit(t: string)
    requires IsNormal(t) && t != ""
    ensures Spaceless(LastWord(t)) && LastWord(t) != ""
    ensures |SplitWords(t)| >= 2 ==> AllButLast(t) + " " + LastWord(t) == t
    ensures |SplitWords(t)| == 1 ==> AllButLast(t) == "" && LastWord(t) == t
  {
    NormalWords(t);
    var ws := SplitWords(t);
    if |ws| == 1 {
      assert Join(ws, " ") == ws[0];
    } else if |ws| >= 2 {
      var n := |ws| - 1;
      assert ws == ws[..n] + [ws[n]];
      JoinSnoc(ws[..n], ws[n], " ");
    }
  }

  /** A field with its own `inputId` and filter function reads that input through that filter. */
  lemma FilterSettings(job: Job, f: FieldEntry, inputId: string, filter: string -> string)
    requires Get(f.props, "inputId") == Str(inputId) && Get(f.props, "filter") == Filter(filter)
    ensures var s := SettingsOf(Current, job, f);
      s.inputKey == inputId && s.filter == Filter(filter)
  {
    FieldWins(job, f, "inputId");
    FieldWins(job, f, "filter");
  }

  /** A field that no source gives a `static` type reads its input. */
  lemma NotStatic(job: Job, f: FieldEntry)
    requires Get(f.props, "type").Undefined? && Get(job.template.props, "type").Undefined?
    requires !IsStr(Get(job.global, "type"), "static")
    ensures SettingsOf(Current, job, f).kind != StaticKind
  {
    DefaultType(f.id);
    Options.FieldOverTemplate(Defaults(Current, f.id), job.global, job.template.props, f.props, "type");
  }

  /** With a filter function the text is the filtered normalised input, cut to the limit. */
  lemma FilteredText(s: Settings, job: Job, filter: string -> string)
    requires s.kind != StaticKind && s.filter == Filter(filter)
    ensures FieldText(s, job) ==
      match Normalized(Get(job.inputs, s.inputKey))
      case None => None
      case Some(t) => Some(Options.Truncate(filter(t), s.maxLength))
  {
  }

  lemma Template3Parts(bang: ImageFile, k: nat)
    requires k in {0, 2, 5, 7}
    ensures var f := Template3Field(bang, k);
      Get(f.props, "inputId") == Str(if k < 3 then "FIELD01" else "FIELD04")
      && Get(f.props, "filter") == Filter(if k == 0 || k == 5 then AllButLast else LastWord)
      && Get(f.props, "type").Undefined?
  {
    assert "inputId" != "left" && "inputId" != "top" && "inputId" != "right" && "inputId" != "bottom";
    assert "filter" != "left" && "filter" != "top" && "filter" != "right" && "filter" != "bottom";
    assert "type" != "left" && "type" != "top" && "type" != "right" && "type" != "bottom";
  }

  /**
   * In "Template 3" the boxes FIELD01.1 and FIELD01.2 both read the input
   * FIELD01, the first through the all-but-last-word filter and the second
   * through the last-word filter (and likewise FIELD04.1 and FIELD04.2 for
   * FIELD04), so the two boxes share the input's words between them.
   */
  lemma Template3Halves(fontSet: seq<FontFile>, bang: ImageFile, job: Job, k: nat)
    requires job.template == Template3(fontSet, bang) && k in {0, 2, 5, 7}
    requires !IsStr(Get(job.global, "type"), "static")
    ensures var s := SettingsOf(Current, job, job.template.fields[k]);
      var input := if k < 3 then "FIELD01" else "FIELD04";
      s.inputKey == input
      && FieldText(s, job) ==
           match Normalized(Get(job.inputs, input))
           case None => None
           case Some(t) => Some(Options.Truncate(if k == 0 || k == 5 then AllButLast(t) else LastWord(t), s.maxLength))
  {
    var f := job.template.fields[k];
    var filter := if k == 0 || k == 5 then AllButLast else LastWord;
    Template3Parts(bang, k);
    PageUnlimited(fontSet, 5.0);
    NotStatic(job, f);
    FilterSettings(job, f, if k < 3 then "FIELD01" else "FIELD04", filter);
    FilteredText(SettingsOf(Current, job, f), job, filter);
  }

  // -----------------------------------------------------------------------
  // The templates
  // -----------------------------------------------------------------------

  /** A field with numeric edges and nothing else. */
  function Boxed(id: string, left: real, top: real, right: real, bottom: real): (f: FieldEntry)
    ensures f.id == id && Get(f.props, "left") == Num(left) && Get(f.props, "top") == Num(top)
    ensures Get(f.props, "right") == Num(right) && Get(f.props, "bottom") == Num(bottom)
  {
    FieldEntry(id, map["left" := Num(left), "top" := Num(top), "right" := Num(right), "bottom" := Num(bottom)])
  }

  /** A field with the given edges and other properties. */
  function Placed(id: string, left: Val, top: Val, right: Val, bottom: Val, more: Props): (f: FieldEntry)
    ensures f.id == id && Get(f.props, "left") == left && Get(f.props, "top") == top
    ensures Get(f.props, "right") == right && Get(f.props, "bottom") == bottom
    ensures forall key :: key != "left" && key != "top" && key != "right" && key != "bottom" ==>
      Get(f.props, key) == Get(more, key)
  {
    FieldEntry(id, more["left" := left]["top" := top]["right" := right]["bottom" := bottom])
  }

  /** The template properties every shipped template shares: Letter size, `FontSet1`, a y/x ratio of 2. */
  function Page(fontSet: seq<FontFile>, padX: real): Props
  {
    map["width" := Num(612.0), "height" := Num(792.0), "font" := FontList(fontSet),
        "maxRatio" := Num(2.0), "padX" := Num(padX), "padY" := Num(0.0)]
  }

  /** The price box: `maxLength: 10, type: 'price', currency: "$", separator: /[.,]/`. */
  function PriceProps(mainHeight: real): Props
  {
    map["maxLength" := Num(10.0), "type" := Str("price"), "currency" := Str("$"),
        "separator" := Regex({'.', ','}), "mainHeight" := Num(mainHeight)]
  }

  const Inverted: Props := map["inverted" := Bool(true)]

  function RubikBlack(fontSet: seq<FontFile>): (t: Template)
    ensures |t.fields| == 6
    ensures forall k :: 0 <= k < 6 ==> t.fields[k] == RubikBlackField(k)
  {
    Template("Rubik Black", Page(fontSet, 10.0),
      seq(6, k requires 0 <= k < 6 => RubikBlackField(k)))
  }

  /** The fields of "Rubik Black", in declaration order. */
  function RubikBlackField(k: nat): FieldEntry
    requires k < 6
  {
    match k
    case 0 => Boxed("FIELD01", 0.0, 77.0, 612.0, 307.0)
    case 1 => Placed("FIELD02", Num(0.0), Num(0.0), Num(612.0), Num(77.0), Inverted)
    case 2 => Placed("FIELD03", Num(0.0), Num(384.0), Num(612.0), Num(538.0), PriceProps(408.0))
    case 3 => Placed("FIELD04", Num(0.0), Num(307.0), Num(612.0), Num(384.0), map["maxLength" := Num(20.0)])
    case 4 => Placed("FIELD05", Str("FIELD03.separator"), Num(538.0), Num(612.0), Num(634.0), map["maxLength" := Interval(5.0, 30.0)])
    case 5 => Placed("FIELD06", Str("FIELD03.separator"), Num(634.0), Num(612.0), Num(730.0), map[])
  }

  function Template1(fontSet: seq<FontFile>): (t: Template)
    ensures |t.fields| == 8
    ensures forall k :: 0 <= k < 8 ==> t.fields[k] == Template1Field(k)
  {
    Template("Template 1", Page(fontSet, 10.0)["maxHRatio" := Num(2.0)],
      seq(8, k requires 0 <= k < 8 => Template1Field(k)))
  }

  /** The fields of "Template 1", in declaration order. */
  function Template1Field(k: nat): FieldEntry
    requires k < 8
  {
    match k
    case 0 => Boxed("FIELD01", 80.0, 120.0, 560.0, 270.0)
    case 1 => Placed("FIELD02", Num(0.0), Num(0.0), Num(612.0), Num(50.0), Inverted)
    case 2 => Placed("FIELD03", Num(0.0), Num(420.0), Num(612.0), Num(590.0), PriceProps(372.0))
    case 3 => Boxed("FIELD04", 10.0, 280.0, 450.0, 410.0)
    case 4 => Placed("FIELD05", Str("FIELD03.left"), Str("FIELD03.bottom"), Str("FIELD03.currency"), Num(730.0), map[])
    case 5 => Placed("FIELD06", Str("FIELD03.separator"), Str("FIELD03.bottom"), Str("FIELD03.right"), Num(730.0), map[])
    case 6 => Boxed("FIELD07", 30.0, 50.0, 582.0, 110.0)
    case 7 => Boxed("FIELD08", 470.0, 300.0, 600.0, 410.0)
  }

  function Template2(fontSet: seq<FontFile>): (t: Template)
    ensures |t.fields| == 9
    ensures forall k :: 0 <= k < 9 ==> t.fields[k] == Template2Field(k)
  {
    Template("Template 2", Page(fontSet, 10.0)["maxHRatio" := Num(2.0)],
      seq(9, k requires 0 <= k < 9 => Template2Field(k)))
  }

  /** The fields of "Template 2", in declaration order. */
  function Template2Field(k: nat): FieldEntry
    requires k < 9
  {
    match k
    case 0 => Boxed("FIELD01", 140.0, 130.0, 580.0, 260.0)
    case 1 => Placed("FIELD02", Num(0.0), Num(0.0), Num(612.0), Num(50.0), Inverted)
    case 2 => Placed("FIELD03", Num(0.0), Num(390.0), Num(612.0), Num(590.0), PriceProps(380.0)["mainWidth" := Num(400.0)])
    case 3 => Boxed("FIELD04", 140.0, 280.0, 560.0, 390.0)
    case 4 => Placed("FIELD05", Num(470.0), Num(620.0), Num(600.0), Num(710.0), map["type" := Str("image")])
    case 5 => Placed("FIELD06", Str("FIELD03.left"), Str("FIELD03.bottom"), Str("FIELD03.currency"), Num(700.0), map[])
    case 6 => Boxed("FIELD07", 30.0, 50.0, 582.0, 110.0)
    case 7 => Placed("FIELD08", Str("FIELD03.left"), Num(740.0), Str("FIELD03.right"), Num(792.0), map[])
    case 8 => Placed("FIELD09", Num(20.0), Num(220.0), Num(110.0), Num(310.0), map["type" := Str("image")])
  }

  /** A left-aligned box showing part of the input `inputId`. */
  function Part(inputId: string, filter: string -> string): (p: Props)
    ensures Get(p, "inputId") == Str(inputId) && Get(p, "filter") == Filter(filter) && "type" !in p
  {
    map["inputId" := Str(inputId), "align" := Str("left"), "filter" := Filter(filter)]
  }

  /** A static box printing `text`. */
  function StaticText(text: string): Props
  {
    map["type" := Str("static"), "text" := Str(text)]
  }

  /** A bullet in the standard Helvetica font. */
  const Bullet: Props := StaticText("\U{2022}")["font" := Str("Helvetica")]

  /** `bang` is the `images/bang.png` background of the starburst box. */
  function Template3(fontSet: seq<FontFile>, bang: ImageFile): (t: Template)
    ensures |t.fields| == 13
    ensures forall k :: 0 <= k < 13 ==> t.fields[k] == Template3Field(bang, k)
  {
    Template("Template 3", Page(fontSet, 5.0)["maxHRatio" := Num(2.0)],
      seq(13, k requires 0 <= k < 13 => Template3Field(bang, k)))
  }

  /** The fields of "Template 3", in declaration order. */
  function Template3Field(bang: ImageFile, k: nat): FieldEntry
    requires k < 13
  {
    match k
    case 0 => Placed("FIELD01.1", Num(40.0), Num(100.0), Num(600.0), Num(145.0), Part("FIELD01", AllButLast))
    case 1 => Placed("STATIC01", Num(10.0), Num(180.0), Num(40.0), Num(240.0), Bullet)
    case 2 => Placed("FIELD01.2", Num(40.0), Num(145.0), Num(600.0), Num(240.0), Part("FIELD01", LastWord))
    case 3 => Placed("FIELD02", Num(0.0), Num(0.0), Num(612.0), Num(50.0), Inverted)
    case 4 => Boxed("FIELD03", 0.0, 420.0, 210.0, 792.0)
    case 5 => Placed("FIELD04.1", Num(40.0), Num(250.0), Num(520.0), Num(295.0), Part("FIELD04", AllButLast))
    case 6 => Placed("STATIC02", Num(10.0), Num(330.0), Num(40.0), Num(390.0), Bullet)
    case 7 => Placed("FIELD04.2", Num(40.0), Num(295.0), Num(490.0), Num(390.0), Part("FIELD04", LastWord))
    case 8 => Boxed("FIELD05", 400.0, 420.0, 612.0, 792.0)
    case 9 => Placed("FIELD06", Num(505.0), Num(330.0), Num(605.0), Num(415.0), map["angle" := Num(15.0), "padX" := Num(22.0), "padY" := Num(18.0), "background" := Image(bang)])
    case 10 => Boxed("FIELD07", 0.0, 55.0, 612.0, 95.0)
    case 11 => Placed("STATIC03", Num(220.0), Num(420.0), Num(390.0), Num(670.0), StaticText("$"))
    case 12 => Placed("STATIC04", Num(220.0), Num(670.0), Num(390.0), Num(792.0), StaticText("FOR"))
  }

  /** The `templates` map, in declaration order. */
  function Shipped(fontSet: seq<FontFile>, bang: ImageFile): (ts: seq<Template>)
    ensures |ts| == 4
  {
    [RubikBlack(fontSet), Template1(fontSet), Template2(fontSet), Template3(fontSet, bang)]
  }

  // -----------------------------------------------------------------------
  // References between fields
  // -----------------------------------------------------------------------

  /** An edge given as a number, or as a name the price field FIELD03 publishes. */
  predicate OnPrice(v: Val)
  {
    v.Num? || (v.Str? && v.s in Published("FIELD03"))
  }

  predicate Literal(f: FieldEntry)
  {
    Get(f.props, "left").Num? && Get(f.props, "top").Num? && Get(f.props, "right").Num? && Get(f.props, "bottom").Num?
  }

  /** The field's edges are numbers or FIELD03's names, and numbers if it is FIELD03 itself. */
  predicate FieldAnchored(f: FieldEntry)
  {
    OnPrice(Get(f.props, "left")) && OnPrice(Get(f.props, "top"))
    && OnPrice(Get(f.props, "right")) && OnPrice(Get(f.props, "bottom"))
    && (f.id == "FIELD03" ==> Literal(f))
  }

  /**
   * Every relative edge of the template names a coordinate of FIELD03,
   * whose own edges are numbers, so the edges never wait on one another
   * in a cycle.
   */
  predicate Anchored(t: Template)
  {
    forall i :: 0 <= i < |t.fields| ==> FieldAnchored(t.fields[i])
  }

  lemma PriceNames()
    ensures "FIELD03.left" in Published("FIELD03") && "FIELD03.right" in Published("FIELD03")
    ensures "FIELD03.bottom" in Published("FIELD03")
    ensures "FIELD03.currency" in Published("FIELD03") && "FIELD03.separator" in Published("FIELD03")
  {
    assert "FIELD03" + ".left" == "FIELD03.left";
    assert "FIELD03" + ".right" == "FIELD03.right";
    assert "FIELD03" + ".bottom" == "FIELD03.bottom";
    assert "FIELD03" + ".currency" == "FIELD03.currency";
    assert "FIELD03" + ".separator" == "FIELD03.separator";
  }

  lemma RubikBlackAnchored(fontSet: seq<FontFile>)
    ensures Anchored(RubikBlack(fontSet))
  {
    PriceNames();
  }

  lemma Template1Anchored(fontSet: seq<FontFile>)
    ensures Anchored(Template1(fontSet))
  {
    PriceNames();
  }

  lemma Template2Anchored(fontSet: seq<FontFile>)
    ensures Anchored(Template2(fontSet))
  {
    PriceNames();
  }

  lemma Template3Anchored(fontSet: seq<FontFile>, bang: ImageFile)
    ensures Anchored(Template3(fontSet, bang))
  {
    PriceNames();
  }

  /** Every shipped template refers to FIELD03 only, and FIELD03 is placed by numbers. */
  lemma ShippedAnchored(fontSet: seq<FontFile>, bang: ImageFile)
    ensures forall k :: 0 <= k < 4 ==> Anchored(Shipped(fontSet, bang)[k])
  {
    RubikBlackAnchored(fontSet);
    Template1Anchored(fontSet);
    Template2Anchored(fontSet);
    Template3Anchored(fontSet, bang);
  }

  /**
   * In an anchored template FIELD03 resolves against any table, and every
   * field resolves against a table holding FIELD03's published names.
   */
  lemma AnchoredResolves(t: Template, i: nat, c: Coords)
    requires Anchored(t) && i < |t.fields|
    ensures t.fields[i].id == "FIELD03" ==> EdgesOf(t.fields[i], c).Resolved()
    ensures Published("FIELD03") <= c.Keys ==> EdgesOf(t.fields[i], c).Resolved()
  {
  }

  /** An edge given as a number or as one of the four edges of field `id`. */
  predicate OnEdgesOf(v: Val, id: string)
  {
    v.Num? || (v.Str? && v.s in {id + ".left", id + ".right", id + ".top", id + ".bottom"})
  }

  /**
   * Visiting a field placed by numbers records its four edges, so a field
   * whose relative edges name only those resolves from then on, whatever
   * the drawing does.
   */
  lemma EdgeAnchorsResolve(draw: Drawer, st: State, g: FieldEntry, f: FieldEntry)
    requires g.id !in st.done && Literal(g)
    requires OnEdgesOf(Get(f.props, "left"), g.id) && OnEdgesOf(Get(f.props, "top"), g.id)
    requires OnEdgesOf(Get(f.props, "right"), g.id) && OnEdgesOf(Get(f.props, "bottom"), g.id)
    ensures EdgesOf(f, Visit(draw, st, g).coords).Resolved()
  {
    var e := EdgesOf(g, st.coords);
    var c := Record(g.id, e, st.coords);
    assert c.Keys <= Visit(draw, st, g).coords.Keys;
  }

  /**
   * FIELD08 of "Template 2" spans FIELD03's left and right edges, and
   * resolves as soon as FIELD03 has been visited.
   */
  lemma Template2Footer(fontSet: seq<FontFile>, draw: Drawer, st: State)
    requires "FIELD03" !in st.done
    ensures var fs := Template2(fontSet).fields;
      fs[2].id == "FIELD03" && fs[7].id == "FIELD08"
      && EdgesOf(fs[7], Visit(draw, st, fs[2]).coords).Resolved()
  {
    var fs := Template2(fontSet).fields;
    assert "FIELD03" + ".left" == "FIELD03.left" && "FIELD03" + ".right" == "FIELD03.right";
    EdgeAnchorsResolve(draw, st, fs[2], fs[7]);
  }

  // -----------------------------------------------------------------------
  // Image slots
  // -----------------------------------------------------------------------

  lemma Template2FieldType(k: nat)
    requires k < 9
    ensures Get(Template2Field(k).props, "type") ==
      if k == 4 || k == 8 then Str("image") else if k == 2 then Str("price") else Undefined
  {
    assert "type" != "left" && "type" != "top" && "type" != "right" && "type" != "bottom";
    var more: Props :=
      if k == 1 then Inverted
      else if k == 2 then PriceProps(380.0)["mainWidth" := Num(400.0)]
      else if k == 4 || k == 8 then map["type" := Str("image")]
      else map[];
    if k == 0 || k == 3 || k == 6 {
      assert "type" !in Template2Field(k).props;
    } else {
      assert Get(Template2Field(k).props, "type") == Get(more, "type");
    }
  }

  lemma DefaultType(id: string)
    ensures Get(Defaults(Current, id), "type") == Str("text")
  {
  }

  /** The `type` a field of "Template 2" is drawn with. */
  lemma Template2Type(fontSet: seq<FontFile>, job: Job, k: nat)
    requires job.template == Template2(fontSet) && k < 9
    ensures var t := Get(FieldOptions(Current, job, Template2Field(k)), "type");
      if k == 4 || k == 8 then t == Str("image")
      else if k == 2 then t == Str("price")
      else t == (if Get(job.global, "type").Undefined? then Str("text") else Get(job.global, "type"))
  {
    var f := Template2Field(k);
    Template2FieldType(k);
    DefaultType(f.id);
    assert Get(job.template.props, "type") == Undefined;
    Options.FieldOverTemplate(Defaults(Current, f.id), job.global, job.template.props, f.props, "type");
  }

  /**
   * FIELD05 and FIELD09 are the image fields of "Template 2", unless the
   * global options turn every field without a type into an image.
   */
  lemma Template2Images(fontSet: seq<FontFile>, job: Job, k: nat)
    requires job.template == Template2(fontSet) && k < 9
    requires !IsStr(Get(job.global, "type"), "image")
    ensures SettingsOf(Current, job, Template2Field(k)).kind == ImageKind <==> k == 4 || k == 8
  {
    Template2Type(fontSet, job, k);
    var o := FieldOptions(Current, job, Template2Field(k));
    assert SettingsOf(Current, job, Template2Field(k)).kind == KindOf(Current, Get(o, "type"));
  }

  /** A field of "Template 2" other than FIELD05 and FIELD09 never moves the image cursor. */
  lemma Template2Quiet(fontSet: seq<FontFile>, metrics: (FontRef, string) -> real,
                       lineHeights: FontRef -> real, job: Job, i: nat)
    requires Metrics(metrics, lineHeights) && job.template == Template2(fontSet)
    requires !IsStr(Get(job.global, "type"), "image")
    requires i < 9 && i != 4 && i != 8
    ensures forall b, idx :: !Drawing(Current, metrics, lineHeights, job)(job.template.fields[i], b, idx).advance
  {
    Template2Images(fontSet, job, i);
    forall b, idx {
      DrawingAdvance(Current, metrics, lineHeights, job, job.template.fields[i], b, idx);
    }
  }

  /**
   * The first pass over "Template 2" reaches FIELD05 with the image cursor
   * at 0, and reaches FIELD09 with the cursor at 0 or 1, having moved only
   * at FIELD05: the two slots take images 0 and 1 in field order.
   */
  lemma Template2Slots(fontSet: seq<FontFile>, metrics: (FontRef, string) -> real,
                       lineHeights: FontRef -> real, job: Job)
    requires Metrics(metrics, lineHeights) && job.template == Template2(fontSet)
    requires !IsStr(Get(job.global, "type"), "image")
    ensures var draw := Drawing(Current, metrics, lineHeights, job);
      var fs := job.template.fields;
      var st := Start(job.template);
      Pass(draw, st, fs[..4]).imageIndex == 0
      && Pass(draw, st, fs[..8]).imageIndex == Pass(draw, st, fs[..5]).imageIndex <= 1
  {
    var draw := Drawing(Current, metrics, lineHeights, job);
    var fs := job.template.fields;
    var st := Start(job.template);
    forall i | 0 <= i < 4 || 5 <= i < 8 ensures forall b, idx :: !draw(fs[i], b, idx).advance {
      Template2Quiet(fontSet, metrics, lineHeights, job, i);
    }
    OneSlotAt(draw, st, fs);
  }

  /** Fields 0-3 and 5-7 never move the cursor, so only field 4 can, by one. */
  lemma OneSlotAt(draw: Drawer, st: State, fs: seq<FieldEntry>)
    requires |fs| >= 8 && st.imageIndex == 0
    requires forall i :: 0 <= i < 4 || 5 <= i < 8 ==> forall b, idx :: !draw(fs[i], b, idx).advance
    ensures Pass(draw, st, fs[..4]).imageIndex == 0
    ensures Pass(draw, st, fs[..8]).imageIndex == Pass(draw, st, fs[..5]).imageIndex <= 1
  {
    CursorBetween(draw, st, fs, 0, 4);
    assert fs[..0] == [];
    CursorStep(draw, st, fs, 4);
    CursorBetween(draw, st, fs, 5, 8);
  }

  // -----------------------------------------------------------------------
  // Length limits
  // -----------------------------------------------------------------------

  /**
   * A field whose `actualMaxLength` was computed from the spec `m` at
   * generator state `state` shows at most `m` characters for a number,
   * fewer than the upper end for a positive `[min, max]` spec, and at most
   * `globalMaxLength` when no spec and no template or global limit is set
   * (current and browser generations).
   */
  lemma LimitedShown(gen: Generation, job: Job, f: FieldEntry, m: Val, state: int)
    requires gen != Original && Get(f.props, "actualMaxLength") == Options.ActualValue(m, state).0
    ensures var r := FieldText(SettingsOf(gen, job, f), job);
      (m.Num? && m.n > 0.0 && r.Some? ==> |r.value| as real <= m.n)
      && (m.Interval? && state >= 0 && 0.0 < m.lo < m.hi && r.Some? ==> |r.value| as real < m.hi)
      && (m.Undefined? && Get(job.template.props, "actualMaxLength").Undefined?
            && Get(job.global, "actualMaxLength").Undefined? && r.Some?
          ==> |r.value| <= 100)
  {
    if m.Interval? && state >= 0 && m.lo < m.hi {
      Options.DrawInInterval(m.lo, m.hi, state);
    }
    ShownWithin(gen, job, f);
  }

  lemma PageUnlimited(fontSet: seq<FontFile>, padX: real)
    ensures Get(Page(fontSet, padX), "maxLength").Undefined?
    ensures Get(Page(fontSet, padX)["maxHRatio" := Num(2.0)], "maxLength").Undefined?
    ensures Get(Page(fontSet, padX)["maxHRatio" := Num(2.0)], "type").Undefined?
  {
  }

  lemma PriceLimit(mainHeight: real)
    ensures Get(PriceProps(mainHeight), "maxLength") == Num(10.0)
    ensures Get(PriceProps(mainHeight)["mainWidth" := Num(400.0)], "maxLength") == Num(10.0)
  {
  }

  /** No shipped template sets a limit of its own. */
  lemma ShippedUnlimited(fontSet: seq<FontFile>, bang: ImageFile)
    ensures forall k :: 0 <= k < 4 ==> Get(Shipped(fontSet, bang)[k].props, "maxLength").Undefined?
  {
    PageUnlimited(fontSet, 10.0);
    PageUnlimited(fontSet, 5.0);
  }

  /** The price field of "Rubik Black" has `maxLength` 10, and FIELD05 the spec [5, 30]. */
  lemma RubikBlackLimits(fontSet: seq<FontFile>)
    ensures RubikBlack(fontSet).fields[2].id == "FIELD03"
      && Get(RubikBlack(fontSet).fields[2].props, "maxLength") == Num(10.0)
    ensures RubikBlack(fontSet).fields[4].id == "FIELD05"
      && Get(RubikBlack(fontSet).fields[4].props, "maxLength") == Interval(5.0, 30.0)
  {
    var t := RubikBlack(fontSet);
    assert t.fields[2] == RubikBlackField(2) && t.fields[4] == RubikBlackField(4);
    PriceLimit(408.0);
    assert "maxLength" != "left" && "maxLength" != "top" && "maxLength" != "right" && "maxLength" != "bottom";
    assert Get(RubikBlackField(2).props, "maxLength") == Num(10.0);
    assert Get(RubikBlackField(4).props, "maxLength") == Interval(5.0, 30.0);
  }

  /** The price fields of "Template 1" and "Template 2" have `maxLength` 10. */
  lemma PriceFieldLimits(fontSet: seq<FontFile>)
    ensures Template1(fontSet).fields[2].id == "FIELD03"
      && Get(Template1(fontSet).fields[2].props, "maxLength") == Num(10.0)
    ensures Template2(fontSet).fields[2].id == "FIELD03"
      && Get(Template2(fontSet).fields[2].props, "maxLength") == Num(10.0)
  {
    PriceLimit(372.0);
    PriceLimit(380.0);
    assert "maxLength" != "left" && "maxLength" != "top" && "maxLength" != "right" && "maxLength" != "bottom";
  }
}
