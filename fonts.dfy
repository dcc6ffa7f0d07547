/**
 * Font selection: `bestMatchingFont`, which picks from a list of fonts the
 * one covering most characters of a text, and the way each generation turns
 * a field's `font` option into the argument of `doc.font(...)`.
 */
module Fonts {
  import opened Wrappers
  import opened JsValues
  import opened Surface

  /** The number of characters of `text` that have a glyph. */
  function Covered(glyphs: set<char>, text: string): (n: nat)
    ensures n <= |text|
  {
    if text == [] then 0
    else Covered(glyphs, text[..|text| - 1]) + (if text[|text| - 1] in glyphs then 1 else 0)
  }

  /** Every character has a glyph exactly when the count is the text's length. */
  lemma {:induction false} CoveredAll(glyphs: set<char>, text: string)
    ensures Covered(glyphs, text) == |text| <==> forall j :: 0 <= j < |text| ==> text[j] in glyphs
    decreases |text|
  {
    if text != [] {
      var init := text[..|text| - 1];
      CoveredAll(glyphs, init);
      assert forall j :: 0 <= j < |init| ==> init[j] == text[j];
    }
  }

  /** A font without OpenType information is unusable. */
  predicate Usable(f: FontFile)
  {
    f.opentype.Some?
  }

  function Coverage(f: FontFile, text: string): nat
    requires Usable(f)
  {
    Covered(f.opentype.value.glyphs, text)
  }

  /**
   * Font `i` is the pick: usable, covering at least as many characters as
   * every usable font, and strictly more than every usable font before it.
   */
  predicate Picked(fs: seq<FontFile>, text: string, i: int)
  {
    0 <= i < |fs| && Usable(fs[i])
    && (forall j :: 0 <= j < |fs| && Usable(fs[j]) ==> Coverage(fs[j], text) <= Coverage(fs[i], text))
    && (forall j :: 0 <= j < i && Usable(fs[j]) ==> Coverage(fs[j], text) < Coverage(fs[i], text))
  }

  /**
   * `bestMatchingFont(fonts, text)`: a value without a truthy `length` (a
   * single font, an empty list) is returned as it is; otherwise the first
   * usable font with the highest coverage, or `undefined` when no font of
   * the list is usable.
   */
  method BestMatchingFont(fonts: Val, text: string) returns (r: Val)
    requires !fonts.Undefined? && !fonts.Str?
    ensures !fonts.FontList? || fonts.files == [] ==> r == fonts
    ensures fonts.FontList? && fonts.files != [] ==> r.Undefined? || r.Font?
    ensures fonts.FontList? && fonts.files != [] ==>
      (r.Undefined? <==> forall j :: 0 <= j < |fonts.files| ==> !Usable(fonts.files[j]))
    ensures fonts.FontList? && r.Font? ==> exists i :: Picked(fonts.files, text, i) && r.file == fonts.files[i]
  {
    if !fonts.FontList? || fonts.files == [] {
      return fonts;
    }
    var fs := fonts.files;
    var max: int := -1;
    ghost var best := -1;
    r := Undefined;
    var i := 0;
    while i < |fs|
      invariant 0 <= i <= |fs|
      invariant -1 <= best < i
      invariant best == -1 <==> max == -1
      invariant best == -1 <==> r.Undefined?
      invariant best == -1 ==> forall j :: 0 <= j < i ==> !Usable(fs[j])
      invariant best >= 0 ==> r.Font? && r.file == fs[best] && Usable(fs[best]) && max == Coverage(fs[best], text)
      invariant best >= 0 ==> forall j :: 0 <= j < i && Usable(fs[j]) ==> Coverage(fs[j], text) <= max
      invariant best >= 0 ==> forall j :: 0 <= j < best && Usable(fs[j]) ==> Coverage(fs[j], text) < max
    {
      var font := fs[i];
      if font.opentype.None? {
        i := i + 1;
        continue;
      }
      var nb := CountGlyphs(font.opentype.value, text);
      if nb > max {
        max := nb;
        r := Font(font);
        best := i;
      }
      i := i + 1;
    }
    if best >= 0 {
      assert Picked(fs, text, best);
    }
  }

  /** The inner loop of `bestMatchingFont`: characters with a non-zero glyph index. */
  method CountGlyphs(ot: OpenType, text: string) returns (nb: nat)
    ensures nb == Covered(ot.glyphs, text)
  {
    nb := 0;
    var j := 0;
    while j < |text|
      invariant 0 <= j <= |text|
      invariant nb == Covered(ot.glyphs, text[..j])
    {
      assert text[..j + 1][..j] == text[..j];
      if text[j] in ot.glyphs {
        nb := nb + 1;
      }
      j := j + 1;
    }
    assert text[..j] == text;
  }

  /** The font a field is drawn with, or an exception. */
  datatype FontChoice = Use(font: FontRef) | Throws

  /**
   * `doc.font(typeof(v) === 'string' ? v : v.data)`, as the browser
   * generation writes it: a name or a loaded font file; PDFKit throws
   * otherwise.
   */
  function LoadFont(v: Val): (c: FontChoice)
    ensures v.Str? ==> c == Use(Standard(v.s))
    ensures c.Use? ==> v.Str? || (v.Font? && v.file.loaded)
  {
    match v
    case Str(name) => Use(Standard(name))
    case Font(f) => if f.loaded then Use(Embedded(f.url)) else Throws
    case _ => Throws
  }

  /** The font `bestMatchingFont` picks from a non-empty list, if any. */
  ghost function PickedFont(fs: seq<FontFile>, text: string): (r: Option<FontFile>)
    ensures r.Some? <==> exists i :: Picked(fs, text, i)
    ensures r.Some? ==> exists i :: Picked(fs, text, i) && r.value == fs[i]
  {
    if exists i :: Picked(fs, text, i) then
      var i :| Picked(fs, text, i);
      Some(fs[i])
    else None
  }

  /**
   * The current generation: a name is used as it is; otherwise the data
   * of `bestMatchingFont(font, text)`, which throws when that is not a
   * loaded font file (`undefined`, an empty list and non-font values have
   * no `data`).
   */
  ghost function CurrentFontSpec(font: Val, text: string): FontChoice
  {
    match font
    case Str(name) => Use(Standard(name))
    case Font(f) => LoadFont(font)
    case FontList(fs) =>
      if fs == [] then Throws
      else
        (match PickedFont(fs, text)
         case None => Throws
         case Some(f) => if f.loaded then Use(Embedded(f.url)) else Throws)
    case _ => Throws
  }

  /**
   * `doc.font(typeof(font) === 'string' ? font : bestMatchingFont(font,
   * text).data)`: a font is used only when some font of the list covers the
   * text best and is loaded.
   */
  method CurrentFont(font: Val, text: string) returns (c: FontChoice)
    ensures c == CurrentFontSpec(font, text)
    ensures font.Str? ==> c == Use(Standard(font.s))
    ensures font.FontList? && font.files != [] ==>
      (c == Throws <==> (forall j :: 0 <= j < |font.files| ==> !Usable(font.files[j])) || !CurrentPickLoaded(font.files, text))
  {
    if font.Str? {
      return Use(Standard(font.s));
    } else if font.Undefined? {
      return Throws;
    }
    var best := BestMatchingFont(font, text);
    if best.Font? && best.file.loaded {
      c := Use(Embedded(best.file.url));
    } else {
      c := Throws;
    }
    if font.FontList? && font.files != [] {
      if best.Font? {
        var i :| Picked(font.files, text, i) && best.file == font.files[i];
        PickedUnique(font.files, text, i);
        assert PickedFont(font.files, text) == Some(font.files[i]);
      } else {
        forall i | 0 <= i < |font.files|
          ensures !Picked(font.files, text, i)
        {
        }
      }
    }
  }

  /** The font `bestMatchingFont` picks is loaded. */
  ghost predicate CurrentPickLoaded(fs: seq<FontFile>, text: string)
  {
    exists i :: Picked(fs, text, i) && fs[i].loaded
  }

  /** At most one font is the pick. */
  lemma PickedUnique(fs: seq<FontFile>, text: string, i: int)
    requires Picked(fs, text, i)
    ensures forall k :: Picked(fs, text, k) ==> k == i
  {
    forall k | Picked(fs, text, k)
      ensures k == i
    {
      assert Coverage(fs[k], text) == Coverage(fs[i], text);
    }
  }

  /**
   * The original generation: `field.font || template.font`, where a font
   * variable holds the font data itself.
   */
  function OriginalFont(fieldFont: Val, templateFont: Val): (c: FontChoice)
    ensures Truthy(fieldFont) && fieldFont.Str? ==> c == Use(Standard(fieldFont.s))
    ensures !Truthy(fieldFont) && templateFont.Str? && templateFont.s != "" ==> c == Use(Standard(templateFont.s))
  {
    var v := if Truthy(fieldFont) then fieldFont else templateFont;
    match v
    case Str(name) => if name == "" then Throws else Use(Standard(name))
    case Font(f) => Use(Embedded(f.url))
    case _ => Throws
  }
}
