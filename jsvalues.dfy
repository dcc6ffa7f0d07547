/**
 * The JavaScript values the engine reads from templates, fields and
 * options: numbers, strings, `[min, max]` intervals, regular expressions
 * used as separators, font and image files, and filter functions. An
 * object is a map from property names to values; a missing property reads
 * as `undefined`.
 */
module JsValues {
  import opened Wrappers

  /** The glyph coverage of a parsed OpenType font: the characters with a non-zero glyph index. */
  datatype OpenType = OpenType(glyphs: set<char>)

  /**
   * A `FontFile`: `data` is present once the file is loaded, `opentype`
   * once OpenType.js accepted it.
   */
  datatype FontFile = FontFile(url: string, loaded: bool, opentype: Option<OpenType>)

  /**
   * An `ImageFile`: `data` is present once the file is loaded; `decodable`
   * says whether PDFKit accepts that data (it throws otherwise).
   */
  datatype ImageFile = ImageFile(url: string, loaded: bool, decodable: bool)

  datatype Val =
    | Undefined
    | Num(n: real)
    | Str(s: string)
    | Bool(b: bool)
    /** A two-element array `[min, max]`. */
    | Interval(lo: real, hi: real)
    /** A regular expression made of one character class, such as `/[.,]/`. */
    | Regex(cls: set<char>)
    | Font(file: FontFile)
    /** An array of font files. */
    | FontList(files: seq<FontFile>)
    | Image(image: ImageFile)
    /** A text filter function. */
    | Filter(f: string -> string)

  /** JavaScript truthiness (NaN is not represented). */
  predicate Truthy(v: Val)
  {
    match v
    case Undefined => false
    case Num(n) => n != 0.0
    case Str(s) => s != ""
    case Bool(b) => b
    case _ => true
  }

  type Props = map<string, Val>

  /** `obj[key]`. */
  function Get(p: Props, key: string): (v: Val)
    ensures key !in p ==> v.Undefined?
  {
    if key in p then p[key] else Undefined
  }

  /** A field of a template, under its key in `template.fields`. */
  datatype FieldEntry = FieldEntry(id: string, props: Props)

  /** A template: its key in `templates`, its own properties, and its fields in declaration order. */
  datatype Template = Template(name: string, props: Props, fields: seq<FieldEntry>)
}
