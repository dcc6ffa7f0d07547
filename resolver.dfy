/**
 * The coordinate resolver of `generatePDF`: repeated passes over the
 * template's fields, in declaration order, with a table of named
 * coordinates (`fieldCoords`), the set of fields drawn (`doneFields`) and
 * the cursor into the scraped images (`imageIndex`). A field is drawn once
 * all four of its edges are numbers; the passes stop when every field is
 * drawn or a pass draws nothing.
 *
 * The passes are stated over a `Drawer`, what drawing one field in a box
 * does; `Drawing` is the one the three generations of the engine use.
 */
module Resolver {
  import opened Wrappers
  import opened JsValues
  import opened Surface
  import opened Render

  // -----------------------------------------------------------------------
  // Edges and the coordinate table
  // -----------------------------------------------------------------------

  type Coords = map<string, real>

  /** `typeof(v) === 'number' ? v : fieldCoords[v]`, kept only when it is a number. */
  function EdgeValue(v: Val, coords: Coords): (r: Option<real>)
    ensures v.Num? ==> r == Some(v.n)
    ensures v.Str? ==> (r.Some? <==> v.s in coords) && (r.Some? ==> r.value == coords[v.s])
    ensures !v.Num? && !v.Str? ==> r.None?
  {
    match v
    case Num(n) => Some(n)
    case Str(k) => if k in coords then Some(coords[k]) else None
    case _ => None
  }

  datatype Edges = Edges(left: Option<real>, right: Option<real>, top: Option<real>, bottom: Option<real>)
  {
    predicate Resolved()
    {
      left.Some? && right.Some? && top.Some? && bottom.Some?
    }
  }

  /** The four edges of a field, from the field's own `left`, `right`, `top` and `bottom`. */
  function EdgesOf(f: FieldEntry, coords: Coords): Edges
  {
    Edges(EdgeValue(Get(f.props, "left"), coords), EdgeValue(Get(f.props, "right"), coords),
          EdgeValue(Get(f.props, "top"), coords), EdgeValue(Get(f.props, "bottom"), coords))
  }

  /** Whether the edges resolve depends only on which names the table holds. */
  lemma ResolvedByKeys(f: FieldEntry, c: Coords, d: Coords)
    requires c.Keys == d.Keys
    ensures EdgesOf(f, c).Resolved() <==> EdgesOf(f, d).Resolved()
  {
  }

  /** The box of resolved edges. */
  function BoxOf(e: Edges): (b: Box)
    requires e.Resolved()
    ensures b.Width() == e.right.value - e.left.value && b.Height() == e.bottom.value - e.top.value
  {
    Box(e.left.value, e.top.value, e.right.value, e.bottom.value)
  }

  function Put(c: Coords, k: string, v: Option<real>): Coords
  {
    if v.Some? then c[k := v.value] else c
  }

  /** The names a field's own edges are stored under. */
  function EdgeNames(id: string): set<string>
  {
    {id + ".left", id + ".right", id + ".top", id + ".bottom", id + ".width", id + ".height"}
  }

  /** The names a field may publish: its edges, its dimensions, and a price's anchors. */
  function Published(id: string): set<string>
  {
    EdgeNames(id) + {id + ".currency", id + ".separator"}
  }

  /** Every name a field publishes holds a dot, so none is `width` or `height`. */
  lemma PublishedDotted(id: string)
    ensures forall k :: k in Published(id) ==> '.' in k
  {
    assert (id + ".left")[|id|] == '.';
    assert (id + ".right")[|id|] == '.';
    assert (id + ".top")[|id|] == '.';
    assert (id + ".bottom")[|id|] == '.';
    assert (id + ".width")[|id|] == '.';
    assert (id + ".height")[|id|] == '.';
    assert (id + ".currency")[|id|] == '.';
    assert (id + ".separator")[|id|] == '.';
  }

  /**
   * The known edges, and the width and height once both of their sides are
   * known, stored under `<id>.left` ... `<id>.height`; nothing else changes.
   */
  function Record(id: string, e: Edges, coords: Coords): (r: Coords)
    ensures coords.Keys <= r.Keys <= coords.Keys + EdgeNames(id)
    ensures forall k :: k in coords && k !in Published(id) ==> r[k] == coords[k]
    ensures e.left.Some? ==> id + ".left" in r
    ensures e.right.Some? ==> id + ".right" in r
    ensures e.top.Some? ==> id + ".top" in r
    ensures e.bottom.Some? ==> id + ".bottom" in r
  {
    var c4 := Put(Put(Put(Put(coords, id + ".left", e.left), id + ".right", e.right), id + ".top", e.top), id + ".bottom", e.bottom);
    var c5 := if e.left.Some? && e.right.Some? then c4[id + ".width" := e.right.value - e.left.value] else c4;
    if e.top.Some? && e.bottom.Some? then c5[id + ".height" := e.bottom.value - e.top.value] else c5
  }

  /** Two names of one field with different suffixes differ. */
  lemma SuffixesDiffer(id: string, x: string, y: string)
    requires x != y
    ensures id + x != id + y
  {
    assert (id + x)[|id|..] == x;
    assert (id + y)[|id|..] == y;
  }

  /**
   * A known left or top edge is stored as it is, and a width or height as
   * the difference of its two sides.
   */
  lemma RecordValues(id: string, e: Edges, coords: Coords)
    ensures var r := Record(id, e, coords);
      (e.left.Some? ==> r[id + ".left"] == e.left.value)
      && (e.top.Some? ==> r[id + ".top"] == e.top.value)
      && (e.left.Some? && e.right.Some? ==> r[id + ".width"] == e.right.value - e.left.value)
      && (e.top.Some? && e.bottom.Some? ==> r[id + ".height"] == e.bottom.value - e.top.value)
  {
    SuffixesDiffer(id, ".left", ".right");
    SuffixesDiffer(id, ".left", ".top");
    SuffixesDiffer(id, ".left", ".bottom");
    SuffixesDiffer(id, ".left", ".width");
    SuffixesDiffer(id, ".left", ".height");
    SuffixesDiffer(id, ".top", ".bottom");
    SuffixesDiffer(id, ".top", ".width");
    SuffixesDiffer(id, ".top", ".height");
    SuffixesDiffer(id, ".width", ".height");
  }

  // -----------------------------------------------------------------------
  // The drawing of one field
  // -----------------------------------------------------------------------

  /** What drawing a field in a box does, given the image cursor. */
  type Drawer = (FieldEntry, Box, nat) -> Effect

  /** A drawer publishes at most a field's `.currency` and `.separator`. */
  ghost predicate Lawful(draw: Drawer)
  {
    forall f, b, i :: draw(f, b, i).marks.Keys <= {f.id + ".currency", f.id + ".separator"}
  }

  /** The engine's drawing: the field's settings, then `FieldEffect`. */
  ghost function Drawing(gen: Generation, metrics: (FontRef, string) -> real, lineHeights: FontRef -> real, job: Job): Drawer
  {
    (f: FieldEntry, b: Box, i: nat) =>
      if Metrics(metrics, lineHeights) then FieldEffect(gen, metrics, lineHeights, job, f.id, SettingsOf(gen, job, f), b, i)
      else Effect([], None, map[], false, true)
  }

  lemma DrawingLawful(gen: Generation, metrics: (FontRef, string) -> real, lineHeights: FontRef -> real, job: Job)
    ensures Lawful(Drawing(gen, metrics, lineHeights, job))
  {
    var draw := Drawing(gen, metrics, lineHeights, job);
    forall f, b, i ensures draw(f, b, i).marks.Keys <= {f.id + ".currency", f.id + ".separator"} {
      if Metrics(metrics, lineHeights) {
        MarksOnlyPrices(gen, metrics, lineHeights, job, f.id, SettingsOf(gen, job, f), b, i);
      }
    }
  }

  /**
   * The engine's drawing takes an image exactly for an image field of the
   * current generation whose frame draws and whose image at the cursor
   * exists and is loaded.
   */
  lemma DrawingAdvance(gen: Generation, metrics: (FontRef, string) -> real, lineHeights: FontRef -> real,
                       job: Job, f: FieldEntry, b: Box, i: nat)
    requires Metrics(metrics, lineHeights)
    ensures Drawing(gen, metrics, lineHeights, job)(f, b, i).advance <==>
      (gen == Current && SettingsOf(gen, job, f).kind == ImageKind && FrameOf(gen, SettingsOf(gen, job, f), b).ok
       && i < |job.images| && job.images[i].loaded)
  {
    AdvanceOnlyImages(gen, metrics, lineHeights, job, f.id, SettingsOf(gen, job, f), b, i);
  }

  // -----------------------------------------------------------------------
  // Passes
  // -----------------------------------------------------------------------

  /**
   * The resolver's state: the table, the fields drawn, the image cursor,
   * the commands drawn so far, and whether drawing threw (which ends
   * `generatePDF` without `doc.end()`).
   */
  datatype State = State(coords: Coords, done: set<string>, imageIndex: nat, log: seq<Cmd>, thrown: bool)

  /** `{width: template.width, height: template.height}`, keeping numbers only. */
  function InitialCoords(t: Template): (c: Coords)
    ensures forall k :: k in c ==> '.' !in k
    ensures Get(t.props, "width").Num? ==> "width" in c && c["width"] == Get(t.props, "width").n
    ensures Get(t.props, "height").Num? ==> "height" in c && c["height"] == Get(t.props, "height").n
  {
    var w := Get(t.props, "width");
    var h := Get(t.props, "height");
    var c0: Coords := if w.Num? then map["width" := w.n] else map[];
    if h.Num? then c0["height" := h.n] else c0
  }

  function Start(t: Template): State
  {
    State(InitialCoords(t), {}, 0, [], false)
  }

  /**
   * One field in a pass: skipped when drawn already; otherwise its known
   * edges are recorded and, once all four are known, it is drawn and
   * marked done (unless drawing throws).
   */
  ghost function Visit(draw: Drawer, st: State, f: FieldEntry): State
  {
    if f.id in st.done then st
    else
      var e := EdgesOf(f, st.coords);
      var coords := Record(f.id, e, st.coords);
      if !e.Resolved() then st.(coords := coords)
      else
        var eff := draw(f, BoxOf(e), st.imageIndex);
        State(coords + eff.marks,
              if eff.throws then st.done else st.done + {f.id},
              if eff.advance then st.imageIndex + 1 else st.imageIndex,
              st.log + eff.cmds, eff.throws)
  }

  /** The fields `fs` visited in order, stopping at an exception. */
  ghost function Pass(draw: Drawer, st: State, fs: seq<FieldEntry>): State
    decreases |fs|
  {
    if fs == [] then st
    else
      var p := Pass(draw, st, fs[..|fs| - 1]);
      if p.thrown then p else Visit(draw, p, fs[|fs| - 1])
  }

  function Ids(fs: seq<FieldEntry>): set<string>
  {
    set i | 0 <= i < |fs| :: fs[i].id
  }

  /** The keys of `template.fields` are distinct. */
  predicate DistinctIds(fs: seq<FieldEntry>)
  {
    forall i, j :: 0 <= i < j < |fs| ==> fs[i].id != fs[j].id
  }

  lemma {:induction false} IdsCount(fs: seq<FieldEntry>)
    requires DistinctIds(fs)
    ensures |Ids(fs)| == |fs|
  {
    if fs != [] {
      var n := |fs| - 1;
      assert Ids(fs) == Ids(fs[..n]) + {fs[n].id} by {
        forall id | id in Ids(fs) ensures id in Ids(fs[..n]) + {fs[n].id} {
          var i :| 0 <= i < |fs| && fs[i].id == id;
          if i < n { assert fs[..n][i].id == id; }
        }
        IdsPrefix(fs, n);
      }
      assert fs[n].id !in Ids(fs[..n]) by {
        forall i | 0 <= i < n ensures fs[..n][i].id != fs[n].id { }
      }
      IdsCount(fs[..n]);
    }
  }

  lemma IdsPrefix(fs: seq<FieldEntry>, n: nat)
    requires n <= |fs|
    ensures Ids(fs[..n]) <= Ids(fs)
  {
    forall id | id in Ids(fs[..n]) ensures id in Ids(fs) {
      var j :| 0 <= j < n && fs[..n][j].id == id;
      assert fs[j].id == id;
    }
  }

  /** A strictly larger finite set is strictly larger in size. */
  lemma SubsetSize<T>(a: set<T>, b: set<T>)
    requires a <= b
    ensures |a| <= |b| && (a != b ==> |a| < |b|)
  {
    var d := b - a;
    assert b == a + d;
    assert a * d == {};
    if a != b {
      var x :| x in d;
    }
  }

  /**
   * How a state may change in a pass: the table, the done set, the cursor
   * and the log only grow, and names without a dot keep their values.
   */
  ghost predicate Grows(st: State, r: State)
  {
    st.coords.Keys <= r.coords.Keys && st.done <= r.done && st.imageIndex <= r.imageIndex
    && st.log <= r.log
    && (forall k :: k in st.coords && '.' !in k ==> r.coords[k] == st.coords[k])
    && (forall k :: k in r.coords && k !in st.coords ==> '.' in k)
  }

  lemma GrowsTrans(a: State, b: State, c: State)
    requires Grows(a, b) && Grows(b, c)
    ensures Grows(a, c)
  {
  }

  /**
   * A visit only adds to the table (names of the field itself), the done
   * set, the cursor and the log; it adds the field to the done set only
   * when its four edges resolve and drawing does not throw; a field
   * already drawn is skipped.
   */
  lemma VisitGrows(draw: Drawer, st: State, f: FieldEntry)
    requires Lawful(draw)
    ensures var r := Visit(draw, st, f);
      Grows(st, r) && r.done <= st.done + {f.id} && r.coords.Keys <= st.coords.Keys + Published(f.id)
      && (f.id in st.done ==> r == st)
      && (r.done != st.done ==> f.id !in st.done && EdgesOf(f, st.coords).Resolved() && !r.thrown)
  {
    PublishedDotted(f.id);
    if f.id !in st.done {
      var e := EdgesOf(f, st.coords);
      if e.Resolved() {
        var eff := draw(f, BoxOf(e), st.imageIndex);
        assert eff.marks.Keys <= Published(f.id);
      }
    }
  }

  /**
   * The image cursor moves by at most one, and only when the field is
   * drawn and its drawing takes an image.
   */
  lemma VisitImage(draw: Drawer, st: State, f: FieldEntry)
    ensures var r := Visit(draw, st, f);
      r.imageIndex <= st.imageIndex + 1
      && (r.imageIndex != st.imageIndex ==>
            f.id !in st.done && EdgesOf(f, st.coords).Resolved()
            && draw(f, BoxOf(EdgesOf(f, st.coords)), st.imageIndex).advance)
  {
  }

  /**
   * A field not yet drawn records its known edges at once, where later
   * fields of the same pass see them, and a drawn field logs its commands.
   */
  lemma VisitRecords(draw: Drawer, st: State, f: FieldEntry)
    requires Lawful(draw) && f.id !in st.done
    ensures var r := Visit(draw, st, f);
      var e := EdgesOf(f, st.coords);
      (e.left.Some? ==> r.coords[f.id + ".left"] == e.left.value)
      && (e.top.Some? ==> r.coords[f.id + ".top"] == e.top.value)
      && (e.left.Some? && e.right.Some? ==> r.coords[f.id + ".width"] == e.right.value - e.left.value)
      && (e.top.Some? && e.bottom.Some? ==> r.coords[f.id + ".height"] == e.bottom.value - e.top.value)
      && (e.Resolved() ==> r.log == st.log + draw(f, BoxOf(e), st.imageIndex).cmds)
  {
    var e := EdgesOf(f, st.coords);
    RecordValues(f.id, e, st.coords);
    if e.Resolved() {
      var eff := draw(f, BoxOf(e), st.imageIndex);
      assert eff.marks.Keys <= {f.id + ".currency", f.id + ".separator"};
      SuffixesDiffer(f.id, ".left", ".currency");
      SuffixesDiffer(f.id, ".left", ".separator");
      SuffixesDiffer(f.id, ".top", ".currency");
      SuffixesDiffer(f.id, ".top", ".separator");
      SuffixesDiffer(f.id, ".width", ".currency");
      SuffixesDiffer(f.id, ".width", ".separator");
      SuffixesDiffer(f.id, ".height", ".currency");
      SuffixesDiffer(f.id, ".height", ".separator");
    }
  }

  /**
   * A name that is not one of the visited field's edge names enters the
   * table only through a drawing: the field was not drawn before, its
   * edges resolved, and drawing it marked that name.
   */
  lemma MarkedByDrawing(draw: Drawer, st: State, f: FieldEntry, k: string)
    requires k !in st.coords && k in Visit(draw, st, f).coords && k !in EdgeNames(f.id)
    ensures f.id !in st.done && EdgesOf(f, st.coords).Resolved()
    ensures k in draw(f, BoxOf(EdgesOf(f, st.coords)), st.imageIndex).marks
  {
  }

  /** The two anchors a price field publishes. */
  predicate IsAnchor(k: string, id: string)
  {
    k == id + ".currency" || k == id + ".separator"
  }

  /** An anchor ends in 'y' or 'r', which no edge name does. */
  lemma AnchorNotEdge(k: string, id: string, other: string)
    requires IsAnchor(k, id)
    ensures k !in EdgeNames(other)
  {
    assert k[|k| - 1] == 'y' || k[|k| - 1] == 'r';
    var n := other;
    assert (n + ".left")[|n| + 4] == 't' && (n + ".right")[|n| + 5] == 't';
    assert (n + ".top")[|n| + 3] == 'p' && (n + ".bottom")[|n| + 6] == 'm';
    assert (n + ".width")[|n| + 5] == 'h' && (n + ".height")[|n| + 6] == 't';
  }

  /** An anchor names one field only. */
  lemma AnchorOwner(k: string, id: string, other: string)
    requires IsAnchor(k, id) && IsAnchor(k, other)
    ensures id == other
  {
    assert (id + ".currency")[..|id|] == id && (id + ".separator")[..|id|] == id;
    assert (other + ".currency")[..|other|] == other && (other + ".separator")[..|other|] == other;
    assert (id + ".currency")[|id| + 8] == 'y' && (id + ".separator")[|id| + 9] == 'r';
    assert (other + ".currency")[|other| + 8] == 'y' && (other + ".separator")[|other| + 9] == 'r';
  }

  /**
   * `<id>.currency` and `<id>.separator` enter the table only when the
   * field `id` itself is drawn as a price whose text is not empty, so a
   * field anchored on them cannot resolve before that.
   */
  lemma AnchorsFromPrice(gen: Generation, metrics: (FontRef, string) -> real, lineHeights: FontRef -> real,
                         job: Job, st: State, f: FieldEntry, k: string, id: string)
    requires Metrics(metrics, lineHeights) && IsAnchor(k, id)
    requires k !in st.coords && k in Visit(Drawing(gen, metrics, lineHeights, job), st, f).coords
    ensures f.id == id && f.id !in st.done && EdgesOf(f, st.coords).Resolved()
    ensures var s := SettingsOf(gen, job, f);
      s.kind == PriceKind && FieldText(s, job).Some? && FieldText(s, job).value != ""
  {
    var draw := Drawing(gen, metrics, lineHeights, job);
    AnchorNotEdge(k, id, f.id);
    MarkedByDrawing(draw, st, f, k);
    var e := EdgesOf(f, st.coords);
    var s := SettingsOf(gen, job, f);
    assert draw(f, BoxOf(e), st.imageIndex) == FieldEffect(gen, metrics, lineHeights, job, f.id, s, BoxOf(e), st.imageIndex);
    MarksOnlyPrices(gen, metrics, lineHeights, job, f.id, s, BoxOf(e), st.imageIndex);
    AnchorOwner(k, id, f.id);
  }

  /** A pass grows the state, and only fields of the pass join the done set. */
  lemma {:induction false} PassGrows(draw: Drawer, st: State, fs: seq<FieldEntry>)
    requires Lawful(draw)
    ensures var r := Pass(draw, st, fs);
      Grows(st, r) && r.done <= st.done + Ids(fs)
      && (st.thrown ==> r == st)
    decreases |fs|
  {
    if fs != [] {
      var n := |fs| - 1;
      var p := Pass(draw, st, fs[..n]);
      PassGrows(draw, st, fs[..n]);
      IdsPrefix(fs, n);
      if !p.thrown {
        VisitGrows(draw, p, fs[n]);
        GrowsTrans(st, p, Visit(draw, p, fs[n]));
        assert fs[n].id in Ids(fs);
      }
    }
  }

  /** Once a visit throws, the rest of the pass does nothing. */
  lemma {:induction false} PassStopsAtThrow(draw: Drawer, st: State, fs: seq<FieldEntry>, i: nat)
    requires i <= |fs| && Pass(draw, st, fs[..i]).thrown
    ensures Pass(draw, st, fs) == Pass(draw, st, fs[..i])
    decreases |fs| - i
  {
    if i < |fs| {
      assert fs[..i + 1][..i] == fs[..i];
      PassStopsAtThrow(draw, st, fs, i + 1);
    } else {
      assert fs[..i] == fs;
    }
  }

  /** A pass over `a + b` is a pass over `a` continued over `b`. */
  lemma {:induction false} PassAppend(draw: Drawer, st: State, a: seq<FieldEntry>, b: seq<FieldEntry>)
    ensures Pass(draw, st, a + b) == Pass(draw, Pass(draw, st, a), b)
    decreases |b|
  {
    if b == [] {
      assert a + b == a;
    } else {
      var m := |b| - 1;
      assert (a + b)[..|a + b| - 1] == a + b[..m];
      PassAppend(draw, st, a, b[..m]);
    }
  }

  /** Fields none of which moves the image cursor leave it where it was. */
  lemma {:induction false} PassKeepsCursor(draw: Drawer, st: State, fs: seq<FieldEntry>)
    requires forall i, b, idx :: 0 <= i < |fs| ==> !draw(fs[i], b, idx).advance
    ensures Pass(draw, st, fs).imageIndex == st.imageIndex
    decreases |fs|
  {
    if fs != [] {
      var n := |fs| - 1;
      PassKeepsCursor(draw, st, fs[..n]);
      VisitImage(draw, Pass(draw, st, fs[..n]), fs[n]);
    }
  }

  /** Fields `lo` to `hi` that never move the image cursor leave it where they found it. */
  lemma CursorBetween(draw: Drawer, st: State, fs: seq<FieldEntry>, lo: nat, hi: nat)
    requires lo <= hi <= |fs|
    requires forall i, b, idx :: lo <= i < hi ==> !draw(fs[i], b, idx).advance
    ensures Pass(draw, st, fs[..hi]).imageIndex == Pass(draw, st, fs[..lo]).imageIndex
  {
    assert fs[..hi] == fs[..lo] + fs[lo..hi];
    PassAppend(draw, st, fs[..lo], fs[lo..hi]);
    forall i, b, idx | 0 <= i < hi - lo ensures !draw(fs[lo..hi][i], b, idx).advance {
      assert fs[lo..hi][i] == fs[lo + i];
    }
    PassKeepsCursor(draw, Pass(draw, st, fs[..lo]), fs[lo..hi]);
  }

  /** One more field moves the image cursor by one at most. */
  lemma CursorStep(draw: Drawer, st: State, fs: seq<FieldEntry>, k: nat)
    requires k < |fs|
    ensures Pass(draw, st, fs[..k + 1]).imageIndex <= Pass(draw, st, fs[..k]).imageIndex + 1
  {
    assert fs[..k + 1][..k] == fs[..k];
    VisitImage(draw, Pass(draw, st, fs[..k]), fs[k]);
  }

  // -----------------------------------------------------------------------
  // The whole run
  // -----------------------------------------------------------------------

  /** Passes while some field is not drawn: stop after a pass that throws or draws nothing. */
  ghost function Run(draw: Drawer, fs: seq<FieldEntry>, st: State): State
    requires Lawful(draw) && DistinctIds(fs) && st.done <= Ids(fs)
    decreases |fs| - |st.done|
  {
    if st.thrown || |st.done| >= |fs| then st
    else
      var next := Pass(draw, st, fs);
      PassGrows(draw, st, fs);
      if next.thrown || next.done == st.done then next
      else
        IdsCount(fs);
        SubsetSize(st.done, next.done);
        SubsetSize(next.done, Ids(fs));
        Run(draw, fs, next)
  }

  /**
   * The run ends with every field drawn, after a pass that drew nothing,
   * or after an exception; along the way the table, the done set, the
   * cursor and the log only grow, the page's `width` and `height` keep
   * their values, and only fields of the template are drawn.
   */
  lemma {:induction false} RunEnds(draw: Drawer, fs: seq<FieldEntry>, st: State)
    requires Lawful(draw) && DistinctIds(fs) && st.done <= Ids(fs)
    ensures var r := Run(draw, fs, st);
      Grows(st, r) && r.done <= Ids(fs)
      && (r.thrown || r.done == Ids(fs)
          || exists p: State :: !p.thrown && r == Pass(draw, p, fs) && r.done == p.done)
    decreases |fs| - |st.done|
  {
    IdsCount(fs);
    if st.thrown || |st.done| >= |fs| {
      SubsetSize(st.done, Ids(fs));
    } else {
      var next := Pass(draw, st, fs);
      PassGrows(draw, st, fs);
      if !(next.thrown || next.done == st.done) {
        SubsetSize(st.done, next.done);
        RunEnds(draw, fs, next);
        GrowsTrans(st, next, Run(draw, fs, next));
      }
    }
  }

  // -----------------------------------------------------------------------
  // generatePDF
  // -----------------------------------------------------------------------

  /** A field whose box is known, drawn on `doc` as `Drawing` describes. */
  method DrawVisited(doc: Doc, gen: Generation, job: Job, ghost draw: Drawer, f: FieldEntry, b: Box, imageIndex: nat)
    returns (marks: Coords, advance: bool, throws: bool)
    requires doc.Valid() && doc.cache.None? && draw == Drawing(gen, doc.metrics, doc.lineHeights, job)
    modifies doc`font, doc`cache, doc`log
    ensures doc.cache.None?
    ensures var eff := draw(f, b, imageIndex);
      doc.log == old(doc.log) + eff.cmds && marks == eff.marks && advance == eff.advance && throws == eff.throws
  {
    var s := SettingsOf(gen, job, f);
    marks, advance, throws := DrawField(doc, gen, job, f.id, s, b, imageIndex);
  }

  /** What `generatePDF` leaves: the run of the engine's drawing over the template from the start. */
  ghost function Output(gen: Generation, metrics: (FontRef, string) -> real, lineHeights: FontRef -> real, job: Job): State
    requires DistinctIds(job.template.fields)
  {
    DrawingLawful(gen, metrics, lineHeights, job);
    Run(Drawing(gen, metrics, lineHeights, job), job.template.fields, Start(job.template))
  }

  /** The same with the passes as evidently intended. */
  ghost function StableOutput(gen: Generation, metrics: (FontRef, string) -> real, lineHeights: FontRef -> real, job: Job): State
    requires DistinctIds(job.template.fields)
  {
    DrawingLawful(gen, metrics, lineHeights, job);
    var t := job.template;
    RunStable(Drawing(gen, metrics, lineHeights, job), t.fields, InitialCoords(t).Keys + AllPublished(t.fields), Start(t))
  }

  /**
   * One field of a pass, drawn on `doc`: the state after it is the one
   * `Visit` gives.
   */
  method VisitField(doc: Doc, gen: Generation, job: Job, ghost draw: Drawer, f: FieldEntry,
                    coords: Coords, done: set<string>, imageIndex: nat)
    returns (coords': Coords, done': set<string>, imageIndex': nat, thrown: bool)
    requires doc.Valid() && doc.cache.None? && draw == Drawing(gen, doc.metrics, doc.lineHeights, job)
    modifies doc`font, doc`cache, doc`log
    ensures doc.cache.None?
    ensures State(coords', done', imageIndex', doc.log, thrown) == Visit(draw, State(coords, done, imageIndex, old(doc.log), false), f)
  {
    coords', done', imageIndex', thrown := coords, done, imageIndex, false;
    if f.id in done {
      return;
    }
    var e := EdgesOf(f, coords);
    coords' := Record(f.id, e, coords);
    if !e.Resolved() {
      return;
    }
    ghost var eff := draw(f, BoxOf(e), imageIndex);
    var marks, advance, throws := DrawVisited(doc, gen, job, draw, f, BoxOf(e), imageIndex);
    assert marks == eff.marks && advance == eff.advance && throws == eff.throws;
    coords' := coords' + marks;
    thrown := throws;
    if !throws {
      done' := done + {f.id};
    }
    if advance {
      imageIndex' := imageIndex + 1;
    }
  }

  /**
   * One pass over the fields `fs` on `doc`: the state after it is the one
   * `Pass` gives, and `progress` says whether it drew a field.
   */
  method PassFields(doc: Doc, gen: Generation, job: Job, ghost draw: Drawer, fs: seq<FieldEntry>,
                    coords: Coords, done: set<string>, imageIndex: nat)
    returns (coords': Coords, done': set<string>, imageIndex': nat, thrown: bool, progress: bool)
    requires doc.Valid() && doc.cache.None? && draw == Drawing(gen, doc.metrics, doc.lineHeights, job)
    requires Lawful(draw)
    modifies doc`font, doc`cache, doc`log
    ensures doc.cache.None?
    ensures State(coords', done', imageIndex', doc.log, thrown) == Pass(draw, State(coords, done, imageIndex, old(doc.log), false), fs)
    ensures progress <==> done' != done
  {
    ghost var st0 := State(coords, done, imageIndex, doc.log, false);
    coords', done', imageIndex', thrown, progress := coords, done, imageIndex, false, false;
    var i := 0;
    while i < |fs|
      invariant 0 <= i <= |fs|
      invariant doc.Valid() && doc.cache.None? && draw == Drawing(gen, doc.metrics, doc.lineHeights, job)
      invariant State(coords', done', imageIndex', doc.log, false) == Pass(draw, st0, fs[..i])
      invariant done <= done'
      invariant progress <==> done' != done
    {
      assert fs[..i + 1][..i] == fs[..i];
      ghost var before := State(coords', done', imageIndex', doc.log, false);
      var done0 := done';
      coords', done', imageIndex', thrown := VisitField(doc, gen, job, draw, fs[i], coords', done', imageIndex');
      VisitGrows(draw, before, fs[i]);
      if thrown {
        PassStopsAtThrow(draw, st0, fs, i + 1);
        return;
      }
      if done' != done0 {
        progress := true;
      }
      i := i + 1;
    }
    assert fs[..|fs|] == fs;
  }

  /**
   * `generatePDF`: a new document, the passes over the fields, then
   * `doc.end()` unless drawing threw. The commands logged, the table, the
   * done set and the image cursor are those of `Run`.
   */
  method GeneratePdf(gen: Generation, metrics: (FontRef, string) -> real, lineHeights: FontRef -> real, job: Job)
    returns (doc: Doc, coords: Coords, done: set<string>, imageIndex: nat)
    requires Metrics(metrics, lineHeights) && DistinctIds(job.template.fields)
    ensures var r := Output(gen, metrics, lineHeights, job);
      doc.log == r.log + (if r.thrown then [] else [End])
      && coords == r.coords && done == r.done && imageIndex == r.imageIndex
  {
    doc := new Doc(metrics, lineHeights);
    var fs := job.template.fields;
    ghost var draw := Drawing(gen, metrics, lineHeights, job);
    DrawingLawful(gen, metrics, lineHeights, job);
    coords, done, imageIndex := InitialCoords(job.template), {}, 0;
    ghost var goal := Output(gen, metrics, lineHeights, job);
    while |done| < |fs|
      invariant doc.Valid() && doc.cache.None? && doc.metrics == metrics && doc.lineHeights == lineHeights
      invariant done <= Ids(fs)
      invariant Run(draw, fs, State(coords, done, imageIndex, doc.log, false)) == goal
      decreases |fs| - |done|
    {
      ghost var st0 := State(coords, done, imageIndex, doc.log, false);
      var thrown, progress;
      coords, done, imageIndex, thrown, progress := PassFields(doc, gen, job, draw, fs, coords, done, imageIndex);
      PassGrows(draw, st0, fs);
      if thrown {
        return;
      }
      if !progress {
        break;
      }
      IdsCount(fs);
      SubsetSize(st0.done, done);
    }
    doc.Draw([End]);
  }

  /**
   * `generatePDF` with the passes as evidently intended: a pass that
   * records a new name in the table counts as progress (`RunStable`).
   */
  method GeneratePdfStable(gen: Generation, metrics: (FontRef, string) -> real, lineHeights: FontRef -> real, job: Job)
    returns (doc: Doc, coords: Coords, done: set<string>, imageIndex: nat)
    requires Metrics(metrics, lineHeights) && DistinctIds(job.template.fields)
    ensures var r := StableOutput(gen, metrics, lineHeights, job);
      doc.log == r.log + (if r.thrown then [] else [End])
      && coords == r.coords && done == r.done && imageIndex == r.imageIndex
  {
    doc := new Doc(metrics, lineHeights);
    var fs := job.template.fields;
    ghost var draw := Drawing(gen, metrics, lineHeights, job);
    DrawingLawful(gen, metrics, lineHeights, job);
    coords, done, imageIndex := InitialCoords(job.template), {}, 0;
    ghost var u := coords.Keys + AllPublished(fs);
    ghost var goal := StableOutput(gen, metrics, lineHeights, job);
    while |done| < |fs|
      invariant doc.Valid() && doc.cache.None? && doc.metrics == metrics && doc.lineHeights == lineHeights
      invariant done <= Ids(fs) && coords.Keys <= u
      invariant RunStable(draw, fs, u, State(coords, done, imageIndex, doc.log, false)) == goal
      decreases |fs| - |done|, |u - coords.Keys|
    {
      ghost var st0 := State(coords, done, imageIndex, doc.log, false);
      StableStep(draw, fs, u, st0);
      var keys0 := coords.Keys;
      var thrown, progress;
      coords, done, imageIndex, thrown, progress := PassFields(doc, gen, job, draw, fs, coords, done, imageIndex);
      if thrown {
        return;
      }
      if !progress && coords.Keys == keys0 {
        break;
      }
    }
    doc.Draw([End]);
  }

  // -----------------------------------------------------------------------
  // Stopping when nothing is drawn
  // -----------------------------------------------------------------------

  /**
   * Two fields: A leans on B's left edge, B on a name nobody publishes. The
   * first pass draws nothing but records `B.left`, after which A's edges
   * all resolve.
   */
  function StuckTemplate(): Template
  {
    Template("stuck", map[], [
      FieldEntry("A", map["left" := Str("B.left"), "right" := Num(10.0), "top" := Num(0.0), "bottom" := Num(10.0)]),
      FieldEntry("B", map["left" := Num(0.0), "right" := Num(10.0), "top" := Str("Z.top"), "bottom" := Num(10.0)])])
  }

  /** The first visit: A's left edge names nothing yet, so A records its other edges only. */
  lemma StuckFirstVisit(draw: Drawer)
    ensures var t := StuckTemplate();
      var p := Visit(draw, Start(t), t.fields[0]);
      !p.thrown && p.done == {} && p.coords.Keys <= Published("A")
  {
    var t := StuckTemplate();
    assert Start(t).coords == map[];
    assert !EdgesOf(t.fields[0], map[]).Resolved();
  }

  /** The second visit: B's top edge names nothing, so B records its left edge but is not drawn. */
  lemma StuckSecondVisit(draw: Drawer, st: State)
    requires !st.thrown && st.done == {} && st.coords.Keys <= Published("A")
    ensures var p := Visit(draw, st, StuckTemplate().fields[1]);
      !p.thrown && p.done == {} && "B.left" in p.coords
  {
    var b := StuckTemplate().fields[1];
    assert "Z.top" !in Published("A") by {
      assert |"Z.top"| == 5;
      assert ("A" + ".top")[0] == 'A';
    }
    assert !EdgesOf(b, st.coords).Resolved();
    assert "B" + ".left" == "B.left";
  }

  /**
   * As written, the passes stop after the first one, which drew nothing,
   * and leave A undrawn although its edges resolve against the table.
   */
  lemma AsWrittenStopsEarly(draw: Drawer)
    requires Lawful(draw)
    ensures DistinctIds(StuckTemplate().fields)
    ensures var t := StuckTemplate();
      var r := Run(draw, t.fields, Start(t));
      !r.thrown && "A" !in r.done && EdgesOf(t.fields[0], r.coords).Resolved()
  {
    var t := StuckTemplate();
    var st := Start(t);
    var p1 := Visit(draw, st, t.fields[0]);
    StuckFirstVisit(draw);
    StuckSecondVisit(draw, p1);
    assert t.fields[..1][..0] == [];
    assert t.fields[..2][..1] == t.fields[..1];
    assert t.fields[..2] == t.fields;
    assert Pass(draw, st, t.fields[..1]) == p1;
    assert Pass(draw, st, t.fields) == Visit(draw, p1, t.fields[1]);
  }

  /** The names any of the fields `fs` may publish. */
  ghost function AllPublished(fs: seq<FieldEntry>): set<string>
  {
    set i, k | 0 <= i < |fs| && k in Published(fs[i].id) :: k
  }

  /** A pass adds to the table only names the fields of the pass publish. */
  lemma {:induction false} PassKeys(draw: Drawer, st: State, fs: seq<FieldEntry>)
    requires Lawful(draw)
    ensures Pass(draw, st, fs).coords.Keys <= st.coords.Keys + AllPublished(fs)
    decreases |fs|
  {
    if fs != [] {
      var n := |fs| - 1;
      var p := Pass(draw, st, fs[..n]);
      PassKeys(draw, st, fs[..n]);
      assert AllPublished(fs[..n]) <= AllPublished(fs) by {
        forall k | k in AllPublished(fs[..n]) ensures k in AllPublished(fs) {
          var j :| 0 <= j < n && k in Published(fs[..n][j].id);
          assert k in Published(fs[j].id);
        }
      }
      if !p.thrown {
        VisitGrows(draw, p, fs[n]);
        assert Published(fs[n].id) <= AllPublished(fs);
      }
    }
  }

  /** Growing the table within `u` shrinks what of `u` is left out of it. */
  lemma KeysShrink(u: set<string>, a: set<string>, b: set<string>)
    requires a <= b <= u && a != b
    ensures |u - b| < |u - a|
  {
    var k :| k in b && k !in a;
    assert k in u - a && k !in u - b;
    SubsetSize(u - b, u - a);
  }

  /**
   * The passes as evidently intended: a pass that records a new name in
   * the table counts as progress too, since a field skipped earlier in the
   * pass may now resolve. `u` bounds the names the table can ever hold.
   */
  ghost function RunStable(draw: Drawer, fs: seq<FieldEntry>, u: set<string>, st: State): State
    requires Lawful(draw) && DistinctIds(fs) && st.done <= Ids(fs)
    requires st.coords.Keys <= u && AllPublished(fs) <= u
    decreases |fs| - |st.done|, |u - st.coords.Keys|
  {
    if st.thrown || |st.done| >= |fs| then st
    else
      var next := Pass(draw, st, fs);
      PassGrows(draw, st, fs);
      PassKeys(draw, st, fs);
      if next.thrown || (next.done == st.done && next.coords.Keys == st.coords.Keys) then next
      else
        IdsCount(fs);
        SubsetSize(st.done, next.done);
        SubsetSize(next.done, Ids(fs));
        if next.done == st.done then
          KeysShrink(u, st.coords.Keys, next.coords.Keys);
          RunStable(draw, fs, u, next)
        else
          RunStable(draw, fs, u, next)
  }

  /** One step of the corrected passes, as the loop of `GeneratePdfStable` takes it. */
  lemma StableStep(draw: Drawer, fs: seq<FieldEntry>, u: set<string>, st: State)
    requires Lawful(draw) && DistinctIds(fs) && st.done <= Ids(fs)
    requires st.coords.Keys <= u && AllPublished(fs) <= u
    requires !st.thrown && |st.done| < |fs|
    ensures var next := Pass(draw, st, fs);
      next.done <= Ids(fs) && next.coords.Keys <= u && st.done <= next.done && st.coords.Keys <= next.coords.Keys
      && RunStable(draw, fs, u, st)
         == (if next.thrown || (next.done == st.done && next.coords.Keys == st.coords.Keys) then next
             else RunStable(draw, fs, u, next))
      && (next.done != st.done ==> |fs| - |next.done| < |fs| - |st.done|)
      && (next.done == st.done && next.coords.Keys != st.coords.Keys ==> |u - next.coords.Keys| < |u - st.coords.Keys|)
  {
    var next := Pass(draw, st, fs);
    PassGrows(draw, st, fs);
    PassKeys(draw, st, fs);
    IdsCount(fs);
    SubsetSize(st.done, next.done);
    if next.done == st.done && next.coords.Keys != st.coords.Keys {
      KeysShrink(u, st.coords.Keys, next.coords.Keys);
    }
  }

  /**
   * After a pass that threw nothing, drew nothing and recorded no new name,
   * no field left undrawn resolves.
   */
  lemma {:induction false} QuietPassStuck(draw: Drawer, st: State, fs: seq<FieldEntry>)
    requires Lawful(draw)
    requires var r := Pass(draw, st, fs); !r.thrown && r.done == st.done && r.coords.Keys == st.coords.Keys
    ensures forall i :: 0 <= i < |fs| && fs[i].id !in st.done ==> !EdgesOf(fs[i], st.coords).Resolved()
    decreases |fs|
  {
    if fs != [] {
      var n := |fs| - 1;
      var p := Pass(draw, st, fs[..n]);
      PassGrows(draw, st, fs[..n]);
      assert !p.thrown;
      var r := Visit(draw, p, fs[n]);
      VisitGrows(draw, p, fs[n]);
      assert p.done == st.done && p.coords.Keys == st.coords.Keys;
      QuietPassStuck(draw, st, fs[..n]);
      forall i | 0 <= i < |fs| && fs[i].id !in st.done ensures !EdgesOf(fs[i], st.coords).Resolved() {
        if i < n {
          assert fs[..n][i] == fs[i];
        } else {
          ResolvedByKeys(fs[n], p.coords, st.coords);
        }
      }
    }
  }

  /**
   * The corrected passes end with every field drawn, after an exception,
   * or with every undrawn field unresolvable against the final table.
   */
  lemma {:induction false} RunStableSettles(draw: Drawer, fs: seq<FieldEntry>, u: set<string>, st: State)
    requires Lawful(draw) && DistinctIds(fs) && st.done <= Ids(fs)
    requires st.coords.Keys <= u && AllPublished(fs) <= u
    ensures var r := RunStable(draw, fs, u, st);
      r.thrown || r.done == Ids(fs)
      || forall i :: 0 <= i < |fs| && fs[i].id !in r.done ==> !EdgesOf(fs[i], r.coords).Resolved()
    decreases |fs| - |st.done|, |u - st.coords.Keys|
  {
    IdsCount(fs);
    if st.thrown || |st.done| >= |fs| {
      SubsetSize(st.done, Ids(fs));
    } else {
      var next := Pass(draw, st, fs);
      PassGrows(draw, st, fs);
      PassKeys(draw, st, fs);
      if next.thrown {
      } else if next.done == st.done && next.coords.Keys == st.coords.Keys {
        QuietPassStuck(draw, st, fs);
        forall i | 0 <= i < |fs| && fs[i].id !in next.done ensures !EdgesOf(fs[i], next.coords).Resolved() {
          ResolvedByKeys(fs[i], st.coords, next.coords);
        }
      } else {
        SubsetSize(st.done, next.done);
        SubsetSize(next.done, Ids(fs));
        if next.done == st.done {
          KeysShrink(u, st.coords.Keys, next.coords.Keys);
        }
        RunStableSettles(draw, fs, u, next);
      }
    }
  }
}
