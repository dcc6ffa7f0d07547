/**
 * Option handling: `mergeObjects` (and jQuery's `$.extend`, which the
 * browser generation uses the same way), the `||` look-ups of the original
 * generation, the drawing of actual maximum lengths by
 * `computeActualMaxFieldLengths`, and the truncation of text to that length.
 */
module Options {
  import opened Wrappers
  import opened JsValues
  import Random

  // -----------------------------------------------------------------------
  // mergeObjects
  // -----------------------------------------------------------------------

  /** The properties of `src` whose value is defined, copied over `base`. */
  function Extend(base: Props, src: Props): (r: Props)
    ensures forall k :: k in r <==> k in base || (k in src && !src[k].Undefined?)
  {
    map k | k in base.Keys + src.Keys && (k in base || !src[k].Undefined?)
      :: if k in src && !src[k].Undefined? then src[k] else base[k]
  }

  /** `base` after copying the sources over it, first to last. */
  function Overlay(base: Props, srcs: seq<Props>): Props
    decreases |srcs|
  {
    if srcs == [] then base
    else Extend(Overlay(base, srcs[..|srcs| - 1]), srcs[|srcs| - 1])
  }

  /** A JavaScript object whose properties are written in place. */
  class JsObject {
    var props: Props

    constructor (props: Props)
      ensures this.props == props
    {
      this.props := props;
    }
  }

  /**
   * `mergeObjects(target, src1, src2, ...)`: for each source in turn, every
   * property whose value is not `undefined` is written into `target`, which
   * is returned.
   */
  method MergeObjects(target: JsObject, sources: seq<Props>) returns (r: JsObject)
    modifies target
    ensures r == target
    ensures target.props == Overlay(old(target.props), sources)
  {
    var i := 0;
    while i < |sources|
      invariant 0 <= i <= |sources|
      invariant target.props == Overlay(old(target.props), sources[..i])
    {
      var src := sources[i];
      ghost var before := target.props;
      var keys := src.Keys;
      while keys != {}
        invariant keys <= src.Keys
        invariant target.props == Extend(before, src - keys)
        decreases keys
      {
        var key :| key in keys;
        ExtendOne(before, src, keys, key);
        if !src[key].Undefined? {
          target.props := target.props[key := src[key]];
        }
        keys := keys - {key};
      }
      assert src - {} == src;
      assert sources[..i + 1][..i] == sources[..i];
      i := i + 1;
    }
    assert sources[..i] == sources;
    r := target;
  }

  /** Copying one more property of `src` over the partly extended object. */
  lemma ExtendOne(base: Props, src: Props, keys: set<string>, key: string)
    requires key in keys && keys <= src.Keys
    ensures Extend(base, src - (keys - {key}))
      == if src[key].Undefined? then Extend(base, src - keys) else Extend(base, src - keys)[key := src[key]]
  {
    var a := Extend(base, src - (keys - {key}));
    var b := if src[key].Undefined? then Extend(base, src - keys) else Extend(base, src - keys)[key := src[key]];
    assert a.Keys == b.Keys;
    forall k | k in a
      ensures a[k] == b[k]
    {
    }
  }

  /** Reading a property after one source was copied over. */
  lemma GetExtend(base: Props, src: Props, key: string)
    ensures Get(Extend(base, src), key) ==
      if !Get(src, key).Undefined? then Get(src, key) else Get(base, key)
  {
  }

  /**
   * A property of the merged object is the value of the last source that
   * defines it.
   */
  lemma {:induction false} LastDefinedWins(base: Props, srcs: seq<Props>, key: string, i: nat)
    requires i < |srcs| && !Get(srcs[i], key).Undefined?
    requires forall j :: i < j < |srcs| ==> Get(srcs[j], key).Undefined?
    ensures Get(Overlay(base, srcs), key) == Get(srcs[i], key)
    decreases |srcs|
  {
    var n := |srcs| - 1;
    GetExtend(Overlay(base, srcs[..n]), srcs[n], key);
    if i < n {
      var init := srcs[..n];
      assert init[i] == srcs[i];
      forall j | i < j < |init|
        ensures Get(init[j], key).Undefined?
      {
        assert init[j] == srcs[j];
      }
      LastDefinedWins(base, init, key, i);
    }
  }

  /** A property no source defines keeps the base value. */
  lemma {:induction false} NoneDefined(base: Props, srcs: seq<Props>, key: string)
    requires forall j :: 0 <= j < |srcs| ==> Get(srcs[j], key).Undefined?
    ensures Get(Overlay(base, srcs), key) == Get(base, key)
    decreases |srcs|
  {
    if srcs != [] {
      var n := |srcs| - 1;
      GetExtend(Overlay(base, srcs[..n]), srcs[n], key);
      forall j | 0 <= j < n
        ensures Get(srcs[..n][j], key).Undefined?
      {
        assert srcs[..n][j] == srcs[j];
      }
      NoneDefined(base, srcs[..n], key);
    }
  }

  /**
   * The options of a field are the defaults, overridden by the global
   * options, the template and the field, in that order: the field's value
   * when it defines one, else the template's, else the global one, else
   * the default.
   */
  lemma FieldOverTemplate(defaults: Props, global: Props, template: Props, field: Props, key: string)
    ensures Get(Overlay(defaults, [global, template, field]), key) ==
      if !Get(field, key).Undefined? then Get(field, key)
      else if !Get(template, key).Undefined? then Get(template, key)
      else if !Get(global, key).Undefined? then Get(global, key)
      else Get(defaults, key)
  {
    var srcs := [global, template, field];
    if !Get(field, key).Undefined? {
      LastDefinedWins(defaults, srcs, key, 2);
    } else if !Get(template, key).Undefined? {
      LastDefinedWins(defaults, srcs, key, 1);
    } else if !Get(global, key).Undefined? {
      LastDefinedWins(defaults, srcs, key, 0);
    } else {
      NoneDefined(defaults, srcs, key);
    }
  }

  /** `a || b`. */
  function Or(a: Val, b: Val): (r: Val)
    ensures Truthy(a) ==> r == a
    ensures !Truthy(a) ==> r == b
  {
    if Truthy(a) then a else b
  }

  /**
   * The original generation reads options with `||`, so a field that sets
   * a property to 0 gets the template's value; merging keeps the 0.
   */
  lemma ZeroFallsThrough(fieldValue: Val, templateValue: Val, dflt: Val, key: string)
    requires fieldValue == Num(0.0) && Truthy(templateValue)
    ensures Or(Or(fieldValue, templateValue), dflt) == templateValue
    ensures Get(Extend(map[key := templateValue], map[key := fieldValue]), key) == Num(0.0)
  {
  }

  // -----------------------------------------------------------------------
  // computeActualMaxFieldLengths
  // -----------------------------------------------------------------------

  /**
   * `actualValue(spec)` from generator state `state`: `undefined` for a
   * falsy spec, a draw `min + srandom() * (max - min)` for `[min, max]`,
   * the spec itself otherwise. Returns the value and the new state.
   */
  function ActualValue(spec: Val, state: int): (Val, int)
  {
    if !Truthy(spec) then (Undefined, state)
    else if spec.Interval? then
      (Num(Between(spec.lo, spec.hi, Random.Value(Random.Next(state)))), Random.Next(state))
    else (spec, state)
  }

  /** A draw from `[min, max]` lies in `[min, max)`, and one call of `srandom` is made. */
  lemma DrawInInterval(lo: real, hi: real, state: int)
    requires state >= 0 && lo < hi
    ensures ActualValue(Interval(lo, hi), state).0.Num?
    ensures lo <= ActualValue(Interval(lo, hi), state).0.n < hi
    ensures ActualValue(Interval(lo, hi), state).1 == Random.Advance(state, 1)
  {
    Random.SrandomRange(state);
    var r := Random.Value(Random.Next(state));
    assert ActualValue(Interval(lo, hi), state).0 == Num(Between(lo, hi, r));
  }

  /** `min + r * (max - min)`: for `r` in `[0, 1)`, a point of `[min, max)`. */
  function Between(lo: real, hi: real, r: real): (x: real)
    ensures 0.0 <= r < 1.0 && lo < hi ==> lo <= x < hi
  {
    FractionOf(r, hi - lo);
    lo + Times(r, hi - lo)
  }

  function Times(a: real, b: real): real
  {
    a * b
  }

  /** A fraction `r` in `[0, 1)` of a positive length `d` is in `[0, d)`. */
  lemma FractionOf(r: real, d: real)
    ensures 0.0 <= r < 1.0 && d > 0.0 ==> 0.0 <= Times(r, d) < d
  {
    if 0.0 <= r < 1.0 && d > 0.0 {
      assert 0.0 <= r * d;
      assert 0.0 < (1.0 - r) * d == d - r * d;
    }
  }

  /** A scalar spec is kept as it is and no draw is made; a falsy spec gives `undefined`. */
  lemma ScalarKept(spec: Val, state: int)
    requires !spec.Interval?
    ensures ActualValue(spec, state).1 == state
    ensures Truthy(spec) ==> ActualValue(spec, state).0 == spec
    ensures !Truthy(spec) ==> ActualValue(spec, state).0.Undefined?
  {
  }

  const MaxLengthKey: string := "maxLength"
  const ActualKey: string := "actualMaxLength"

  /** The fields of one template, their `actualMaxLength` set in order. */
  function LimitFields(fs: seq<FieldEntry>, state: int): (seq<FieldEntry>, int)
    decreases |fs|
  {
    if fs == [] then ([], state)
    else
      var (v, s1) := ActualValue(Get(fs[0].props, MaxLengthKey), state);
      var (rest, s2) := LimitFields(fs[1..], s1);
      ([FieldEntry(fs[0].id, fs[0].props[ActualKey := v])] + rest, s2)
  }

  /** One template: its own `actualMaxLength` first, then its fields'. */
  function LimitTemplate(t: Template, state: int): (Template, int)
  {
    var (v, s1) := ActualValue(Get(t.props, MaxLengthKey), state);
    var (fs, s2) := LimitFields(t.fields, s1);
    (Template(t.name, t.props[ActualKey := v], fs), s2)
  }

  function LimitAll(ts: seq<Template>, state: int): (seq<Template>, int)
    decreases |ts|
  {
    if ts == [] then ([], state)
    else
      var (t, s1) := LimitTemplate(ts[0], state);
      var (rest, s2) := LimitAll(ts[1..], s1);
      ([t] + rest, s2)
  }

  /** The number of `[min, max]` specs, each of which costs one draw. */
  function FieldIntervals(fs: seq<FieldEntry>): nat
  {
    if fs == [] then 0
    else (if Get(fs[0].props, MaxLengthKey).Interval? then 1 else 0) + FieldIntervals(fs[1..])
  }

  function Intervals(ts: seq<Template>): nat
  {
    if ts == [] then 0
    else
      var own := if Get(ts[0].props, MaxLengthKey).Interval? then 1 else 0;
      own + FieldIntervals(ts[0].fields) + Intervals(ts[1..])
  }

  lemma {:induction false} AdvanceAdd(s: int, a: nat, b: nat)
    ensures Random.Advance(Random.Advance(s, a), b) == Random.Advance(s, a + b)
    decreases a
  {
    if a > 0 {
      AdvanceAdd(Random.Next(s), a - 1, b);
    }
  }

  lemma {:induction false} FieldsDraws(fs: seq<FieldEntry>, state: int)
    ensures LimitFields(fs, state).1 == Random.Advance(state, FieldIntervals(fs))
    ensures |LimitFields(fs, state).0| == |fs|
    ensures forall k :: 0 <= k < |fs| ==> LimitFields(fs, state).0[k].id == fs[k].id
    decreases |fs|
  {
    if fs != [] {
      var (v, s1) := ActualValue(Get(fs[0].props, MaxLengthKey), state);
      FieldsDraws(fs[1..], s1);
      if Get(fs[0].props, MaxLengthKey).Interval? {
        AdvanceAdd(state, 1, FieldIntervals(fs[1..]));
      }
    }
  }

  /** The generator state `computeActualMaxFieldLengths` has when it reaches field `k`. */
  function StateAt(fs: seq<FieldEntry>, state: int, k: nat): int
    requires k <= |fs|
    decreases k
  {
    if k == 0 then state else StateAt(fs[1..], ActualValue(Get(fs[0].props, MaxLengthKey), state).1, k - 1)
  }

  /**
   * Field `k` keeps its key and its properties and gains `actualMaxLength`,
   * the value of its own `maxLength` spec at the state reached there; from
   * a non-negative seed that state is non-negative.
   */
  lemma {:induction false} LimitedAt(fs: seq<FieldEntry>, state: int, k: nat)
    requires k < |fs|
    ensures var r := LimitFields(fs, state).0;
      |r| == |fs| && r[k].id == fs[k].id
      && r[k].props == fs[k].props[ActualKey := ActualValue(Get(fs[k].props, MaxLengthKey), StateAt(fs, state, k)).0]
    ensures state >= 0 ==> StateAt(fs, state, k) >= 0
    decreases k
  {
    FieldsDraws(fs, state);
    if state >= 0 {
      Random.SrandomRange(state);
    }
    if k > 0 {
      LimitedAt(fs[1..], ActualValue(Get(fs[0].props, MaxLengthKey), state).1, k - 1);
    }
  }

  /**
   * The limits take exactly one draw per `[min, max]` spec, templates
   * before their fields, in declaration order, and keep templates and
   * field keys as they were.
   */
  lemma {:induction false} OneDrawPerInterval(ts: seq<Template>, state: int)
    ensures LimitAll(ts, state).1 == Random.Advance(state, Intervals(ts))
    ensures |LimitAll(ts, state).0| == |ts|
    ensures forall k :: 0 <= k < |ts| ==>
      LimitAll(ts, state).0[k].name == ts[k].name && |LimitAll(ts, state).0[k].fields| == |ts[k].fields|
    decreases |ts|
  {
    if ts != [] {
      var (v, s1) := ActualValue(Get(ts[0].props, MaxLengthKey), state);
      FieldsDraws(ts[0].fields, s1);
      var (t, s2) := LimitTemplate(ts[0], state);
      OneDrawPerInterval(ts[1..], s2);
      var n0 := if Get(ts[0].props, MaxLengthKey).Interval? then 1 else 0;
      AdvanceAdd(state, n0, FieldIntervals(ts[0].fields));
      AdvanceAdd(state, n0 + FieldIntervals(ts[0].fields), Intervals(ts[1..]));
    }
  }

  /** The global `templates`. */
  class Registry {
    var templates: seq<Template>

    constructor (templates: seq<Template>)
      ensures this.templates == templates
    {
      this.templates := templates;
    }

    /**
     * `computeActualMaxFieldLengths()` of the browser generation: draws from
     * the generator's current state, without reseeding.
     */
    method ComputeActualMaxFieldLengths(rng: Random.Rng)
      modifies this, rng
      ensures templates == LimitAll(old(templates), old(rng.state)).0
      ensures rng.state == LimitAll(old(templates), old(rng.state)).1
    {
      var i := 0;
      while i < |templates|
        invariant 0 <= i <= |templates| == |old(templates)|
        invariant templates[i..] == old(templates)[i..]
        invariant templates[..i] + LimitAll(templates[i..], rng.state).0 == LimitAll(old(templates), old(rng.state)).0
        invariant LimitAll(templates[i..], rng.state).1 == LimitAll(old(templates), old(rng.state)).1
      {
        var t := templates[i];
        ghost var s0 := rng.state;
        assert templates[i..][0] == t && templates[i..][1..] == templates[i + 1..];
        var v := ActualValueDraw(Get(t.props, MaxLengthKey), rng);
        var fs := LimitFieldsDraw(t.fields, rng);
        ghost var lt := LimitTemplate(t, s0);
        assert lt.0 == Template(t.name, t.props[ActualKey := v], fs) && lt.1 == rng.state;
        assert LimitAll(templates[i..], s0).0 == [lt.0] + LimitAll(templates[i + 1..], rng.state).0;
        assert LimitAll(templates[i..], s0).1 == LimitAll(templates[i + 1..], rng.state).1;
        templates := templates[i := Template(t.name, t.props[ActualKey := v], fs)];
        assert templates[..i + 1] == templates[..i] + [templates[i]];
        i := i + 1;
      }
      assert templates[..i] == templates;
    }

    /**
     * `computeActualMaxFieldLengths(seed)` of the current generation:
     * reseeds the generator first, so the limits depend on the seed only.
     */
    method ComputeActualMaxFieldLengthsSeeded(rng: Random.Rng, seed: int)
      modifies this, rng
      ensures templates == LimitAll(old(templates), seed).0
      ensures rng.state == LimitAll(old(templates), seed).1
    {
      rng.state := seed;
      ComputeActualMaxFieldLengths(rng);
    }
  }

  /** The inner loop of `computeActualMaxFieldLengths`: the fields of one template, in order. */
  method LimitFieldsDraw(fields: seq<FieldEntry>, rng: Random.Rng) returns (fs: seq<FieldEntry>)
    modifies rng
    ensures fs == LimitFields(fields, old(rng.state)).0
    ensures rng.state == LimitFields(fields, old(rng.state)).1
  {
    fs := fields;
    var j := 0;
    while j < |fields|
      invariant 0 <= j <= |fs| == |fields|
      invariant fs[j..] == fields[j..]
      invariant fs[..j] + LimitFields(fs[j..], rng.state).0 == LimitFields(fields, old(rng.state)).0
      invariant LimitFields(fs[j..], rng.state).1 == LimitFields(fields, old(rng.state)).1
    {
      var f := fs[j];
      assert fs[j..][0] == f && fs[j..][1..] == fs[j + 1..];
      var fv := ActualValueDraw(Get(f.props, MaxLengthKey), rng);
      fs := fs[j := FieldEntry(f.id, f.props[ActualKey := fv])];
      assert fs[..j + 1] == fs[..j] + [fs[j]];
      j := j + 1;
    }
    assert fs[..j] == fs;
  }

  /** `actualValue(spec)`, drawing from the generator. */
  method ActualValueDraw(spec: Val, rng: Random.Rng) returns (v: Val)
    modifies rng
    ensures v == ActualValue(spec, old(rng.state)).0
    ensures rng.state == ActualValue(spec, old(rng.state)).1
  {
    if !Truthy(spec) {
      v := Undefined;
    } else if spec.Interval? {
      var r := rng.Srandom();
      v := Num(Between(spec.lo, spec.hi, r));
    } else {
      v := spec;
    }
  }

  // -----------------------------------------------------------------------
  // Truncation
  // -----------------------------------------------------------------------

  /**
   * `if (maxLength) text = text.substring(0, maxLength)`: a numeric limit is
   * truncated toward zero and clamped to [0, text.length].
   */
  function Truncate(text: string, maxLength: Val): (r: string)
    ensures |r| <= |text| && r == text[..|r|]
    ensures !Truthy(maxLength) ==> r == text
    ensures maxLength.Num? && maxLength.n > 0.0 ==>
      |r| as real <= maxLength.n && (|text| as real <= maxLength.n ==> r == text)
      && (|r| < |text| ==> maxLength.n < (|r| + 1) as real)
    ensures maxLength.Num? && maxLength.n < 0.0 ==> r == ""
  {
    match maxLength
    case Num(n) =>
      if n <= 0.0 then (if n == 0.0 then text else "")
      else if n.Floor >= |text| then text
      else text[..n.Floor]
    case _ => text
  }
}
