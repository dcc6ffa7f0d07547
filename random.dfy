/**
 * The seeded random source (`srandom`, a linear congruential generator over
 * the global `randomSeed`), the in-place Fisher-Yates `shuffleArray`, and the
 * seeded `shuffleSentences` / `shuffleImages` built on it.
 */
module Random {
  import opened Wrappers

  const Modulus: int := 233280
  const Multiplier: int := 9301
  const Increment: int := 49297

  /** JavaScript `%`: the remainder takes the sign of the dividend. */
  function JsRem(a: int, b: int): (r: int)
    requires b > 0
    ensures a >= 0 ==> 0 <= r < b
    ensures a < 0 ==> -b < r <= 0
  {
    if a >= 0 then a % b else -((-a) % b)
  }

  /** The state `srandom` stores after one call from state `s`. */
  function Next(s: int): int
  {
    JsRem(s * Multiplier + Increment, Modulus)
  }

  /** The value `srandom` returns for the state it has just stored. */
  function Value(state: int): real
  {
    state as real / Modulus as real
  }

  /** The state after `k` calls. */
  function Advance(s: int, k: nat): int
    decreases k
  {
    if k == 0 then s else Advance(Next(s), k - 1)
  }

  /** A non-negative state stays in [0, 233280), so values lie in [0, 1). */
  lemma SrandomRange(s: int)
    requires s >= 0
    ensures 0 <= Next(s) < Modulus
    ensures 0.0 <= Value(Next(s)) < 1.0
  {
  }

  lemma {:induction false} AdvanceNonNegative(s: int, k: nat)
    requires s >= 0
    ensures Advance(s, k) >= 0
    decreases k
  {
    if k > 0 {
      AdvanceNonNegative(Next(s), k - 1);
    }
  }

  /** The holder of the global `randomSeed`. */
  class Rng {
    var state: int

    constructor (seed: int)
      ensures state == seed
    {
      state := seed;
    }

    /** `srandom()`. */
    method Srandom() returns (r: real)
      modifies this
      ensures state == Next(old(state))
      ensures r == Value(state)
    {
      state := (state * Multiplier + Increment);
      state := if state >= 0 then state % Modulus else -((-state) % Modulus);
      r := state as real / Modulus as real;
    }
  }

  /** `Math.floor(r * (i + 1))`. */
  function PickIndex(r: real, i: nat): int
  {
    (r * (i + 1) as real).Floor
  }

  /** The index `shuffleArray` picks at position `i` when `srandom` moved to state `st`. */
  function SwapIndex(st: int, i: nat): int
  {
    PickIndex(Value(st), i)
  }


  /**
   * The partner index of position `i`, for any state `srandom` can store:
   * at most `i` and at least `-(i + 1)`; in [0, i] when the state is not
   * negative.
   */
  lemma SwapIndexRange(st: int, i: nat)
    requires -Modulus < st < Modulus
    ensures -(i + 1) <= SwapIndex(st, i) <= i
    ensures st >= 0 ==> 0 <= SwapIndex(st, i)
  {
    var v := Value(st);
    assert -1.0 < v < 1.0;
    var x := v * (i + 1) as real;
    assert x < (i + 1) as real by {
      assert (1.0 - v) * (i + 1) as real > 0.0;
    }
    assert -((i + 1) as real) < x by {
      assert (1.0 + v) * (i + 1) as real > 0.0;
    }
    if st >= 0 {
      MulNonNeg(v, (i + 1) as real);
    }
  }

  lemma MulNonNeg(a: real, b: real)
    requires 0.0 <= a && 0.0 <= b
    ensures 0.0 <= a * b
  {
  }

  /**
   * A JavaScript array as `shuffleArray` sees it: its index slots, `None`
   * standing for `undefined`, and the properties with negative integer keys
   * that `array[j] = temp` creates when `j` is negative. Such a key is not an
   * index: writing it leaves `length` and every slot alone.
   */
  datatype Slots<T> = Slots(items: seq<Option<T>>, negative: map<int, Option<T>>)

  /** `array[j]`: a slot, a negative-key property, or `undefined`. */
  function Read<T>(a: Slots<T>, j: int): Option<T>
    requires j < |a.items|
  {
    if j >= 0 then a.items[j] else if j in a.negative then a.negative[j] else None
  }

  /** `array[j] = v`. */
  function Write<T>(a: Slots<T>, j: int, v: Option<T>): Slots<T>
    requires j < |a.items|
  {
    if j >= 0 then a.(items := a.items[j := v]) else a.(negative := a.negative[j := v])
  }

  /** `var temp = array[i]; array[i] = array[j]; array[j] = temp;`. */
  function SwapSlots<T>(a: Slots<T>, i: nat, j: int): Slots<T>
    requires i < |a.items| && j < |a.items|
  {
    Write(a.(items := a.items[i := Read(a, j)]), j, a.items[i])
  }

  function Swap<T>(xs: seq<T>, i: nat, j: nat): seq<T>
    requires i < |xs| && j < |xs|
  {
    xs[i := xs[j]][j := xs[i]]
  }

  /** Index of the last element, where `shuffleArray`'s loop starts. */
  function Top(n: nat): nat
  {
    if n == 0 then 0 else n - 1
  }

  /**
   * What `shuffleArray` does to `a` from loop index `i` down to 1, the
   * generator being in state `state`.
   */
  function Shuffled<T>(a: Slots<T>, state: int, i: nat): (r: Slots<T>)
    requires i == 0 || i < |a.items|
    ensures |r.items| == |a.items|
    decreases i
  {
    if i == 0 then a
    else
      var st := Next(state);
      SwapIndexRange(st, i);
      Shuffled(SwapSlots(a, i, SwapIndex(st, i)), st, i - 1)
  }

  lemma SwapPermutes<T>(xs: seq<T>, i: nat, j: nat)
    requires i < |xs| && j < |xs|
    ensures multiset(Swap(xs, i, j)) == multiset(xs)
  {
    var ys := xs[i := xs[j]];
    assert multiset(ys) == multiset(xs) - multiset{xs[i]} + multiset{xs[j]};
  }

  /**
   * From a non-negative state the shuffle only permutes: every slot keeps its
   * multiplicity and no negative-key property is written.
   */
  lemma {:induction false} ShuffledPermutes<T>(a: Slots<T>, state: int, i: nat)
    requires state >= 0
    requires i == 0 || i < |a.items|
    ensures Shuffled(a, state, i).negative == a.negative
    ensures multiset(Shuffled(a, state, i).items) == multiset(a.items)
    decreases i
  {
    if i > 0 {
      var st := Next(state);
      SrandomRange(state);
      SwapIndexRange(st, i);
      var j := SwapIndex(st, i);
      assert SwapSlots(a, i, j) == Slots(Swap(a.items, i, j), a.negative);
      SwapPermutes(a.items, i, j);
      ShuffledPermutes(SwapSlots(a, i, j), st, i - 1);
    }
  }

  /** From any state, slots above the loop index are never touched again. */
  lemma {:induction false} ShuffledKeepsTop<T>(a: Slots<T>, state: int, i: nat, k: nat)
    requires i == 0 || i < |a.items|
    requires i < k < |a.items|
    ensures Shuffled(a, state, i).items[k] == a.items[k]
    decreases i
  {
    if i > 0 {
      var st := Next(state);
      SwapIndexRange(st, i);
      ShuffledKeepsTop(SwapSlots(a, i, SwapIndex(st, i)), st, i - 1, k);
    }
  }

  lemma ShuffleStep<T>(a: Slots<T>, state: int, i: nat)
    requires 0 < i < |a.items|
    ensures SwapIndex(Next(state), i) <= i
    ensures Shuffled(a, state, i) == Shuffled(SwapSlots(a, i, SwapIndex(Next(state), i)), Next(state), i - 1)
    ensures Advance(state, i) == Advance(Next(state), i - 1)
  {
    SwapIndexRange(Next(state), i);
  }

  /**
   * From seed -10, `shuffleArray(["a", "b"])` draws the partner index -1:
   * "b" moves to the property "-1", slot 1 becomes `undefined`, and the
   * result is not a permutation of the input.
   */
  lemma NegativeSeedLoses()
    ensures var r := Shuffled(Slots([Some("a"), Some("b")], map[]), -10, 1);
      r == Slots([Some("a"), None], map[-1 := Some("b")])
      && multiset(r.items) != multiset([Some("a"), Some("b")])
  {
    assert Next(-10) == -43713;
    assert -1.0 <= Value(-43713) * 2.0 < 0.0;
    assert SwapIndex(-43713, 1) == -1;
    assert multiset([Some("a"), None])[Some("b")] == 0;
  }

  /**
   * `shuffleArray(array)`, in place. The negative-key properties it leaves
   * on the array object come back in `negative`; the arrays it is given are
   * fresh, so they carry none beforehand.
   */
  method ShuffleArray<T>(a: array<Option<T>>, rng: Rng) returns (negative: map<int, Option<T>>)
    modifies a, rng
    ensures Slots(a[..], negative) == Shuffled(Slots(old(a[..]), map[]), old(rng.state), Top(a.Length))
    ensures rng.state == Advance(old(rng.state), Top(a.Length))
  {
    negative := map[];
    if a.Length == 0 {
      return;
    }
    var i := a.Length - 1;
    while i > 0
      invariant 0 <= i < a.Length
      invariant Shuffled(Slots(a[..], negative), rng.state, i) == Shuffled(Slots(old(a[..]), map[]), old(rng.state), Top(a.Length))
      invariant Advance(rng.state, i) == Advance(old(rng.state), Top(a.Length))
      decreases i
    {
      ghost var before := Slots(a[..], negative);
      ShuffleStep(before, rng.state, i);
      var r := rng.Srandom();
      var j := PickIndex(r, i);
      var temp := a[i];
      var v := if j >= 0 then a[j] else if j in negative then negative[j] else None;
      a[i] := v;
      if j >= 0 {
        a[j] := temp;
      } else {
        negative := negative[j := temp];
      }
      assert Slots(a[..], negative) == SwapSlots(before, i, j);
      i := i - 1;
    }
  }

  /** `array.filter(function(val) {return (val != "");})`. */
  function NonEmpty(xs: seq<string>): (r: seq<string>)
    ensures forall k :: 0 <= k < |r| ==> r[k] != ""
  {
    if xs == [] then []
    else if xs[0] != "" then [xs[0]] + NonEmpty(xs[1..])
    else NonEmpty(xs[1..])
  }

  /** The filter keeps every non-empty string as often as it occurs. */
  lemma {:induction false} NonEmptyCounts(xs: seq<string>, x: string)
    ensures multiset(NonEmpty(xs))[x] == if x == "" then 0 else multiset(xs)[x]
    decreases |xs|
  {
    if xs != [] {
      NonEmptyCounts(xs[1..], x);
      assert xs == [xs[0]] + xs[1..];
    }
  }

  /** The slots of an array whose entries are all defined. */
  function Defined<T>(xs: seq<T>): (r: seq<Option<T>>)
    ensures |r| == |xs|
  {
    if xs == [] then [] else [Some(xs[0])] + Defined(xs[1..])
  }

  /** Defined slots hold each value as often as the entries do, and no `undefined`. */
  lemma {:induction false} DefinedCounts<T>(xs: seq<T>, x: T)
    ensures multiset(Defined(xs))[Some(x)] == multiset(xs)[x]
    ensures multiset(Defined(xs))[None] == 0
    decreases |xs|
  {
    if xs != [] {
      DefinedCounts(xs[1..], x);
      assert xs == [xs[0]] + xs[1..];
    }
  }

  /** The entries of `Defined(xs)` are those of `xs`. */
  lemma {:induction false} DefinedAt<T>(xs: seq<T>)
    ensures forall k :: 0 <= k < |xs| ==> Defined(xs)[k] == Some(xs[k])
    decreases |xs|
  {
    if xs != [] {
      DefinedAt(xs[1..]);
    }
  }

  /** A fresh array holding the entries of `xs`. */
  method NewDefined<T>(xs: seq<T>) returns (values: array<Option<T>>)
    ensures fresh(values)
    ensures values[..] == Defined(xs)
  {
    DefinedAt(xs);
    values := new Option<T>[|xs|](k requires 0 <= k < |xs| => Some(xs[k]));
  }

  /**
   * `shuffleSentences(sentences, seed)`: drop the empty strings, reset the
   * seed, shuffle. The argument is left as it was; the negative-key
   * properties stay on the returned array, where nothing reads them.
   */
  method ShuffleSentences(sentences: array<string>, seed: int, rng: Rng) returns (values: array<Option<string>>)
    modifies rng
    ensures fresh(values)
    ensures values[..] == Shuffled(Slots(Defined(NonEmpty(sentences[..])), map[]), seed, Top(|NonEmpty(sentences[..])|)).items
    ensures rng.state == Advance(seed, Top(values.Length))
  {
    var kept := NonEmpty(sentences[..]);
    values := NewDefined(kept);
    DefinedAt(kept);
    rng.state := seed;
    var negative := ShuffleArray(values, rng);
  }

  /** `shuffleImages(images, seed)`: shuffle a copy made with `slice()`. */
  method ShuffleImages<T>(images: array<T>, seed: int, rng: Rng) returns (values: array<Option<T>>)
    modifies rng
    ensures fresh(values)
    ensures values[..] == Shuffled(Slots(Defined(images[..]), map[]), seed, Top(images.Length)).items
    ensures rng.state == Advance(seed, Top(images.Length))
  {
    values := NewDefined(images[..]);
    DefinedAt(images[..]);
    rng.state := seed;
    var negative := ShuffleArray(values, rng);
  }

  /**
   * From a non-negative seed, the sentences `shuffleSentences` returns are the
   * non-empty inputs, reordered, with no `undefined` among them.
   */
  lemma ShuffleSentencesPermutes(sentences: seq<string>, seed: int, x: string)
    requires seed >= 0
    ensures var out := Shuffled(Slots(Defined(NonEmpty(sentences)), map[]), seed, Top(|NonEmpty(sentences)|)).items;
      multiset(out)[Some(x)] == (if x == "" then 0 else multiset(sentences)[x])
      && multiset(out)[None] == 0
  {
    var kept := Defined(NonEmpty(sentences));
    DefinedCounts(NonEmpty(sentences), x);
    ShuffledPermutes(Slots(kept, map[]), seed, Top(|NonEmpty(sentences)|));
    NonEmptyCounts(sentences, x);
  }

  /** Adding multiples of the modulus leaves the remainder alone. */
  lemma {:induction false} ShiftMod(x: int, q: nat)
    ensures (x + q * Modulus) % Modulus == x % Modulus
    decreases q
  {
    if q > 0 {
      ShiftMod(x, q - 1);
      assert x + q * Modulus == (x + (q - 1) * Modulus) + Modulus;
    }
  }

  /** A non-negative seed and its remainder draw the same next state. */
  lemma NextOfRemainder(seed: int)
    ensures seed >= 0 ==> Next(seed % Modulus) == Next(seed)
  {
    if seed >= 0 {
      var q, r := seed / Modulus, seed % Modulus;
      var x := r * Multiplier + Increment;
      assert seed * Multiplier + Increment == x + (q * Multiplier) * Modulus;
      ShiftMod(x, q * Multiplier);
    }
  }

  /** The seed brought into [0, 233280), the range a non-negative state keeps to. */
  function Reduce(seed: int): (r: int)
    ensures 0 <= r < Modulus
    ensures seed >= 0 ==> Next(r) == Next(seed)
  {
    NextOfRemainder(seed);
    seed % Modulus
  }

  /** On a non-negative seed, reducing it first changes nothing in the shuffle. */
  lemma ReduceKeepsShuffle<T>(a: Slots<T>, seed: int, i: nat)
    requires seed >= 0
    requires i == 0 || i < |a.items|
    ensures Shuffled(a, Reduce(seed), i) == Shuffled(a, seed, i)
  {
  }

  /**
   * `shuffleSentences` with the seed reduced into [0, 233280) first: the same
   * result on every non-negative seed, and on every seed a permutation of
   * the non-empty sentences with no `undefined` among them.
   */
  method ShuffleSentencesReduced(sentences: array<string>, seed: int, rng: Rng) returns (values: array<Option<string>>)
    modifies rng
    ensures fresh(values)
    ensures seed >= 0 ==>
      values[..] == Shuffled(Slots(Defined(NonEmpty(sentences[..])), map[]), seed, Top(|NonEmpty(sentences[..])|)).items
    ensures forall x: string :: multiset(values[..])[Some(x)] == if x == "" then 0 else multiset(sentences[..])[x]
    ensures multiset(values[..])[None] == 0
  {
    values := ShuffleSentences(sentences, Reduce(seed), rng);
    var kept := Defined(NonEmpty(sentences[..]));
    if seed >= 0 {
      ReduceKeepsShuffle(Slots(kept, map[]), seed, Top(|NonEmpty(sentences[..])|));
    }
    forall x: string
      ensures multiset(values[..])[Some(x)] == if x == "" then 0 else multiset(sentences[..])[x]
    {
      ShuffleSentencesPermutes(sentences[..], Reduce(seed), x);
    }
    ShuffleSentencesPermutes(sentences[..], Reduce(seed), "");
  }

  /**
   * The shuffle step of `populateFields`: with randomisation on, the
   * non-empty sentences are shuffled from `lastRandomSeed`; otherwise they
   * are used as scraped. Input `i` receives value `i`; `val(undefined)`
   * sets "", both for an `undefined` slot and past the end.
   */
  method PopulateFields(scraped: array<string>, randomize: bool, lastRandomSeed: int, rng: Rng, inputs: nat)
    returns (filled: seq<string>)
    modifies rng
    ensures |filled| == inputs
    ensures randomize ==>
      var values := Shuffled(Slots(Defined(NonEmpty(scraped[..])), map[]), lastRandomSeed, Top(|NonEmpty(scraped[..])|)).items;
      forall i :: 0 <= i < inputs ==> filled[i] == (if i < |values| then values[i].UnwrapOr("") else "")
    ensures !randomize ==> forall i :: 0 <= i < inputs ==> filled[i] == (if i < scraped.Length then scraped[i] else "")
    ensures randomize ==> rng.state == Advance(lastRandomSeed, Top(|NonEmpty(scraped[..])|))
    ensures !randomize ==> rng.state == old(rng.state)
  {
    var values: seq<Option<string>>;
    if randomize {
      var shuffled := ShuffleSentences(scraped, lastRandomSeed, rng);
      values := shuffled[..];
    } else {
      values := Defined(scraped[..]);
      DefinedAt(scraped[..]);
    }
    filled := [];
    var i := 0;
    while i < inputs
      invariant 0 <= i <= inputs
      invariant |filled| == i
      invariant forall k :: 0 <= k < i ==> filled[k] == (if k < |values| then values[k].UnwrapOr("") else "")
    {
      filled := filled + [if i < |values| then values[i].UnwrapOr("") else ""];
      i := i + 1;
    }
  }
}
