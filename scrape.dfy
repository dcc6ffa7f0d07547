/**
 * Helpers of the scraping page: `randomStr`, and the assembly of the
 * sentence and image lists from a scrape result (`processSentences`,
 * `processImages`). `Math.random` is a parameter: the sequence of values
 * it returns.
 */
module Scrape {
  import opened Wrappers
  import opened JsValues
  import opened Text

  const Alpha := "abcdefghijklmnopqrstuvwxyz"
  const AlphaNum := "0123456789abcdefghijklmnopqrstuvwxyz"

  /** The letters are consecutive character codes from 'a', the digits from '0'. */
  lemma AlphabetCodes()
    ensures forall k :: 0 <= k < |Alpha| ==> Alpha[k] as int == 'a' as int + k
    ensures |AlphaNum| == 36 && AlphaNum[10..] == Alpha
    ensures forall k :: 0 <= k < 10 ==> AlphaNum[k] as int == '0' as int + k
  {
  }

  /** The characters `randomStr(size)` draws from. */
  function Chars(size: int): (cs: string)
    ensures |cs| > 0
  {
    if size < 0 then Alpha else AlphaNum
  }

  function Abs(n: int): nat
  {
    if n < 0 then -n else n
  }

  /** `chars[Math.floor(r * chars.length)]` for `r` in [0, 1). */
  function Pick(cs: string, r: real): (c: char)
    requires |cs| > 0 && 0.0 <= r < 1.0
    ensures c in cs
  {
    var k := (r * |cs| as real).Floor;
    assert 0 <= k < |cs| by {
      assert 0.0 <= r * |cs| as real < |cs| as real;
    }
    cs[k]
  }

  predicate Unit(rs: seq<real>)
  {
    forall i :: 0 <= i < |rs| ==> 0.0 <= rs[i] < 1.0
  }

  /**
   * `randomStr(size)` with `Math.random()` returning `rs[0]`, `rs[1]`, ...:
   * |size| characters, the i-th picked by `rs[i]` from a-z when `size` is
   * negative and from 0-9a-z otherwise.
   */
  method RandomStr(size: int, rs: seq<real>) returns (s: string)
    requires |rs| >= Abs(size) && Unit(rs)
    ensures |s| == Abs(size)
    ensures forall i :: 0 <= i < |s| ==> s[i] == Pick(Chars(size), rs[i])
  {
    var n := size;
    var chars;
    if n < 0 {
      n := -n;
      chars := Alpha;
    } else {
      chars := AlphaNum;
    }
    s := "";
    for i := 0 to n
      invariant |s| == i
      invariant forall j :: 0 <= j < i ==> s[j] == Pick(chars, rs[j])
    {
      s := s + [Pick(chars, rs[i])];
    }
  }

  /**
   * Every character of a random string is a lower-case letter when `size`
   * is negative, and a digit or a lower-case letter otherwise; size 0
   * gives "".
   */
  lemma RandomStrAlphabet(size: int, rs: seq<real>, s: string)
    requires |rs| >= Abs(size) && Unit(rs)
    requires |s| == Abs(size) && forall i :: 0 <= i < |s| ==> s[i] == Pick(Chars(size), rs[i])
    ensures size < 0 ==> forall i :: 0 <= i < |s| ==> 'a' <= s[i] <= 'z'
    ensures size >= 0 ==> forall i :: 0 <= i < |s| ==> ('0' <= s[i] <= '9' || 'a' <= s[i] <= 'z')
    ensures size == 0 ==> s == ""
  {
    AlphabetCodes();
    forall i | 0 <= i < |s| ensures 'a' <= s[i] <= 'z' || (size >= 0 && '0' <= s[i] <= '9') {
      var k :| 0 <= k < |Chars(size)| && Chars(size)[k] == s[i];
      if size >= 0 && k >= 10 {
        assert s[i] == Alpha[k - 10];
      }
    }
  }

  // -----------------------------------------------------------------------
  // Scrape results
  // -----------------------------------------------------------------------

  /**
   * A scrape result: `title`, `vendor` and `price` may be undefined; the
   * lists may be missing.
   */
  datatype Info = Info(title: Option<string>, vendor: Option<string>, price: Option<string>,
                       features: Option<seq<string>>, description: Option<seq<string>>,
                       reviews: Option<seq<string>>, images: Option<seq<Val>>)

  /** `list || []`. */
  function OrEmpty<T>(l: Option<seq<T>>): seq<T>
  {
    if l.Some? then l.value else []
  }

  /** One entry, normalised, unless that leaves "". */
  function Keep1(v: string): seq<string>
  {
    var n := NormalizeString(Some(v));
    if n != "" then [n] else []
  }

  /** The non-empty normalised entries of `vs`, in order. */
  function Kept(vs: seq<string>): (r: seq<string>)
    ensures |r| <= |vs|
  {
    if vs == [] then [] else Kept(vs[..|vs| - 1]) + Keep1(vs[|vs| - 1])
  }

  predicate AllNormal(ss: seq<string>)
  {
    forall i :: 0 <= i < |ss| ==> ss[i] != "" && IsNormal(ss[i])
  }

  lemma NormalAppend(a: seq<string>, b: seq<string>)
    requires AllNormal(a) && AllNormal(b)
    ensures AllNormal(a + b)
  {
    forall i | 0 <= i < |a + b| ensures (a + b)[i] != "" && IsNormal((a + b)[i]) {
      if i >= |a| { assert (a + b)[i] == b[i - |a|]; }
    }
  }

  /** Every kept entry is a non-empty normalised string. */
  lemma {:induction false} KeptNormal(vs: seq<string>)
    ensures AllNormal(Kept(vs))
  {
    if vs != [] {
      KeptNormal(vs[..|vs| - 1]);
      NormalizeWords(vs[|vs| - 1]);
      NormalAppend(Kept(vs[..|vs| - 1]), Keep1(vs[|vs| - 1]));
    }
  }

  /** Keeping entries of two lists one after the other keeps their order. */
  lemma {:induction false} KeptAppend(a: seq<string>, b: seq<string>)
    ensures Kept(a + b) == Kept(a) + Kept(b)
    decreases |b|
  {
    if b != [] {
      var n := |b| - 1;
      assert (a + b)[..|a + b| - 1] == a + b[..n];
      KeptAppend(a, b[..n]);
    } else {
      assert a + b == a;
    }
  }

  /** An entry is dropped exactly when it normalises to "". */
  lemma KeptOne(v: string)
    ensures Kept([v]) == (if NormalizeString(Some(v)) == "" then [] else [NormalizeString(Some(v))])
  {
    assert [v][..0] == [];
    assert Kept([v]) == Kept([]) + Keep1(v);
  }

  /** What `processSentences` builds. */
  function Sentences(info: Info): seq<string>
  {
    [NormalizeString(info.title), NormalizeString(info.vendor), NormalizeString(info.price)]
    + Kept(OrEmpty(info.features)) + Kept(OrEmpty(info.description)) + Kept(OrEmpty(info.reviews))
  }

  /**
   * The list always starts with the normalised title, vendor and price,
   * even when empty, and missing lists add nothing to them.
   */
  lemma SentencesHead(info: Info)
    ensures var r := Sentences(info);
      |r| >= 3 && r[0] == NormalizeString(info.title) && r[1] == NormalizeString(info.vendor)
      && r[2] == NormalizeString(info.price)
      && (info.features.None? && info.description.None? && info.reviews.None? ==> |r| == 3)
  {
    var k1, k2, k3 := Kept(OrEmpty(info.features)), Kept(OrEmpty(info.description)), Kept(OrEmpty(info.reviews));
    HeadOf(NormalizeString(info.title), NormalizeString(info.vendor), NormalizeString(info.price), k1, k2, k3);
  }

  lemma HeadOf(a: string, b: string, c: string, k1: seq<string>, k2: seq<string>, k3: seq<string>)
    ensures var r := [a, b, c] + k1 + k2 + k3;
      |r| >= 3 && r[0] == a && r[1] == b && r[2] == c && (k1 == [] && k2 == [] && k3 == [] ==> |r| == 3)
  {
  }

  /** Every entry after the first three is a non-empty normalised string. */
  lemma SentencesNormal(info: Info)
    ensures var r := Sentences(info);
      forall i :: 3 <= i < |r| ==> r[i] != "" && IsNormal(r[i])
  {
    var head := [NormalizeString(info.title), NormalizeString(info.vendor), NormalizeString(info.price)];
    var k1, k2, k3 := Kept(OrEmpty(info.features)), Kept(OrEmpty(info.description)), Kept(OrEmpty(info.reviews));
    KeptNormal(OrEmpty(info.features));
    KeptNormal(OrEmpty(info.description));
    KeptNormal(OrEmpty(info.reviews));
    NormalAppend(k1, k2);
    NormalAppend(k1 + k2, k3);
    Associative(head + k1, k2, k3);
    Associative(head, k1, k2);
    Associative(head, k1 + k2, k3);
    TailNormal(head, k1 + k2 + k3);
  }

  /** Regrouping of appended entry lists, kept apart so that the lists stay opaque. */
  lemma Associative(a: seq<string>, b: seq<string>, c: seq<string>)
    ensures a + b + c == a + (b + c)
  {
  }

  lemma TailNormal(head: seq<string>, rest: seq<string>)
    requires AllNormal(rest)
    ensures forall i :: |head| <= i < |head + rest| ==> (head + rest)[i] != "" && IsNormal((head + rest)[i])
  {
    forall i | |head| <= i < |head + rest| ensures (head + rest)[i] != "" && IsNormal((head + rest)[i]) {
      assert (head + rest)[i] == rest[i - |head|];
    }
  }

  /** Appends the non-empty normalised entries of `vs` to `acc`. */
  method PushKept(acc: seq<string>, vs: seq<string>) returns (r: seq<string>)
    ensures r == acc + Kept(vs)
  {
    r := acc;
    for i := 0 to |vs|
      invariant r == acc + Kept(vs[..i])
    {
      var v := NormalizeString(Some(vs[i]));
      assert vs[..i + 1][..i] == vs[..i];
      assert Kept(vs[..i + 1]) == Kept(vs[..i]) + Keep1(vs[i]);
      assert acc + Kept(vs[..i]) + Keep1(vs[i]) == acc + (Kept(vs[..i]) + Keep1(vs[i]));
      if v != "" {
        r := r + [v];
      }
    }
    assert vs[..|vs|] == vs;
  }

  /** `processSentences(info)`. */
  method ProcessSentences(info: Info) returns (sentences: seq<string>)
    ensures sentences == Sentences(info)
  {
    sentences := [NormalizeString(info.title), NormalizeString(info.vendor), NormalizeString(info.price)];
    sentences := PushKept(sentences, OrEmpty(info.features));
    sentences := PushKept(sentences, OrEmpty(info.description));
    sentences := PushKept(sentences, OrEmpty(info.reviews));
  }

  /** The truthy entries of `vs`, in order. */
  ghost function Truthies(vs: seq<Val>): (r: seq<Val>)
    ensures |r| <= |vs|
  {
    if vs == [] then []
    else Truthies(vs[..|vs| - 1]) + (if Truthy(vs[|vs| - 1]) then [vs[|vs| - 1]] else [])
  }

  /** Only truthy entries are kept, and every truthy entry is. */
  lemma {:induction false} TruthiesKeep(vs: seq<Val>)
    ensures forall i :: 0 <= i < |Truthies(vs)| ==> Truthy(Truthies(vs)[i])
    ensures |Truthies(vs)| == |TruthyIndices(vs)|
  {
    if vs != [] {
      var n := |vs| - 1;
      TruthiesKeep(vs[..n]);
      TruthyIndicesSnoc(vs);
    }
  }

  /** The indices of truthy entries in `vs`. */
  ghost function TruthyIndices(vs: seq<Val>): set<int>
  {
    set i | 0 <= i < |vs| && Truthy(vs[i])
  }

  lemma TruthyIndicesSnoc(vs: seq<Val>)
    requires vs != []
    ensures var n := |vs| - 1;
      |TruthyIndices(vs)| == |TruthyIndices(vs[..n])| + (if Truthy(vs[n]) then 1 else 0)
  {
    var n := |vs| - 1;
    var before := TruthyIndices(vs[..n]);
    var all := TruthyIndices(vs);
    assert all == before + (if Truthy(vs[n]) then {n} else {}) by {
      forall i | i in all ensures i in before + (if Truthy(vs[n]) then {n} else {}) {
        if i < n { assert vs[..n][i] == vs[i]; }
      }
      forall i | i in before ensures i in all {
        assert vs[..n][i] == vs[i];
      }
    }
    assert n !in before;
  }

  /** `processImages(info)`: the truthy images in their order; none when the list is missing. */
  method ProcessImages(info: Info) returns (images: seq<Val>)
    ensures images == Truthies(OrEmpty(info.images))
  {
    var vs := OrEmpty(info.images);
    images := [];
    for i := 0 to |vs|
      invariant images == Truthies(vs[..i])
    {
      assert vs[..i + 1][..i] == vs[..i];
      if Truthy(vs[i]) {
        images := images + [vs[i]];
      }
    }
    assert vs[..|vs|] == vs;
  }
}
