/**
 * JavaScript string primitives the engine relies on: the whitespace class
 * shared by `String.prototype.trim` and the regular-expression escape `\s`,
 * `trim`, ASCII `toUpperCase`, `join`, and `split` on a separator that can
 * never match the empty string (a literal, a character class, `\s+`).
 */
module Strings {

  /** The characters JavaScript counts as white space (`\s` and `trim`). */
  predicate IsSpace(c: char)
  {
    c == '\t' || c == '\n' || c == '\U{000B}' || c == '\U{000C}' || c == '\r' || c == ' '
    || c == '\U{00A0}' || c == '\U{1680}' || ('\U{2000}' <= c <= '\U{200A}')
    || c == '\U{2028}' || c == '\U{2029}' || c == '\U{202F}' || c == '\U{205F}'
    || c == '\U{3000}' || c == '\U{FEFF}'
  }

  predicate Spaceless(s: string)
  {
    forall i :: 0 <= i < |s| ==> !IsSpace(s[i])
  }

  /** Length of the run of white space that starts `t`. */
  function SpaceRun(t: string): (n: nat)
    ensures n <= |t|
    ensures forall i :: 0 <= i < n ==> IsSpace(t[i])
    ensures n < |t| ==> !IsSpace(t[n])
  {
    if t != [] && IsSpace(t[0]) then 1 + SpaceRun(t[1..]) else 0
  }

  /** `trim()`, first half: drop leading white space. */
  function TrimStart(s: string): (r: string)
    ensures |r| <= |s| && r == s[|s| - |r|..]
    ensures r == [] || !IsSpace(r[0])
    ensures forall i :: 0 <= i < |s| - |r| ==> IsSpace(s[i])
  {
    if s != [] && IsSpace(s[0]) then TrimStart(s[1..]) else s
  }

  /** `trim()`, second half: drop trailing white space. */
  function TrimEnd(s: string): (r: string)
    ensures |r| <= |s| && r == s[..|r|]
    ensures r == [] || !IsSpace(r[|r| - 1])
    ensures forall i :: |r| <= i < |s| ==> IsSpace(s[i])
  {
    if s != [] && IsSpace(s[|s| - 1]) then TrimEnd(s[..|s| - 1]) else s
  }

  /** `String.prototype.trim`. */
  function Trim(s: string): (r: string)
    ensures r == [] || (!IsSpace(r[0]) && !IsSpace(r[|r| - 1]))
  {
    TrimEnd(TrimStart(s))
  }

  /** Upper-casing of one character (ASCII letters only). */
  function UpperChar(c: char): (u: char)
    ensures IsSpace(u) <==> IsSpace(c)
  {
    if 'a' <= c <= 'z' then (c as int - 32) as char else c
  }

  /** `toUpperCase`, restricted to ASCII letters. */
  function Upper(s: string): (r: string)
    ensures |r| == |s|
    ensures forall i :: 0 <= i < |s| ==> r[i] == UpperChar(s[i])
  {
    if s == [] then [] else [UpperChar(s[0])] + Upper(s[1..])
  }

  /** `Array.prototype.join(sep)` on strings. */
  function Join(parts: seq<string>, sep: string): string
  {
    if |parts| == 0 then ""
    else if |parts| == 1 then parts[0]
    else parts[0] + sep + Join(parts[1..], sep)
  }

  /**
   * The separator patterns the engine splits on: a literal string, a
   * one-character class such as `/[.,]/`, the run `/\s+/`, and the sentence
   * break `/[.;]\s/`.
   */
  datatype Pattern = Literal(lit: string) | OneOf(cls: set<char>) | SpaceRuns | SentenceBreak

  /** Length of the match of `p` at the start of `t`; 0 when it does not match. */
  function MatchLen(p: Pattern, t: string): (n: nat)
    ensures n <= |t|
  {
    match p
    case Literal(lit) => if |lit| > 0 && lit <= t then |lit| else 0
    case OneOf(cls) => if |t| > 0 && t[0] in cls then 1 else 0
    case SpaceRuns => SpaceRun(t)
    case SentenceBreak => if |t| >= 2 && (t[0] == '.' || t[0] == ';') && IsSpace(t[1]) then 2 else 0
  }

  predicate MatchAt(s: string, j: nat, p: Pattern)
    requires j <= |s|
  {
    MatchLen(p, s[j..]) > 0
  }

  /** Leftmost position at or after `from` where `p` matches, else |s|. */
  function FirstMatch(s: string, p: Pattern, from: nat): (i: nat)
    requires from <= |s|
    ensures from <= i <= |s|
    ensures i < |s| ==> MatchAt(s, i, p)
    ensures forall j :: from <= j < i ==> !MatchAt(s, j, p)
    decreases |s| - from
  {
    if from == |s| || MatchAt(s, from, p) then from else FirstMatch(s, p, from + 1)
  }

  /**
   * `String.prototype.split` with a pattern that never matches the empty
   * string: the pieces between successive leftmost matches.
   */
  function SplitAt(s: string, p: Pattern): (r: seq<string>)
    ensures |r| >= 1
    decreases |s|
  {
    var i := FirstMatch(s, p, 0);
    if i == |s| then [s] else [s[..i]] + SplitAt(s[i + MatchLen(p, s[i..])..], p)
  }

  /** `s.split(sep)` for a string separator; an empty one splits into characters. */
  function SplitOn(s: string, sep: string): seq<string>
  {
    if sep == "" then seq(|s|, i requires 0 <= i < |s| => [s[i]])
    else SplitAt(s, Literal(sep))
  }

  /** `s.split(/\s+/)`. */
  function SplitSpaces(s: string): seq<string>
  {
    SplitAt(s, SpaceRuns)
  }

  // ---------------------------------------------------------------------
  // Properties of split and join
  // ---------------------------------------------------------------------

  lemma JoinCons(a: string, tail: seq<string>, sep: string)
    requires |tail| >= 1
    ensures Join([a] + tail, sep) == a + sep + Join(tail, sep)
  {
    assert ([a] + tail)[1..] == tail;
  }

  /** Splitting on a non-empty literal and joining back gives the input. */
  lemma {:induction false} SplitOnJoin(s: string, sep: string)
    requires sep != ""
    ensures Join(SplitOn(s, sep), sep) == s
    decreases |s|
  {
    var i := FirstMatch(s, Literal(sep), 0);
    if i < |s| {
      assert sep <= s[i..];
      var rest := s[i + |sep|..];
      SplitOnJoin(rest, sep);
      JoinCons(s[..i], SplitOn(rest, sep), sep);
      assert s == s[..i] + s[i..i + |sep|] + rest;
    }
  }

  /** No piece of `s.split(/\s+/)` contains white space. */
  lemma {:induction false} SplitSpacesSpaceless(s: string)
    ensures forall k :: 0 <= k < |SplitSpaces(s)| ==> Spaceless(SplitSpaces(s)[k])
    decreases |s|
  {
    var i := FirstMatch(s, SpaceRuns, 0);
    var head := s[..i];
    forall j | 0 <= j < i
      ensures !IsSpace(head[j])
    {
      assert !MatchAt(s, j, SpaceRuns);
      assert SpaceRun(s[j..]) == 0;
    }
    if i < |s| {
      var rest := s[i + SpaceRun(s[i..])..];
      SplitSpacesSpaceless(rest);
      assert SplitSpaces(s) == [head] + SplitSpaces(rest);
    }
  }

  /** `s.split(/\s+/)` on text with no white space gives the text itself. */
  lemma SplitSpacesWord(s: string)
    requires Spaceless(s)
    ensures SplitSpaces(s) == [s]
  {
  }

  /** A list of non-empty pieces without white space: the words of a text. */
  predicate WordList(ps: seq<string>)
  {
    forall k :: 0 <= k < |ps| ==> ps[k] != "" && Spaceless(ps[k])
  }

  lemma JoinHead(ps: seq<string>, sep: string)
    requires |ps| >= 1
    ensures ps[0] <= Join(ps, sep)
  {
  }

  /** Joining words with single spaces and splitting on `/\s+/` gives the words back. */
  lemma {:induction false} SplitSpacesJoin(ps: seq<string>)
    requires |ps| >= 1 && WordList(ps)
    ensures SplitSpaces(Join(ps, " ")) == ps
    decreases |ps|
  {
    var s := Join(ps, " ");
    if |ps| == 1 {
      forall j | 0 <= j < |s|
        ensures !MatchAt(s, j, SpaceRuns)
      {
        assert s[j..][0] == s[j];
      }
    } else {
      var rest := Join(ps[1..], " ");
      JoinHead(ps[1..], " ");
      assert s == ps[0] + " " + rest;
      var n := |ps[0]|;
      assert MatchAt(s, n, SpaceRuns) by {
        assert s[n..][0] == ' ';
      }
      forall j | 0 <= j < n
        ensures !MatchAt(s, j, SpaceRuns)
      {
        assert s[j..][0] == ps[0][j];
      }
      assert FirstMatch(s, SpaceRuns, 0) == n;
      assert s[n..] == " " + rest;
      assert rest[0] == ps[1][0];
      assert SpaceRun(s[n..]) == 1 by {
        assert s[n..][1..] == rest;
      }
      assert s[n + 1..] == rest;
      assert s[..n] == ps[0];
      assert MatchLen(SpaceRuns, s[n..]) == 1;
      SplitSpacesJoin(ps[1..]);
      assert SplitSpaces(s) == [ps[0]] + SplitSpaces(rest);
    }
  }

  /** Joining words with single spaces and splitting on " " gives the words back. */
  lemma {:induction false} SplitOnSpaceJoin(ps: seq<string>)
    requires |ps| >= 1 && WordList(ps)
    ensures SplitOn(Join(ps, " "), " ") == ps
    decreases |ps|
  {
    var s := Join(ps, " ");
    if |ps| == 1 {
      forall j | 0 <= j < |s|
        ensures !MatchAt(s, j, Literal(" "))
      {
        assert s[j..][0] == s[j];
      }
    } else {
      var rest := Join(ps[1..], " ");
      assert s == ps[0] + " " + rest;
      var n := |ps[0]|;
      assert MatchAt(s, n, Literal(" ")) by {
        assert s[n..][0] == ' ';
      }
      forall j | 0 <= j < n
        ensures !MatchAt(s, j, Literal(" "))
      {
        assert s[j..][0] == ps[0][j];
      }
      assert FirstMatch(s, Literal(" "), 0) == n;
      assert s[n + 1..] == rest;
      assert s[..n] == ps[0];
      assert MatchLen(Literal(" "), s[n..]) == 1;
      SplitOnSpaceJoin(ps[1..]);
      assert SplitOn(s, " ") == [ps[0]] + SplitOn(rest, " ");
    }
  }

  /** If `s` neither starts nor ends with white space, no piece of its `/\s+/` split is empty. */
  lemma {:induction false} SplitSpacesTrimmed(s: string)
    requires s != [] && !IsSpace(s[0]) && !IsSpace(s[|s| - 1])
    ensures WordList(SplitSpaces(s))
    decreases |s|
  {
    SplitSpacesSpaceless(s);
    var i := FirstMatch(s, SpaceRuns, 0);
    assert i > 0 by {
      assert s[0..][0] == s[0];
    }
    if i < |s| {
      var k := SpaceRun(s[i..]);
      var rest := s[i + k..];
      assert rest[0] == s[i..][k];
      assert rest[|rest| - 1] == s[|s| - 1];
      SplitSpacesTrimmed(rest);
      assert SplitSpaces(s) == [s[..i]] + SplitSpaces(rest);
    }
  }

  lemma UpperAppend(a: string, b: string)
    ensures Upper(a + b) == Upper(a) + Upper(b)
  {
  }

  /** Upper-casing distributes over a join with single spaces. */
  lemma {:induction false} UpperJoin(ps: seq<string>)
    ensures Upper(Join(ps, " ")) == Join(seq(|ps|, k requires 0 <= k < |ps| => Upper(ps[k])), " ")
    decreases |ps|
  {
    var us := seq(|ps|, k requires 0 <= k < |ps| => Upper(ps[k]));
    if |ps| >= 2 {
      var rest := ps[1..];
      var tail := Join(rest, " ");
      UpperJoin(rest);
      assert us[1..] == seq(|rest|, k requires 0 <= k < |rest| => Upper(rest[k]));
      assert Join(ps, " ") == (ps[0] + " ") + tail;
      UpperAppend(ps[0] + " ", tail);
      UpperAppend(ps[0], " ");
      assert Upper(" ") == " ";
      assert Join(us, " ") == (us[0] + " ") + Join(us[1..], " ");
    }
  }
}
