/**
 * Text preparation shared by every generation of the engine:
 * `normalizeString`, `splitWords` and `splitSentences`.
 */
module Text {
  import opened Wrappers
  import opened Strings

  /**
   * `normalizeString`: undefined becomes "", anything else is trimmed, each
   * inner run of white space becomes one space, and the result is
   * upper-cased. Replacing every match of `/\s+/` by " " is joining the
   * pieces of the split on `/\s+/` with " ".
   */
  function NormalizeString(s: Option<string>): string
  {
    match s
    case None => ""
    case Some(v) => Upper(Join(SplitSpaces(Trim(v)), " "))
  }

  /** `splitWords`: `text.split(/\s+/)`. */
  function SplitWords(text: string): seq<string>
  {
    SplitSpaces(text)
  }

  /** Normalised text: upper case, and single spaces between non-empty words. */
  predicate IsNormal(t: string)
  {
    Upper(t) == t
    && (t == "" || (WordList(SplitWords(t)) && Join(SplitWords(t), " ") == t))
  }

  function UpperAll(ps: seq<string>): seq<string>
  {
    seq(|ps|, k requires 0 <= k < |ps| => Upper(ps[k]))
  }

  lemma UpperTwice(t: string)
    ensures Upper(Upper(t)) == Upper(t)
  {
  }

  /**
   * The words of a normalised string are the upper-cased words of the
   * trimmed input, and the result is normal.
   */
  lemma NormalizeWords(v: string)
    ensures var r := NormalizeString(Some(v));
      IsNormal(r)
      && (Trim(v) == "" <==> r == "")
      && (Trim(v) != "" ==> SplitWords(r) == UpperAll(SplitWords(Trim(v))))
  {
    var t := Trim(v);
    var ps := SplitSpaces(t);
    var r := NormalizeString(Some(v));
    UpperJoin(ps);
    assert r == Join(UpperAll(ps), " ");
    UpperTwice(Join(ps, " "));
    if t == "" {
      assert ps == [""];
    } else {
      SplitSpacesTrimmed(t);
      var us := UpperAll(ps);
      assert WordList(us);
      SplitSpacesJoin(us);
      JoinHead(us, " ");
      assert r != "" by {
        assert us[0] != "";
      }
    }
  }

  /** Normalising is idempotent. */
  lemma NormalizeIdempotent(v: string)
    ensures NormalizeString(Some(NormalizeString(Some(v)))) == NormalizeString(Some(v))
  {
    NormalizeWords(v);
    NormalizeFixesNormal(NormalizeString(Some(v)));
  }

  /** A normal string is its own normalisation. */
  lemma NormalizeFixesNormal(t: string)
    requires IsNormal(t)
    ensures NormalizeString(Some(t)) == t
  {
    if t != "" {
      var ps := SplitWords(t);
      JoinHead(ps, " ");
      assert t[0] == ps[0][0];
      JoinLast(ps, " ");
      assert t[|t| - 1] == ps[|ps| - 1][|ps[|ps| - 1]| - 1];
      assert Trim(t) == t;
    }
  }

  lemma {:induction false} JoinLast(ps: seq<string>, sep: string)
    requires |ps| >= 1
    ensures |ps[|ps| - 1]| <= |Join(ps, sep)|
    ensures Join(ps, sep)[|Join(ps, sep)| - |ps[|ps| - 1]|..] == ps[|ps| - 1]
    decreases |ps|
  {
    if |ps| >= 2 {
      JoinLast(ps[1..], sep);
    }
  }

  /**
   * The words of non-empty normalised text are non-empty, join back to the
   * text, and are exactly what a split on a single space gives.
   */
  lemma NormalWords(t: string)
    requires IsNormal(t) && t != ""
    ensures WordList(SplitWords(t))
    ensures Join(SplitWords(t), " ") == t
    ensures SplitOn(t, " ") == SplitWords(t)
  {
    SplitOnSpaceJoin(SplitWords(t));
  }

  // -----------------------------------------------------------------------
  // Sentences
  // -----------------------------------------------------------------------

  /**
   * `text.replace(/([!?]|\.\.\.)\s+/g, "$1. ")`: an exclamation mark, a
   * question mark or an ellipsis followed by white space keeps the mark and
   * has the white space replaced by ". ".
   */
  function MarkEnders(s: string): string
    decreases |s|
  {
    if s == [] then []
    else if (s[0] == '!' || s[0] == '?') && SpaceRun(s[1..]) > 0 then
      [s[0]] + ". " + MarkEnders(s[1 + SpaceRun(s[1..])..])
    else if |s| >= 3 && s[..3] == "..." && SpaceRun(s[3..]) > 0 then
      "...." + " " + MarkEnders(s[3 + SpaceRun(s[3..])..])
    else [s[0]] + MarkEnders(s[1..])
  }

  /** `splitSentences`: mark the enders, then split on `/[.;]\s/`. */
  function SplitSentences(text: string): (r: seq<string>)
    ensures |r| >= 1
  {
    SplitAt(MarkEnders(text), SentenceBreak)
  }

  /** "." or ";" followed by a white-space character. */
  predicate BreakAt(p: string, j: int)
  {
    0 <= j && j + 1 < |p| && (p[j] == '.' || p[j] == ';') && IsSpace(p[j + 1])
  }

  /** Text free of every character that can end or break a sentence. */
  predicate Plain(p: string)
  {
    forall j :: 0 <= j < |p| ==> p[j] !in {'.', ';', '!', '?'}
  }

  /** No sentence contains "." or ";" followed by white space. */
  lemma {:induction false} SentencesHaveNoBreak(text: string)
    ensures forall k, j :: 0 <= k < |SplitSentences(text)| ==> !BreakAt(SplitSentences(text)[k], j)
  {
    PiecesHaveNoBreak(MarkEnders(text));
  }

  lemma {:induction false} PiecesHaveNoBreak(s: string)
    ensures forall k, j :: 0 <= k < |SplitAt(s, SentenceBreak)| ==> !BreakAt(SplitAt(s, SentenceBreak)[k], j)
    decreases |s|
  {
    var i := FirstMatch(s, SentenceBreak, 0);
    var head := s[..i];
    forall j | 0 <= j && j + 1 < |head|
      ensures !BreakAt(head, j)
    {
      assert head[j] == s[j] && head[j + 1] == s[j + 1];
      assert s[j..][0] == s[j] && s[j..][1] == s[j + 1];
      assert !MatchAt(s, j, SentenceBreak);
    }
    var r := SplitAt(s, SentenceBreak);
    if i < |s| {
      var rest := s[i + MatchLen(SentenceBreak, s[i..])..];
      PiecesHaveNoBreak(rest);
      assert r == [head] + SplitAt(rest, SentenceBreak);
      forall k, j | 0 <= k < |r|
        ensures !BreakAt(r[k], j)
      {
        if k > 0 {
          assert r[k] == SplitAt(rest, SentenceBreak)[k - 1];
        }
      }
    } else {
      assert head == s;
    }
  }

  lemma {:induction false} MarkEndersPlain(p: string, x: string)
    requires Plain(p)
    ensures MarkEnders(p + x) == p + MarkEnders(x)
    decreases |p|
  {
    if p != [] {
      var s := p + x;
      assert s[1..] == p[1..] + x;
      assert s[0] == p[0];
      assert !(|s| >= 3 && s[..3] == "...") by {
        if |s| >= 3 {
          assert s[..3][0] == p[0];
        }
      }
      assert MarkEnders(s) == [p[0]] + MarkEnders(p[1..] + x);
      MarkEndersPlain(p[1..], x);
      calc {
        MarkEnders(p + x);
        [p[0]] + (p[1..] + MarkEnders(x));
        ([p[0]] + p[1..]) + MarkEnders(x);
        { assert [p[0]] + p[1..] == p; }
        p + MarkEnders(x);
      }
    } else {
      assert p + x == x;
    }
  }

  lemma {:induction false} SplitBreakPlain(p: string, c: char, w: char, x: string)
    requires Plain(p) && (c == '.' || c == ';') && IsSpace(w)
    ensures SplitAt(p + [c, w] + x, SentenceBreak) == [p] + SplitAt(x, SentenceBreak)
  {
    var s := p + [c, w] + x;
    forall j | 0 <= j < |p|
      ensures !MatchAt(s, j, SentenceBreak)
    {
      assert s[j..][0] == p[j];
    }
    assert s[|p|..][0] == c && s[|p|..][1] == w;
    assert MatchAt(s, |p|, SentenceBreak);
    assert FirstMatch(s, SentenceBreak, 0) == |p|;
    assert s[..|p|] == p;
    assert s[|p| + 2..] == x;
  }

  /** A character that starts neither a "!"/"?" mark nor an ellipsis is copied as it is. */
  lemma MarkOrdinary(x: char, y: string)
    requires x != '!' && x != '?' && (x != '.' || y == [] || y[0] != '.')
    ensures MarkEnders([x] + y) == [x] + MarkEnders(y)
  {
    var s := [x] + y;
    assert s[0] == x && s[1..] == y;
    if |s| >= 3 {
      assert s[..3][0] == x && s[..3][1] == y[0];
    }
  }

  /** A "." or ";" followed by white space ends a sentence and is dropped. */
  lemma BreakEndsSentence(p: string, c: char, w: char, q: string)
    requires Plain(p) && (c == '.' || c == ';') && IsSpace(w)
    ensures SplitSentences(p + [c, w] + q) == [p] + SplitSentences(q)
  {
    assert w != '.' && w != '!' && w != '?';
    MarkAfterPlain(p, c, w, q);
    assert p + [c, w] + q == p + ([c] + ([w] + q));
    assert p + ([c] + ([w] + MarkEnders(q))) == p + [c, w] + MarkEnders(q);
    SplitBreakPlain(p, c, w, MarkEnders(q));
  }

  lemma MarkAfterPlain(p: string, c: char, w: char, q: string)
    requires Plain(p) && (c == '.' || c == ';') && w != '.' && w != '!' && w != '?'
    ensures MarkEnders(p + ([c] + ([w] + q))) == p + ([c] + ([w] + MarkEnders(q)))
  {
    MarkEndersPlain(p, [c] + ([w] + q));
    MarkBreak(c, w, q);
  }

  /** Marking leaves a "." or ";" followed by white space as it is. */
  lemma MarkBreak(c: char, w: char, q: string)
    requires (c == '.' || c == ';') && w != '.' && w != '!' && w != '?'
    ensures MarkEnders([c] + ([w] + q)) == [c] + ([w] + MarkEnders(q))
  {
    MarkOrdinary(w, q);
    MarkOrdinary(c, [w] + q);
  }

  /**
   * "!" or "?" followed by white space ends a sentence and is kept at its
   * end; the white space is dropped.
   */
  lemma EnderEndsSentence(p: string, c: char, ws: string, q: string)
    requires Plain(p) && (c == '!' || c == '?')
    requires ws != [] && (forall j :: 0 <= j < |ws| ==> IsSpace(ws[j]))
    requires q == [] || !IsSpace(q[0])
    ensures SplitSentences(p + [c] + ws + q) == [p + [c]] + SplitSentences(q)
  {
    SpaceRunPrefix(ws, q);
    MarkEnderAfterPlain(p, c, ws + q, |ws|);
    assert (ws + q)[|ws|..] == q;
    assert p + [c] + ws + q == p + ([c] + (ws + q));
    assert p + ([c] + ". " + MarkEnders(q)) == (p + [c]) + ['.', ' '] + MarkEnders(q);
    SplitEnderPlain(p, c, MarkEnders(q));
  }

  lemma MarkEnderAfterPlain(p: string, c: char, r: string, n: nat)
    requires Plain(p) && (c == '!' || c == '?') && 0 < n == SpaceRun(r)
    ensures MarkEnders(p + ([c] + r)) == p + ([c] + ". " + MarkEnders(r[n..]))
  {
    MarkEndersPlain(p, [c] + r);
    MarkEnderRun(c, r, n);
  }

  /** "!" or "?" followed by a run of `n` white-space characters. */
  lemma MarkEnderRun(c: char, r: string, n: nat)
    requires (c == '!' || c == '?') && 0 < n == SpaceRun(r)
    ensures MarkEnders([c] + r) == [c] + ". " + MarkEnders(r[n..])
  {
    var t := [c] + r;
    assert t[0] == c && t[1..] == r;
  }

  lemma SplitEnderPlain(p: string, c: char, x: string)
    requires Plain(p) && (c == '!' || c == '?')
    ensures SplitAt((p + [c]) + ['.', ' '] + x, SentenceBreak) == [p + [c]] + SplitAt(x, SentenceBreak)
  {
    var s := (p + [c]) + ['.', ' '] + x;
    var n := |p| + 1;
    forall j | 0 <= j < n
      ensures !MatchAt(s, j, SentenceBreak)
    {
      assert s[j..][0] == s[j];
    }
    assert s[n..][0] == '.' && s[n..][1] == ' ';
    assert MatchAt(s, n, SentenceBreak);
    assert FirstMatch(s, SentenceBreak, 0) == n;
    assert s[..n] == p + [c];
    assert s[n + 2..] == x;
  }

  lemma {:induction false} SpaceRunPrefix(ws: string, q: string)
    requires forall j :: 0 <= j < |ws| ==> IsSpace(ws[j])
    requires q == [] || !IsSpace(q[0])
    ensures SpaceRun(ws + q) == |ws|
    decreases |ws|
  {
    if ws == [] {
      assert ws + q == q;
    } else {
      assert (ws + q)[1..] == ws[1..] + q;
      SpaceRunPrefix(ws[1..], q);
    }
  }

  /** An ellipsis followed by a run of `n` white-space characters. */
  lemma MarkEllipsisRun(r: string, n: nat)
    requires 0 < n == SpaceRun(r)
    ensures MarkEnders("..." + r) == "...." + " " + MarkEnders(r[n..])
  {
    var t := "..." + r;
    assert t[..3] == "...";
    assert t[3..] == r;
  }

  lemma SplitEllipsisPlain(p: string, x: string)
    requires Plain(p)
    ensures SplitAt(p + "...." + " " + x, SentenceBreak) == [p + "..."] + SplitAt(x, SentenceBreak)
  {
    var s := p + "...." + " " + x;
    var n := |p| + 3;
    forall j | 0 <= j < n
      ensures !MatchAt(s, j, SentenceBreak)
    {
      assert s[j..][0] == s[j] && s[j..][1] == s[j + 1];
    }
    assert s[n..][0] == '.' && s[n..][1] == ' ';
    assert MatchAt(s, n, SentenceBreak);
    assert FirstMatch(s, SentenceBreak, 0) == n;
    assert s[..n] == p + "...";
    assert s[n + 2..] == x;
  }

  /** An ellipsis followed by white space ends a sentence and is kept at its end. */
  lemma EllipsisEndsSentence(p: string, ws: string, q: string)
    requires Plain(p)
    requires ws != [] && (forall j :: 0 <= j < |ws| ==> IsSpace(ws[j]))
    requires q == [] || !IsSpace(q[0])
    ensures SplitSentences(p + "..." + ws + q) == [p + "..."] + SplitSentences(q)
  {
    SpaceRunPrefix(ws, q);
    MarkEllipsisAfterPlain(p, ws + q, |ws|);
    assert (ws + q)[|ws|..] == q;
    assert p + "..." + ws + q == p + ("..." + (ws + q));
    SplitEllipsisPlain(p, MarkEnders(q));
  }

  lemma MarkEllipsisAfterPlain(p: string, r: string, n: nat)
    requires Plain(p) && 0 < n == SpaceRun(r)
    ensures MarkEnders(p + ("..." + r)) == p + "...." + " " + MarkEnders(r[n..])
  {
    MarkEndersPlain(p, "..." + r);
    MarkEllipsisRun(r, n);
    assert p + ("...." + " " + MarkEnders(r[n..])) == p + "...." + " " + MarkEnders(r[n..]);
  }
}
