/**
 * The server's list of input names: every field of every template, in
 * declaration order, named by its `inputId` when it has one and by its key
 * otherwise, image and static fields left out, each name once.
 */
module FieldNames {
  import opened JsValues

  /** `field.type == 'image' || field.type == 'static'`: fields that read no input. */
  predicate Skipped(f: FieldEntry)
  {
    var t := Get(f.props, "type");
    t == Str("image") || t == Str("static")
  }

  /** `field.inputId` when truthy, else the field's key. */
  function NameOf(f: FieldEntry): string
  {
    var inputId := Get(f.props, "inputId");
    if Truthy(inputId) && inputId.Str? then inputId.s else f.id
  }

  /** The names the fields give, in order, repetitions included. */
  function FieldsNames(fs: seq<FieldEntry>): seq<string>
  {
    if fs == [] then []
    else
      var f := fs[|fs| - 1];
      FieldsNames(fs[..|fs| - 1]) + (if Skipped(f) then [] else [NameOf(f)])
  }

  /** The names all templates give, templates in order. */
  function Candidates(ts: seq<Template>): seq<string>
  {
    if ts == [] then [] else Candidates(ts[..|ts| - 1]) + FieldsNames(ts[|ts| - 1].fields)
  }

  /**
   * The keys of an object that was assigned the names `c` in order:
   * each name once, where it was first assigned.
   */
  function Dedupe(c: seq<string>): seq<string>
  {
    if c == [] then []
    else
      var d := Dedupe(c[..|c| - 1]);
      if c[|c| - 1] in d then d else d + [c[|c| - 1]]
  }

  /** `Object.keys(fieldNames)` once the loops are done. */
  function Merged(ts: seq<Template>): seq<string>
  {
    Dedupe(Candidates(ts))
  }

  /**
   * A plain JavaScript object used as a dictionary: its entries, and the
   * order in which its (non-integer) keys were first assigned, which is the
   * order `Object.keys` lists them in.
   */
  datatype Dict = Dict(entries: map<string, int>, order: seq<string>)

  /** The order lists exactly the keys present. */
  predicate Valid(o: Dict)
  {
    o.entries.Keys == set k | k in o.order
  }

  /** `o[key] = v`: a new key goes to the end of the order, an old one stays put. */
  function Assign(o: Dict, key: string, v: int): (r: Dict)
    ensures r.entries == o.entries[key := v]
    ensures Valid(o) ==> Valid(r) && r.order == if key in o.order then o.order else o.order + [key]
  {
    Dict(o.entries[key := v], if key in o.entries then o.order else o.order + [key])
  }

  /**
   * The loops of the server module: `fieldNames` is the object being
   * filled; the result is `Object.keys(fieldNames)`.
   */
  method MergeFieldNames(templates: seq<Template>) returns (fields: seq<string>)
    ensures fields == Merged(templates)
  {
    var fieldNames := Dict(map[], []);
    for t := 0 to |templates|
      invariant Valid(fieldNames)
      invariant fieldNames.order == Dedupe(Candidates(templates[..t]))
    {
      var template := templates[t];
      ghost var before := Candidates(templates[..t]);
      assert before + FieldsNames(template.fields[..0]) == before;
      for i := 0 to |template.fields|
        invariant Valid(fieldNames)
        invariant fieldNames.order == Dedupe(before + FieldsNames(template.fields[..i]))
      {
        var field := template.fields[i];
        ghost var seen := before + FieldsNames(template.fields[..i]);
        NamesSnoc(before, template.fields, i);
        if Get(field.props, "type") == Str("image") || Get(field.props, "type") == Str("static") {
          continue;
        }
        var id := field.id;
        var inputId := Get(field.props, "inputId");
        if Truthy(inputId) && inputId.Str? {
          id := inputId.s;
        }
        assert id == NameOf(field);
        DedupeSnoc(seen, id);
        fieldNames := Assign(fieldNames, id, 1);
      }
      CandidatesSnoc(templates, t);
    }
    assert templates[..|templates|] == templates;
    fields := fieldNames.order;
  }

  /** The names after one more field. */
  lemma NamesSnoc(before: seq<string>, fs: seq<FieldEntry>, i: nat)
    requires i < |fs|
    ensures Skipped(fs[i]) ==> before + FieldsNames(fs[..i + 1]) == before + FieldsNames(fs[..i])
    ensures !Skipped(fs[i]) ==> before + FieldsNames(fs[..i + 1]) == (before + FieldsNames(fs[..i])) + [NameOf(fs[i])]
  {
    assert fs[..i + 1][..i] == fs[..i];
    if Skipped(fs[i]) {
      assert FieldsNames(fs[..i]) + [] == FieldsNames(fs[..i]);
    }
  }

  /** The names after one more template. */
  lemma CandidatesSnoc(ts: seq<Template>, t: nat)
    requires t < |ts|
    ensures Candidates(ts[..t]) + FieldsNames(ts[t].fields[..|ts[t].fields|]) == Candidates(ts[..t + 1])
  {
    assert ts[t].fields[..|ts[t].fields|] == ts[t].fields;
    assert ts[..t + 1][..t] == ts[..t];
  }

  lemma DedupeSnoc(c: seq<string>, x: string)
    ensures Dedupe(c + [x]) == if x in Dedupe(c) then Dedupe(c) else Dedupe(c) + [x]
  {
    assert (c + [x])[..|c|] == c;
  }

  // -----------------------------------------------------------------------
  // Properties
  // -----------------------------------------------------------------------

  /** The index at which `x` first occurs in `c`. */
  function FirstIndex(c: seq<string>, x: string): (i: nat)
    requires x in c
    ensures i < |c| && c[i] == x && x !in c[..i]
  {
    if c[0] == x then 0
    else
      assert c == [c[0]] + c[1..];
      1 + FirstIndex(c[1..], x)
  }

  lemma {:induction false} FirstIndexSnoc(c: seq<string>, y: string, x: string)
    requires x in c
    ensures FirstIndex(c + [y], x) == FirstIndex(c, x)
  {
    if c[0] != x {
      assert (c + [y])[1..] == c[1..] + [y];
      FirstIndexSnoc(c[1..], y, x);
    }
  }

  /**
   * The object's keys are exactly the names assigned, each once, in the
   * order of their first assignment.
   */
  lemma {:induction false} DedupeKeys(c: seq<string>)
    ensures var d := Dedupe(c);
      (forall x :: x in d <==> x in c)
      && (forall i, j :: 0 <= i < j < |d| ==> d[i] != d[j])
      && (forall i, j :: 0 <= i < j < |d| ==> FirstIndex(c, d[i]) < FirstIndex(c, d[j]))
  {
    if c != [] {
      var n := |c| - 1;
      var p := c[..n];
      var x := c[n];
      DedupeKeys(p);
      var d := Dedupe(p);
      assert c == p + [x];
      forall y | y in p {
        FirstIndexSnoc(p, x, y);
      }
      if x !in d {
        assert x !in p;
        assert FirstIndex(c, x) == n by {
          assert c[..n] == p;
        }
        forall i, j | 0 <= i < j < |d + [x]|
          ensures FirstIndex(c, (d + [x])[i]) < FirstIndex(c, (d + [x])[j])
        {
          if j == |d| {
            assert (d + [x])[i] == d[i] && d[i] in p;
          } else {
            assert (d + [x])[i] == d[i] && (d + [x])[j] == d[j];
          }
        }
      }
    }
  }

  lemma {:induction false} FieldsNamesMembers(fs: seq<FieldEntry>)
    ensures forall x :: x in FieldsNames(fs) <==>
      exists i :: 0 <= i < |fs| && !Skipped(fs[i]) && NameOf(fs[i]) == x
  {
    if fs != [] {
      var n := |fs| - 1;
      FieldsNamesMembers(fs[..n]);
      forall x | x in FieldsNames(fs) ensures exists i :: 0 <= i < |fs| && !Skipped(fs[i]) && NameOf(fs[i]) == x {
        if x in FieldsNames(fs[..n]) {
          var i :| 0 <= i < n && !Skipped(fs[..n][i]) && NameOf(fs[..n][i]) == x;
          assert fs[..n][i] == fs[i];
        }
      }
      forall x | exists i :: 0 <= i < |fs| && !Skipped(fs[i]) && NameOf(fs[i]) == x ensures x in FieldsNames(fs) {
        var i :| 0 <= i < |fs| && !Skipped(fs[i]) && NameOf(fs[i]) == x;
        if i < n {
          assert fs[..n][i] == fs[i];
        }
      }
    }
  }

  /**
   * A name is listed exactly when some template has a field that is
   * neither an image nor static and has that name: its `inputId` if it
   * has one, else its key.
   */
  lemma {:induction false} CandidatesMembers(ts: seq<Template>)
    ensures forall x :: x in Candidates(ts) <==>
      exists k, i :: 0 <= k < |ts| && 0 <= i < |ts[k].fields| && !Skipped(ts[k].fields[i]) && NameOf(ts[k].fields[i]) == x
  {
    if ts != [] {
      var n := |ts| - 1;
      CandidatesMembers(ts[..n]);
      FieldsNamesMembers(ts[n].fields);
      forall x | x in Candidates(ts)
        ensures exists k, i :: 0 <= k < |ts| && 0 <= i < |ts[k].fields| && !Skipped(ts[k].fields[i]) && NameOf(ts[k].fields[i]) == x
      {
        if x in Candidates(ts[..n]) {
          var k, i :| 0 <= k < n && 0 <= i < |ts[..n][k].fields| && !Skipped(ts[..n][k].fields[i]) && NameOf(ts[..n][k].fields[i]) == x;
          assert ts[..n][k] == ts[k];
        } else {
          var i :| 0 <= i < |ts[n].fields| && !Skipped(ts[n].fields[i]) && NameOf(ts[n].fields[i]) == x;
        }
      }
      forall x | exists k, i :: 0 <= k < |ts| && 0 <= i < |ts[k].fields| && !Skipped(ts[k].fields[i]) && NameOf(ts[k].fields[i]) == x
        ensures x in Candidates(ts)
      {
        var k, i :| 0 <= k < |ts| && 0 <= i < |ts[k].fields| && !Skipped(ts[k].fields[i]) && NameOf(ts[k].fields[i]) == x;
        if k < n {
          assert ts[..n][k] == ts[k];
        }
      }
    }
  }

  /**
   * `exports.fields`: a name is listed exactly when a field that is not an
   * image or static gives it, no name twice, and names in the order in
   * which the templates and their fields first give them.
   */
  lemma MergedNames(ts: seq<Template>)
    ensures var r := Merged(ts);
      (forall x :: x in r <==> x in Candidates(ts))
      && (forall x :: x in r <==>
         exists k, i :: 0 <= k < |ts| && 0 <= i < |ts[k].fields| && !Skipped(ts[k].fields[i]) && NameOf(ts[k].fields[i]) == x)
      && (forall i, j :: 0 <= i < j < |r| ==> r[i] != r[j])
      && (forall i, j :: 0 <= i < j < |r| ==> FirstIndex(Candidates(ts), r[i]) < FirstIndex(Candidates(ts), r[j]))
  {
    DedupeKeys(Candidates(ts));
    CandidatesMembers(ts);
  }
}
