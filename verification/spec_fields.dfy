/**
  API spec fields and the merge that folds a component's fields into a
  collection's field list. Fields are keyed by name: a field whose name is not
  yet present is appended, and a field whose name is present only contributes
  its documentation, and only when that documentation is non-empty. There is
  no type-conflict check.
 */
module SpecFields {

  /** One field of the generated custom resource's spec. */
  datatype APISpecField = APISpecField(
    fieldName: string,
    fieldType: string,
    defaultValue: string,
    sampleValue: string,
    documentationLines: seq<string>)

  /** The set of field names of a list. */
  function NameSet(fields: seq<APISpecField>): set<string> {
    set f | f in fields :: f.fieldName
  }

  /** No name appears twice. */
  predicate UniqueNames(fields: seq<APISpecField>) {
    forall i, j :: 0 <= i < j < |fields| ==> fields[i].fieldName != fields[j].fieldName
  }

  /** Two fields agree on everything except their documentation. */
  predicate SameButDocs(a: APISpecField, b: APISpecField) {
    a.(documentationLines := b.documentationLines) == b
  }

  /** The documentation an entry named `name` holds after `incoming` field `f`
      has been looked at: `f`'s lines when the names match and `f` has any. */
  function DocStep(docs: seq<string>, name: string, f: APISpecField): seq<string> {
    if f.fieldName == name && |f.documentationLines| > 0 then f.documentationLines else docs
  }

  /** The inner scan: every entry whose name matches `f` takes `f`'s documentation
      when that is non-empty. */
  function ApplyDocs(fields: seq<APISpecField>, f: APISpecField): seq<APISpecField> {
    seq(|fields|, i requires 0 <= i < |fields| =>
      fields[i].(documentationLines := DocStep(fields[i].documentationLines, fields[i].fieldName, f)))
  }

  /** Merges one incoming field: update the matching entries, or append it when
      no entry has its name. */
  function MergeField(fields: seq<APISpecField>, f: APISpecField): seq<APISpecField> {
    var updated := ApplyDocs(fields, f);
    if f.fieldName in NameSet(fields) then updated else updated + [f]
  }

  /** Merges a list of incoming fields, one after the other. */
  function MergeFields(fields: seq<APISpecField>, incoming: seq<APISpecField>): (r: seq<APISpecField>)
    ensures |fields| <= |r| <= |fields| + |incoming|
    decreases |incoming|
  {
    if |incoming| == 0 then fields else MergeFields(MergeField(fields, incoming[0]), incoming[1..])
  }

  // Reference definition of the merge result.

  /** The incoming fields that introduce a name not in `known`, at their first
      occurrence, in incoming order. */
  function NewFields(known: set<string>, incoming: seq<APISpecField>): seq<APISpecField>
    decreases |incoming|
  {
    if |incoming| == 0 then []
    else if incoming[0].fieldName in known then NewFields(known, incoming[1..])
    else [incoming[0]] + NewFields(known + {incoming[0].fieldName}, incoming[1..])
  }

  /** The documentation that an entry named `name` ends with, starting from `docs`:
      the lines of the last incoming field of that name with non-empty lines. */
  function LastDocs(incoming: seq<APISpecField>, name: string, docs: seq<string>): seq<string>
    decreases |incoming|
  {
    if |incoming| == 0 then docs else LastDocs(incoming[1..], name, DocStep(docs, name, incoming[0]))
  }

  /** An entry with its documentation brought up to date by `incoming`. */
  function Refreshed(incoming: seq<APISpecField>, f: APISpecField): APISpecField {
    f.(documentationLines := LastDocs(incoming, f.fieldName, f.documentationLines))
  }

  /** The merge, described without the fold: the base entries followed by the new
      names' first occurrences, each with its documentation brought up to date. */
  ghost predicate IsMergeOf(r: seq<APISpecField>, base: seq<APISpecField>, incoming: seq<APISpecField>) {
    var s := base + NewFields(NameSet(base), incoming);
    |r| == |s| && forall i :: 0 <= i < |s| ==> r[i] == Refreshed(incoming, s[i])
  }

  lemma NameSetAppend(fields: seq<APISpecField>, f: APISpecField)
    ensures NameSet(fields + [f]) == NameSet(fields) + {f.fieldName}
  {
    assert forall g :: g in fields + [f] <==> g in fields || g == f;
  }

  lemma NameSetConcat(a: seq<APISpecField>, b: seq<APISpecField>)
    ensures NameSet(a + b) == NameSet(a) + NameSet(b)
  {
    assert forall g :: g in a + b <==> g in a || g in b;
  }

  lemma {:induction false} LastDocsCons(incoming: seq<APISpecField>, name: string, docs: seq<string>)
    requires |incoming| > 0
    ensures LastDocs(incoming, name, docs) == LastDocs(incoming[1..], name, DocStep(docs, name, incoming[0]))
  {
  }

  /** The new fields are drawn from `incoming`, carry names outside `known`, and
      carry no name twice. */
  lemma {:induction false} NewFieldsSpec(known: set<string>, incoming: seq<APISpecField>)
    ensures forall g :: g in NewFields(known, incoming) ==> g in incoming && g.fieldName !in known
    ensures NameSet(NewFields(known, incoming)) == NameSet(incoming) - known
    ensures UniqueNames(NewFields(known, incoming))
    decreases |incoming|
  {
    if |incoming| > 0 {
      var f, rest := incoming[0], incoming[1..];
      assert incoming == [f] + rest;
      NameSetConcat([f], rest);
      assert NameSet([f]) == {f.fieldName};
      if f.fieldName in known {
        NewFieldsSpec(known, rest);
      } else {
        var known' := known + {f.fieldName};
        NewFieldsSpec(known', rest);
        var tail := NewFields(known', rest);
        NameSetConcat([f], tail);
        assert NewFields(known, incoming) == [f] + tail;
      }
    } else {
      assert NameSet(incoming) == {};
    }
  }

  /** An incoming field with another name leaves an entry's documentation alone. */
  lemma LastDocsSkip(incoming: seq<APISpecField>, name: string, docs: seq<string>)
    requires |incoming| > 0 && incoming[0].fieldName != name
    ensures LastDocs(incoming, name, docs) == LastDocs(incoming[1..], name, docs)
  {
    LastDocsCons(incoming, name, docs);
  }

  /** The documentation scan changes no name, and changes nothing at all when
      no entry has the incoming name. */
  lemma ApplyDocsSpec(fields: seq<APISpecField>, f: APISpecField)
    ensures |ApplyDocs(fields, f)| == |fields|
    ensures forall i :: 0 <= i < |fields| ==> SameButDocs(ApplyDocs(fields, f)[i], fields[i])
    ensures NameSet(ApplyDocs(fields, f)) == NameSet(fields)
    ensures f.fieldName !in NameSet(fields) ==> ApplyDocs(fields, f) == fields
  {
    var u := ApplyDocs(fields, f);
    forall n | n in NameSet(u) ensures n in NameSet(fields) {
      var g :| g in u && g.fieldName == n;
      var i :| 0 <= i < |u| && u[i] == g;
      assert fields[i] in fields;
    }
    forall n | n in NameSet(fields) ensures n in NameSet(u) {
      var g :| g in fields && g.fieldName == n;
      var i :| 0 <= i < |fields| && fields[i] == g;
      assert u[i] in u;
    }
    if f.fieldName !in NameSet(fields) {
      forall i | 0 <= i < |fields| ensures u[i] == fields[i] {
        assert fields[i] in fields;
      }
    }
  }

  /** Inductive step when the incoming field's name is already present: the
      documentation scan happens first, then the rest is merged. */
  lemma MergeStepPresent(base: seq<APISpecField>, incoming: seq<APISpecField>, r: seq<APISpecField>)
    requires |incoming| > 0 && incoming[0].fieldName in NameSet(base)
    requires IsMergeOf(r, ApplyDocs(base, incoming[0]), incoming[1..])
    ensures IsMergeOf(r, base, incoming)
  {
    var f, rest := incoming[0], incoming[1..];
    var known := NameSet(base);
    var b' := ApplyDocs(base, f);
    ApplyDocsSpec(base, f);
    var nf := NewFields(known, rest);
    assert NewFields(known, incoming) == nf;
    NewFieldsSpec(known, rest);
    var s := base + nf;
    var s' := b' + nf;
    assert |r| == |s'| == |s|;
    forall i | 0 <= i < |s|
      ensures r[i] == Refreshed(incoming, s[i])
    {
      assert r[i] == Refreshed(rest, s'[i]);
      if i < |base| {
        LastDocsCons(incoming, base[i].fieldName, base[i].documentationLines);
        assert s'[i] == b'[i] && s[i] == base[i];
      } else {
        assert s[i] == s'[i] == nf[i - |base|];
        assert s[i] in nf;
        LastDocsSkip(incoming, s[i].fieldName, s[i].documentationLines);
      }
    }
  }

  /** The first incoming field leaves an entry's documentation as it found it
      when the entry has another name or is that field itself. */
  lemma RefreshedSkipFirst(incoming: seq<APISpecField>, g: APISpecField)
    requires |incoming| > 0
    requires g.fieldName != incoming[0].fieldName || g == incoming[0]
    ensures Refreshed(incoming, g) == Refreshed(incoming[1..], g)
  {
    LastDocsCons(incoming, g.fieldName, g.documentationLines);
  }

  /** Refreshing by `incoming` and by its tail agree on every entry that has
      another name than the first incoming field or is that field itself. */
  lemma RefreshedAllSkipFirst(r: seq<APISpecField>, s: seq<APISpecField>, incoming: seq<APISpecField>)
    requires |incoming| > 0
    requires |r| == |s| && forall i :: 0 <= i < |s| ==> r[i] == Refreshed(incoming[1..], s[i])
    requires forall i :: 0 <= i < |s| ==> s[i].fieldName != incoming[0].fieldName || s[i] == incoming[0]
    ensures forall i :: 0 <= i < |s| ==> r[i] == Refreshed(incoming, s[i])
  {
    forall i | 0 <= i < |s| ensures r[i] == Refreshed(incoming, s[i]) {
      RefreshedSkipFirst(incoming, s[i]);
    }
  }

  /** A field with a new name, appended to the base and followed by fields of
      yet other names, is the only entry with its name. */
  lemma OnlyAppendedHasName(base: seq<APISpecField>, f: APISpecField, nf: seq<APISpecField>)
    requires f.fieldName !in NameSet(base)
    requires forall g :: g in nf ==> g.fieldName !in NameSet(base) + {f.fieldName}
    ensures forall i :: 0 <= i < |base + [f] + nf| ==>
      (base + [f] + nf)[i].fieldName != f.fieldName || (base + [f] + nf)[i] == f
  {
    var s := base + [f] + nf;
    forall i | 0 <= i < |s| ensures s[i].fieldName != f.fieldName || s[i] == f {
      if i < |base| {
        assert s[i] == base[i] && base[i] in base;
      } else if i > |base| {
        assert s[i] == nf[i - |base| - 1] && s[i] in nf;
      }
    }
  }

  /** Inductive step when the incoming field's name is new: it is appended,
      then the rest is merged. */
  lemma MergeStepAbsent(base: seq<APISpecField>, incoming: seq<APISpecField>, r: seq<APISpecField>)
    requires |incoming| > 0 && incoming[0].fieldName !in NameSet(base)
    requires IsMergeOf(r, base + [incoming[0]], incoming[1..])
    ensures IsMergeOf(r, base, incoming)
  {
    var f, rest := incoming[0], incoming[1..];
    var known' := NameSet(base) + {f.fieldName};
    NameSetAppend(base, f);
    var nf := NewFields(known', rest);
    var s := base + [f] + nf;
    assert NewFields(NameSet(base), incoming) == [f] + nf;
    assert base + ([f] + nf) == s;
    NewFieldsSpec(known', rest);
    OnlyAppendedHasName(base, f, nf);
    RefreshedAllSkipFirst(r, s, incoming);
  }

  /** The fold computes the reference definition. */
  lemma {:induction false} MergeFieldsIsMerge(base: seq<APISpecField>, incoming: seq<APISpecField>)
    ensures IsMergeOf(MergeFields(base, incoming), base, incoming)
    decreases |incoming|
  {
    if |incoming| == 0 {
      assert base + NewFields(NameSet(base), incoming) == base;
    } else {
      var f, rest := incoming[0], incoming[1..];
      var b' := MergeField(base, f);
      MergeFieldsIsMerge(b', rest);
      var r := MergeFields(b', rest);
      assert MergeFields(base, incoming) == r;
      if f.fieldName in NameSet(base) {
        MergeStepPresent(base, incoming, r);
      } else {
        ApplyDocsSpec(base, f);
        assert b' == base + [f];
        MergeStepAbsent(base, incoming, r);
      }
    }
  }

  // Properties of the merge.

  /** The merged list starts with the base entries, in their order, and then holds
      each new name's first occurrence, in incoming order; entries differ from
      their origin at most in documentation. */
  lemma MergeFieldsShape(base: seq<APISpecField>, incoming: seq<APISpecField>)
    ensures var r := MergeFields(base, incoming);
      var nf := NewFields(NameSet(base), incoming);
      && |r| == |base| + |nf|
      && (forall i :: 0 <= i < |base| ==> SameButDocs(r[i], base[i]))
      && (forall j :: 0 <= j < |nf| ==> SameButDocs(r[|base| + j], nf[j]))
  {
    MergeFieldsIsMerge(base, incoming);
    var nf := NewFields(NameSet(base), incoming);
    var s := base + nf;
    assert forall j :: 0 <= j < |nf| ==> s[|base| + j] == nf[j];
  }

  /** The merged names are exactly the base names and the incoming names. */
  lemma MergeFieldsNames(base: seq<APISpecField>, incoming: seq<APISpecField>)
    ensures NameSet(MergeFields(base, incoming)) == NameSet(base) + NameSet(incoming)
  {
    var r := MergeFields(base, incoming);
    var known := NameSet(base);
    var nf := NewFields(known, incoming);
    var s := base + nf;
    MergeFieldsIsMerge(base, incoming);
    NewFieldsSpec(known, incoming);
    NameSetConcat(base, nf);
    forall n | n in NameSet(r) ensures n in NameSet(s) {
      var g :| g in r && g.fieldName == n;
      var i :| 0 <= i < |r| && r[i] == g;
      assert s[i] in s;
    }
    forall n | n in NameSet(s) ensures n in NameSet(r) {
      var g :| g in s && g.fieldName == n;
      var i :| 0 <= i < |s| && s[i] == g;
      assert r[i] in r;
    }
  }

  /** If the base names are distinct, no name appears twice after the merge. */
  lemma MergeFieldsUnique(base: seq<APISpecField>, incoming: seq<APISpecField>)
    requires UniqueNames(base)
    ensures UniqueNames(MergeFields(base, incoming))
  {
    var r := MergeFields(base, incoming);
    var known := NameSet(base);
    var nf := NewFields(known, incoming);
    var s := base + nf;
    MergeFieldsIsMerge(base, incoming);
    NewFieldsSpec(known, incoming);
    forall i, j | 0 <= i < j < |r| ensures r[i].fieldName != r[j].fieldName {
      assert r[i].fieldName == s[i].fieldName && r[j].fieldName == s[j].fieldName;
      if j >= |base| {
        assert s[j] == nf[j - |base|] && s[j] in nf;
        if i < |base| {
          assert base[i] in base;
        } else {
          assert s[i] == nf[i - |base|];
        }
      }
    }
  }

  /** An entry's documentation survives when no incoming field of its name brings
      non-empty documentation. */
  lemma {:induction false} LastDocsUnchanged(incoming: seq<APISpecField>, name: string, docs: seq<string>)
    requires forall k :: 0 <= k < |incoming| && incoming[k].fieldName == name ==> |incoming[k].documentationLines| == 0
    ensures LastDocs(incoming, name, docs) == docs
    decreases |incoming|
  {
    if |incoming| > 0 {
      LastDocsUnchanged(incoming[1..], name, docs);
    }
  }

  /** Otherwise the last such field's documentation wins. */
  lemma {:induction false} LastDocsWins(incoming: seq<APISpecField>, name: string, docs: seq<string>, k: nat)
    requires k < |incoming| && incoming[k].fieldName == name && |incoming[k].documentationLines| > 0
    requires forall j :: k < j < |incoming| && incoming[j].fieldName == name ==> |incoming[j].documentationLines| == 0
    ensures LastDocs(incoming, name, docs) == incoming[k].documentationLines
    decreases |incoming|
  {
    if k == 0 {
      LastDocsUnchanged(incoming[1..], name, incoming[0].documentationLines);
    } else {
      LastDocsWins(incoming[1..], name, DocStep(docs, name, incoming[0]), k - 1);
    }
  }

  /** Merging two lists one after the other is merging their concatenation. */
  lemma {:induction false} MergeFieldsConcat(base: seq<APISpecField>, x: seq<APISpecField>, y: seq<APISpecField>)
    ensures MergeFields(MergeFields(base, x), y) == MergeFields(base, x + y)
    decreases |x|
  {
    if |x| == 0 {
      assert x + y == y;
    } else {
      assert (x + y)[0] == x[0];
      assert (x + y)[1..] == x[1..] + y;
      MergeFieldsConcat(MergeField(base, x[0]), x[1..], y);
    }
  }

  /** A field without documentation is backfilled by a later one of the same name,
      without a second entry. */
  lemma DocumentationBackfillExample()
    ensures MergeFields([APISpecField("size", "int", "1", "1", [])],
                        [APISpecField("size", "int", "1", "1", ["replica count"])])
         == [APISpecField("size", "int", "1", "1", ["replica count"])]
  {
    var base := [APISpecField("size", "int", "1", "1", [])];
    assert "size" in NameSet(base) by { assert base[0] in base; }
  }

  /** Conflicting types do not fail the merge: the base entry's type is kept and
      the documentation is still overwritten. */
  lemma TypeConflictIgnoredExample()
    ensures MergeFields([APISpecField("size", "int", "", "", ["old"])],
                        [APISpecField("size", "string", "", "", ["new"])])
         == [APISpecField("size", "int", "", "", ["new"])]
  {
    var base := [APISpecField("size", "int", "", "", ["old"])];
    assert "size" in NameSet(base) by { assert base[0] in base; }
  }

  /** Merging one more field after a list is merging the extended list. */
  lemma MergeFieldsSnoc(base: seq<APISpecField>, x: seq<APISpecField>, f: APISpecField)
    ensures MergeFields(base, x + [f]) == MergeField(MergeFields(base, x), f)
  {
    MergeFieldsConcat(base, x, [f]);
    assert [f][1..] == [];
  }

  /**
    The inner loop: scan every entry, overwrite the documentation of each entry
    of the incoming field's name when the incoming documentation is non-empty,
    and report whether any entry had that name.
   */
  method ScanEntries(fields: seq<APISpecField>, csf: APISpecField) returns (updated: seq<APISpecField>, fieldPresent: bool)
    ensures updated == ApplyDocs(fields, csf)
    ensures fieldPresent <==> csf.fieldName in NameSet(fields)
  {
    updated := fields;
    fieldPresent := false;
    for i := 0 to |fields|
      invariant |updated| == |fields|
      invariant updated[..i] == ApplyDocs(fields, csf)[..i]
      invariant updated[i..] == fields[i..]
      invariant fieldPresent <==> csf.fieldName in NameSet(fields[..i])
    {
      assert fields[..i + 1] == fields[..i] + [fields[i]];
      NameSetAppend(fields[..i], fields[i]);
      if updated[i].fieldName == csf.fieldName {
        if |csf.documentationLines| > 0 {
          updated := updated[i := updated[i].(documentationLines := csf.documentationLines)];
        }
        fieldPresent := true;
      }
      assert updated[i] == ApplyDocs(fields, csf)[i];
      assert updated[..i + 1] == updated[..i] + [updated[i]];
    }
    assert fields[..|fields|] == fields;
  }

  /**
    The merge as the nested loops write it: for each incoming field, scan the
    entries, then append the field when no entry had its name.
   */
  method MergeFieldsLoop(specFields: seq<APISpecField>, incoming: seq<APISpecField>) returns (merged: seq<APISpecField>)
    ensures merged == MergeFields(specFields, incoming)
  {
    merged := specFields;
    for k := 0 to |incoming|
      invariant merged == MergeFields(specFields, incoming[..k])
    {
      var csf := incoming[k];
      var updated, fieldPresent := ScanEntries(merged, csf);
      MergeFieldsPrefix(specFields, incoming, k);
      merged := if fieldPresent then updated else updated + [csf];
    }
    assert incoming[..|incoming|] == incoming;
  }

  /** Merging one more incoming field extends the prefix merged so far. */
  lemma MergeFieldsPrefix(base: seq<APISpecField>, incoming: seq<APISpecField>, k: nat)
    requires k < |incoming|
    ensures MergeFields(base, incoming[..k + 1]) == MergeField(MergeFields(base, incoming[..k]), incoming[k])
  {
    assert incoming[..k + 1] == incoming[..k] + [incoming[k]];
    MergeFieldsSnoc(base, incoming[..k], incoming[k]);
  }
}
