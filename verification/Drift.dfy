/**
 Drift detection (internal/drift/diff.go): only desired leaves are compared, in sorted
 key order, and drift means exactly that writing the desired tree would change something.
 */
module Drift {
  import opened Wrappers
  import opened Json
  import opened Findings
  import opened Order
  import opened Sorting

  // ----- diffMap

  function Join(prefix: string, k: string): string
  {
    if prefix == "" then k else prefix + "." + k
  }

  /** One desired value against what the device has under its key. */
  ghost function DiffValue(section: string, path: string, want: Json, have: Option<Json>): seq<Finding>
    decreases want, 1
  {
    if want.Obj? then DiffKeys(section, path, want, FieldsOf(OrNull(have)), SortedSeq(ByName, want.fields.Keys))
    else if have == Some(want) then []
    else [Finding(section, path, want, OrNull(have))]
  }

  ghost function DiffKeys(section: string, prefix: string, want: Json, have: Object, keys: seq<string>): seq<Finding>
    requires want.Obj? && forall i :: 0 <= i < |keys| ==> keys[i] in want.fields
    decreases want, 0, |keys|
  {
    if keys == [] then []
    else DiffValue(section, Join(prefix, keys[0]), want.fields[keys[0]], Get(have, keys[0]))
         + DiffKeys(section, prefix, want, have, keys[1..])
  }

  lemma {:induction false} DiffKeysAppend(section: string, prefix: string, want: Json, have: Object, a: seq<string>, b: seq<string>)
    requires want.Obj? && (forall i :: 0 <= i < |a| ==> a[i] in want.fields) && (forall i :: 0 <= i < |b| ==> b[i] in want.fields)
    ensures DiffKeys(section, prefix, want, have, a + b) == DiffKeys(section, prefix, want, have, a) + DiffKeys(section, prefix, want, have, b)
  {
    if a == [] {
      assert a + b == b;
    } else {
      assert (a + b)[1..] == a[1..] + b;
      var head := DiffValue(section, Join(prefix, a[0]), want.fields[a[0]], Get(have, a[0]));
      var x, y := DiffKeys(section, prefix, want, have, a[1..]), DiffKeys(section, prefix, want, have, b);
      DiffKeysAppend(section, prefix, want, have, a[1..], b);
      assert head + (x + y) == head + x + y;
    }
  }

  lemma DiffKeysNext(section: string, prefix: string, want: Json, have: Object, keys: seq<string>, i: nat)
    requires want.Obj? && i < |keys| && forall j :: 0 <= j < |keys| ==> keys[j] in want.fields
    ensures DiffKeys(section, prefix, want, have, keys[..i + 1])
         == DiffKeys(section, prefix, want, have, keys[..i]) + DiffValue(section, Join(prefix, keys[i]), want.fields[keys[i]], Get(have, keys[i]))
  {
    assert keys[..i + 1] == keys[..i] + [keys[i]];
    DiffKeysAppend(section, prefix, want, have, keys[..i], [keys[i]]);
    assert [keys[i]][1..] == [];
  }

  /** diffMap as it runs: sorted keys, recursion into objects, findings appended as they are met. */
  method DiffMap(section: string, prefix: string, want: Json, have: Object) returns (out: seq<Finding>)
    requires want.Obj?
    ensures out == DiffKeys(section, prefix, want, have, SortedSeq(ByName, want.fields.Keys))
    decreases want
  {
    out := [];
    var keys := SortNames(ByName, want.fields.Keys);
    for i := 0 to |keys|
      invariant out == DiffKeys(section, prefix, want, have, keys[..i])
    {
      var k := keys[i];
      assert k in want.fields;
      DiffKeysNext(section, prefix, want, have, keys, i);
      var w, h := want.fields[k], Get(have, k);
      if w.Obj? {
        var sub := DiffMap(section, Join(prefix, k), w, FieldsOf(OrNull(h)));
        out := out + sub;
        continue;
      }
      if h.None? || w != h.value {
        out := out + [Finding(section, Join(prefix, k), w, OrNull(h))];
      }
    }
    assert keys[..|keys|] == keys;
  }

  // ----- drift, without the order of findings

  /** Every desired leaf is there. */
  ghost predicate InSync(want: Json, have: Option<Json>)
    decreases want
  {
    if want.Obj? then forall k :: k in want.fields ==> InSync(want.fields[k], Get(FieldsOf(OrNull(have)), k))
    else have == Some(want)
  }

  lemma {:induction false} DiffKeysEmpty(section: string, prefix: string, want: Json, have: Object, keys: seq<string>)
    requires want.Obj? && forall i :: 0 <= i < |keys| ==> keys[i] in want.fields
    ensures DiffKeys(section, prefix, want, have, keys) == [] <==>
              forall i :: 0 <= i < |keys| ==> InSync(want.fields[keys[i]], Get(have, keys[i]))
    decreases want, 0, |keys|
  {
    if keys != [] {
      DiffEmpty(section, Join(prefix, keys[0]), want.fields[keys[0]], Get(have, keys[0]));
      DiffKeysEmpty(section, prefix, want, have, keys[1..]);
    }
  }

  /** No finding exactly when every desired leaf is there. */
  lemma {:induction false} DiffEmpty(section: string, path: string, want: Json, have: Option<Json>)
    ensures DiffValue(section, path, want, have) == [] <==> InSync(want, have)
    decreases want, 1
  {
    if want.Obj? {
      var keys := SortedSeq(ByName, want.fields.Keys);
      DiffKeysEmpty(section, path, want, FieldsOf(OrNull(have)), keys);
      assert forall k :: k in want.fields <==> k in keys;
    }
  }

  // ----- what a finding tells

  /** The dotted path below a path, one key after the other. */
  function Joined(path: string, keys: seq<string>): string
    decreases |keys|
  {
    if keys == [] then path else Joined(Join(path, keys[0]), keys[1..])
  }

  function Dotted(keys: seq<string>): string
  {
    if keys == [] then "" else if |keys| == 1 then keys[0] else keys[0] + "." + Dotted(keys[1..])
  }

  lemma {:induction false} JoinedAfter(path: string, keys: seq<string>)
    requires path != "" && keys != []
    ensures Joined(path, keys) == path + "." + Dotted(keys)
    decreases |keys|
  {
    var next := Join(path, keys[0]);
    if |keys| > 1 {
      JoinedAfter(next, keys[1..]);
      assert next + "." + Dotted(keys[1..]) == path + "." + (keys[0] + "." + Dotted(keys[1..]));
    }
  }

  /** From the section down, a path whose first key is not empty is its keys with dots between them. */
  lemma JoinedIsDotted(keys: seq<string>)
    requires keys != [] ==> keys[0] != ""
    ensures Joined("", keys) == Dotted(keys)
  {
    if |keys| > 1 {
      JoinedAfter(keys[0], keys[1..]);
    }
  }

  /** What the device has there, if anything. */
  function Reach(have: Option<Json>, keys: seq<string>): Option<Json>
  {
    if have.Some? then Lookup(have.value, keys) else None
  }

  /** The finding tells of one desired leaf: where it is, what is desired and what is there instead. */
  ghost predicate Tells(f: Finding, section: string, path: string, want: Json, have: Option<Json>, keys: seq<string>)
  {
    && Lookup(want, keys).Some? && !Lookup(want, keys).value.Obj? && Reach(have, keys) != Lookup(want, keys)
    && f == Finding(section, Joined(path, keys), Lookup(want, keys).value, OrNull(Reach(have, keys)))
  }

  lemma TellsBelow(f: Finding, section: string, path: string, want: Json, have: Option<Json>, k: string, keys: seq<string>)
    requires want.Obj? && k in want.fields
    ensures Tells(f, section, path, want, have, [k] + keys) <==>
            Tells(f, section, Join(path, k), want.fields[k], Get(FieldsOf(OrNull(have)), k), keys)
  {
    assert ([k] + keys)[1..] == keys;
  }

  lemma {:induction false} InDiffKeys(section: string, prefix: string, want: Json, have: Object, keys: seq<string>, f: Finding) returns (i: nat)
    requires want.Obj? && (forall i :: 0 <= i < |keys| ==> keys[i] in want.fields) && f in DiffKeys(section, prefix, want, have, keys)
    ensures i < |keys| && f in DiffValue(section, Join(prefix, keys[i]), want.fields[keys[i]], Get(have, keys[i]))
  {
    i := 0;
    if f !in DiffValue(section, Join(prefix, keys[0]), want.fields[keys[0]], Get(have, keys[0])) {
      var j := InDiffKeys(section, prefix, want, have, keys[1..], f);
      i := j + 1;
    }
  }

  lemma {:induction false} IntoDiffKeys(section: string, prefix: string, want: Json, have: Object, keys: seq<string>, f: Finding, i: nat)
    requires want.Obj? && (forall i :: 0 <= i < |keys| ==> keys[i] in want.fields) && i < |keys|
    requires f in DiffValue(section, Join(prefix, keys[i]), want.fields[keys[i]], Get(have, keys[i]))
    ensures f in DiffKeys(section, prefix, want, have, keys)
  {
    if i > 0 {
      IntoDiffKeys(section, prefix, want, have, keys[1..], f, i - 1);
    }
  }

  /** Every finding tells of a desired leaf that is not there. */
  lemma {:induction false} FindingTells(section: string, path: string, want: Json, have: Option<Json>, f: Finding) returns (keys: seq<string>)
    requires f in DiffValue(section, path, want, have)
    ensures Tells(f, section, path, want, have, keys)
    decreases want
  {
    keys := [];
    if want.Obj? {
      var names := SortedSeq(ByName, want.fields.Keys);
      var h := FieldsOf(OrNull(have));
      var i := InDiffKeys(section, path, want, h, names, f);
      var k := names[i];
      var below := FindingTells(section, Join(path, k), want.fields[k], Get(h, k), f);
      keys := [k] + below;
      TellsBelow(f, section, path, want, have, k, below);
    }
  }

  /** And every desired leaf that is not there is told of. */
  lemma {:induction false} ToldOf(section: string, path: string, want: Json, have: Option<Json>, f: Finding, keys: seq<string>)
    requires Tells(f, section, path, want, have, keys)
    ensures f in DiffValue(section, path, want, have)
    decreases want
  {
    if want.Obj? {
      var k, below := keys[0], keys[1..];
      assert keys == [k] + below;
      TellsBelow(f, section, path, want, have, k, below);
      var names := SortedSeq(ByName, want.fields.Keys);
      var h := FieldsOf(OrNull(have));
      ToldOf(section, Join(path, k), want.fields[k], Get(h, k), f, below);
      assert k in names;
      var i :| 0 <= i < |names| && names[i] == k;
      IntoDiffKeys(section, path, want, h, names, f, i);
    } else {
      assert keys == [];
    }
  }

  // ----- drift and writing

  /** The payload carries every desired leaf, and possibly more. */
  ghost predicate Covers(payload: Json, want: Json)
    decreases want
  {
    if want.Obj? then payload.Obj? && forall k :: k in want.fields ==> k in payload.fields && Covers(payload.fields[k], want.fields[k])
    else payload == want
  }

  lemma {:induction false} CoversSelf(want: Json)
    ensures Covers(want, want)
    decreases want
  {
    if want.Obj? {
      forall k | k in want.fields ensures Covers(want.fields[k], want.fields[k]) {
        CoversSelf(want.fields[k]);
      }
    }
  }

  /** Writing a payload that covers the desired tree silences the diff, whatever was there before. */
  lemma {:induction false} WritingSilences(have: Json, payload: Json, want: Json)
    requires Covers(payload, want)
    ensures InSync(want, Some(Merge(have, payload)))
    decreases want
  {
    if want.Obj? {
      var h := FieldsOf(have);
      forall k | k in want.fields ensures InSync(want.fields[k], Get(Merge(have, payload).fields, k)) {
        WritingSilences(OrNull(Get(h, k)), payload.fields[k], want.fields[k]);
      }
    }
  }

  /** No object inside the tree is empty. */
  ghost predicate NoEmptyInside(want: Json)
    decreases want
  {
    want.Obj? ==> forall k :: k in want.fields ==> want.fields[k] != EMPTY && NoEmptyInside(want.fields[k])
  }

  /** A non-empty desired tree has a leaf, so a device with nothing there drifts. */
  lemma {:induction false} NothingDrifts(want: Json, have: Option<Json>)
    requires NoEmptyInside(want) && want.Obj? && want != EMPTY && FieldsOf(OrNull(have)) == map[]
    ensures !InSync(want, have)
    decreases want
  {
    var k :| k in want.fields;
    if want.fields[k].Obj? {
      NothingDrifts(want.fields[k], None);
    }
  }

  /** For such trees drift means exactly that writing the tree would change something. */
  lemma {:induction false} DriftMeansChange(want: Json, have: Json)
    requires NoEmptyInside(want) && (have.Obj? || want != EMPTY)
    ensures InSync(want, Some(have)) <==> Merge(have, want) == have
    decreases want
  {
    if want.Obj? {
      if !have.Obj? {
        NothingDrifts(want, Some(have));
      } else {
        var m := Merge(have, want);
        forall k | k in want.fields
          ensures InSync(want.fields[k], Get(have.fields, k)) <==> k in have.fields && m.fields[k] == have.fields[k]
        {
          if k in have.fields {
            DriftMeansChange(want.fields[k], have.fields[k]);
          } else if want.fields[k].Obj? {
            NothingDrifts(want.fields[k], None);
          }
        }
        if InSync(want, Some(have)) {
          assert m.fields == have.fields;
        }
      }
    }
  }

  /** The tree without its empty objects. */
  ghost function Prune(want: Json): Json
    decreases want
  {
    if want.Obj? then Obj(map k | k in want.fields && want.fields[k] != EMPTY :: Prune(want.fields[k])) else want
  }

  lemma {:induction false} PrunedInSync(want: Json)
    ensures InSync(want, Some(Prune(want)))
    decreases want
  {
    if want.Obj? {
      forall k | k in want.fields ensures InSync(want.fields[k], Get(Prune(want).fields, k)) {
        if want.fields[k] != EMPTY {
          PrunedInSync(want.fields[k]);
        }
      }
    }
  }

  lemma {:induction false} PrunedChanges(want: Json)
    requires !NoEmptyInside(want)
    ensures Merge(Prune(want), want) != Prune(want)
    decreases want
  {
    var k :| k in want.fields && (want.fields[k] == EMPTY || !NoEmptyInside(want.fields[k]));
    if want.fields[k] == EMPTY {
      assert k in Merge(Prune(want), want).fields && k !in Prune(want).fields;
    } else {
      PrunedChanges(want.fields[k]);
      assert Merge(Prune(want), want).fields[k] == Merge(Prune(want.fields[k]), want.fields[k]);
    }
  }

  /** And only for such trees: with an empty object inside, some device in sync would still be changed by a write. */
  lemma DriftMeansChangeExactly(want: Json)
    requires want.Obj?
    ensures NoEmptyInside(want) <==> forall have: Json :: have.Obj? ==> (InSync(want, Some(have)) <==> Merge(have, want) == have)
  {
    if NoEmptyInside(want) {
      forall have: Json | have.Obj? ensures InSync(want, Some(have)) <==> Merge(have, want) == have {
        DriftMeansChange(want, have);
      }
    } else {
      PrunedInSync(want);
      PrunedChanges(want);
    }
  }

  // ----- Diff over the sections

  /** One desired section against the device's: absent, not an object, or compared leaf by leaf. */
  ghost function SectionFindings(s: string, want: Json, have: Option<Json>): Result<seq<Finding>, string>
  {
    if want == EMPTY then Ok([])
    else if have.None? then Ok([Finding(s, "", Str("section present"), Null)])
    else if !have.value.Obj? && !have.value.Null? then Err(s)
    else Ok(DiffValue(s, "", want, have))
  }

  ghost function DiffSections(desired: Object, actual: Object, keys: seq<string>): Result<seq<Finding>, string>
    requires forall i :: 0 <= i < |keys| ==> keys[i] in desired
  {
    if keys == [] then Ok([])
    else
      var head := SectionFindings(keys[0], desired[keys[0]], Get(actual, keys[0]));
      if head.Err? then head
      else
        var tail := DiffSections(desired, actual, keys[1..]);
        if tail.Err? then tail else Ok(head.value + tail.value)
  }

  ghost function Diff(desired: Object, actual: Object): Result<seq<Finding>, string>
  {
    DiffSections(desired, actual, SortedSeq(ByName, desired.Keys))
  }

  lemma {:induction false} DiffSectionsAppend(desired: Object, actual: Object, a: seq<string>, b: seq<string>)
    requires (forall i :: 0 <= i < |a| ==> a[i] in desired) && (forall i :: 0 <= i < |b| ==> b[i] in desired)
    ensures
      var x, y := DiffSections(desired, actual, a), DiffSections(desired, actual, b);
      DiffSections(desired, actual, a + b) == if x.Err? then x else if y.Err? then y else Ok(x.value + y.value)
  {
    if a == [] {
      assert a + b == b;
      var y := DiffSections(desired, actual, b);
      assert y.Ok? ==> [] + y.value == y.value;
    } else {
      assert (a + b)[1..] == a[1..] + b;
      DiffSectionsAppend(desired, actual, a[1..], b);
      var head := SectionFindings(a[0], desired[a[0]], Get(actual, a[0]));
      var x, y := DiffSections(desired, actual, a[1..]), DiffSections(desired, actual, b);
      if head.Ok? && x.Ok? && y.Ok? {
        assert head.value + (x.value + y.value) == head.value + x.value + y.value;
      }
    }
  }

  lemma DiffSectionsPrefix(desired: Object, actual: Object, keys: seq<string>, i: nat)
    requires i < |keys| && forall j :: 0 <= j < |keys| ==> keys[j] in desired
    requires DiffSections(desired, actual, keys[..i]).Ok?
    ensures
      var one := SectionFindings(keys[i], desired[keys[i]], Get(actual, keys[i]));
      && (one.Err? ==> DiffSections(desired, actual, keys) == one)
      && (one.Ok? ==> DiffSections(desired, actual, keys[..i + 1]) == Ok(DiffSections(desired, actual, keys[..i]).value + one.value))
  {
    assert keys[..i + 1] == keys[..i] + [keys[i]] && keys == keys[..i + 1] + keys[i + 1..];
    assert [keys[i]][1..] == [];
    var one := SectionFindings(keys[i], desired[keys[i]], Get(actual, keys[i]));
    assert one.Ok? ==> one.value + [] == one.value;
    assert DiffSections(desired, actual, [keys[i]]) == one;
    DiffSectionsAppend(desired, actual, keys[..i], [keys[i]]);
    DiffSectionsAppend(desired, actual, keys[..i + 1], keys[i + 1..]);
  }

  /** Diff as it runs: sections in name order, an undecodable one ending it with an error. */
  method DiffConfig(desired: Object, actual: Object) returns (r: Result<seq<Finding>, string>)
    requires forall s :: s in desired ==> desired[s].Obj?
    ensures r == Diff(desired, actual)
  {
    var findings: seq<Finding> := [];
    var keys := SortNames(ByName, desired.Keys);
    for i := 0 to |keys|
      invariant DiffSections(desired, actual, keys[..i]) == Ok(findings)
    {
      var s := keys[i];
      assert s in desired;
      DiffSectionsPrefix(desired, actual, keys, i);
      assert findings + [] == findings;
      if desired[s].fields == map[] {
        continue;
      }
      if s !in actual {
        findings := findings + [Finding(s, "", Str("section present"), Null)];
        continue;
      }
      if !actual[s].Obj? && !actual[s].Null? {
        return Err(s);
      }
      var sub := DiffMap(s, "", desired[s], FieldsOf(actual[s]));
      findings := findings + sub;
    }
    assert keys[..|keys|] == keys;
    return Ok(findings);
  }

  /** The section a finding is about. */
  ghost function SectionsOf(fs: seq<Finding>): set<string>
  {
    set i | 0 <= i < |fs| :: fs[i].section
  }

  ghost predicate AllIn(fs: seq<Finding>, s: string)
  {
    forall i :: 0 <= i < |fs| ==> fs[i].section == s
  }

  lemma {:induction false} DiffKeysIn(section: string, prefix: string, want: Json, have: Object, keys: seq<string>)
    requires want.Obj? && forall i :: 0 <= i < |keys| ==> keys[i] in want.fields
    ensures AllIn(DiffKeys(section, prefix, want, have, keys), section)
    decreases want, 0, |keys|
  {
    if keys != [] {
      DiffValueIn(section, Join(prefix, keys[0]), want.fields[keys[0]], Get(have, keys[0]));
      DiffKeysIn(section, prefix, want, have, keys[1..]);
    }
  }

  lemma {:induction false} DiffValueIn(section: string, path: string, want: Json, have: Option<Json>)
    ensures AllIn(DiffValue(section, path, want, have), section)
    decreases want, 1
  {
    if want.Obj? {
      DiffKeysIn(section, path, want, FieldsOf(OrNull(have)), SortedSeq(ByName, want.fields.Keys));
    }
  }

  lemma SectionFindingsIn(s: string, want: Json, have: Option<Json>)
    requires SectionFindings(s, want, have).Ok?
    ensures AllIn(SectionFindings(s, want, have).value, s)
    ensures SectionsOf(SectionFindings(s, want, have).value) == if SectionFindings(s, want, have).value == [] then {} else {s}
  {
    DiffValueIn(s, "", want, have);
    var fs := SectionFindings(s, want, have).value;
    if fs != [] {
      assert fs[0].section in SectionsOf(fs);
    }
  }

  lemma SectionsOfAppend(a: seq<Finding>, b: seq<Finding>)
    ensures SectionsOf(a + b) == SectionsOf(a) + SectionsOf(b)
  {
    forall s | s in SectionsOf(b) ensures s in SectionsOf(a + b) {
      var i :| 0 <= i < |b| && b[i].section == s;
      assert (a + b)[|a| + i].section == s;
    }
    forall s | s in SectionsOf(a) ensures s in SectionsOf(a + b) {
      var i :| 0 <= i < |a| && a[i].section == s;
      assert (a + b)[i].section == s;
    }
  }

  /** A section is named by the findings exactly when its own comparison found something; and no comparison failed. */
  lemma {:induction false} DiffBySection(desired: Object, actual: Object, keys: seq<string>)
    requires (forall i :: 0 <= i < |keys| ==> keys[i] in desired)
    ensures DiffSections(desired, actual, keys).Ok? <==>
              forall i :: 0 <= i < |keys| ==> SectionFindings(keys[i], desired[keys[i]], Get(actual, keys[i])).Ok?
    ensures DiffSections(desired, actual, keys).Ok? ==> forall s ::
              s in SectionsOf(DiffSections(desired, actual, keys).value) <==>
              s in keys && SectionFindings(s, desired[s], Get(actual, s)) != Ok([])
  {
    if keys != [] {
      var head := SectionFindings(keys[0], desired[keys[0]], Get(actual, keys[0]));
      var tail := DiffSections(desired, actual, keys[1..]);
      DiffBySection(desired, actual, keys[1..]);
      if head.Ok? && tail.Ok? {
        SectionFindingsIn(keys[0], desired[keys[0]], Get(actual, keys[0]));
        SectionsOfAppend(head.value, tail.value);
      }
    }
  }

  lemma {:induction false} DiffMembers(desired: Object, actual: Object, keys: seq<string>, f: Finding)
    requires (forall i :: 0 <= i < |keys| ==> keys[i] in desired) && DiffSections(desired, actual, keys).Ok?
    ensures f in DiffSections(desired, actual, keys).value <==>
              && f.section in keys
              && var own := SectionFindings(f.section, desired[f.section], Get(actual, f.section));
                 own.Ok? && f in own.value
  {
    if keys != [] {
      DiffMembers(desired, actual, keys[1..], f);
      SectionFindingsIn(keys[0], desired[keys[0]], Get(actual, keys[0]));
    }
  }

  /** Every finding is about a desired section that is absent, or tells of a leaf of one that is there. */
  lemma DiffTells(desired: Object, actual: Object, f: Finding) returns (keys: seq<string>)
    requires Diff(desired, actual).Ok? && f in Diff(desired, actual).value
    ensures f.section in desired
    ensures if f.section in actual then Tells(f, f.section, "", desired[f.section], Get(actual, f.section), keys)
            else desired[f.section] != EMPTY && f == Finding(f.section, "", Str("section present"), Null)
  {
    DiffMembers(desired, actual, SortedSeq(ByName, desired.Keys), f);
    keys := [];
    if f.section in actual {
      keys := FindingTells(f.section, "", desired[f.section], Get(actual, f.section), f);
    }
  }

  lemma DiffNames(desired: Object, actual: Object)
    requires Diff(desired, actual).Ok?
    ensures forall s :: s in desired ==> SectionFindings(s, desired[s], Get(actual, s)).Ok?
    ensures forall s :: s in SectionsOf(Diff(desired, actual).value) <==> s in desired && SectionFindings(s, desired[s], Get(actual, s)) != Ok([])
  {
    var keys := SortedSeq(ByName, desired.Keys);
    DiffBySection(desired, actual, keys);
    forall s | s in desired ensures SectionFindings(s, desired[s], Get(actual, s)).Ok? {
      assert s in keys;
    }
  }

  /** Diff is silent exactly when every desired section is there and in sync. */
  lemma DiffSilent(desired: Object, actual: Object)
    requires forall s :: s in desired ==> desired[s].Obj? && desired[s] != EMPTY
    requires forall s :: s in desired ==> s in actual && (actual[s].Obj? || actual[s].Null?) && InSync(desired[s], Some(actual[s]))
    ensures Diff(desired, actual) == Ok([])
  {
    var keys := SortedSeq(ByName, desired.Keys);
    forall i | 0 <= i < |keys| ensures SectionFindings(keys[i], desired[keys[i]], Get(actual, keys[i])) == Ok([]) {
      assert keys[i] in keys;
      DiffEmpty(keys[i], "", desired[keys[i]], Get(actual, keys[i]));
    }
    DiffBySection(desired, actual, keys);
    NoSectionsNoFindings(Diff(desired, actual).value);
  }

  lemma NoSectionsNoFindings(fs: seq<Finding>)
    ensures SectionsOf(fs) == {} <==> fs == []
  {
    if fs != [] {
      assert fs[0].section in SectionsOf(fs);
    }
  }
}
