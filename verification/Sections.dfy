/** The drifted sections and the order they are enforced in (internal/drift/diff.go, internal/drift/order.go). */
module Sections {
  import opened Findings
  import opened Order
  import opened Sorting
  import opened Drift

  /** Sections: the names met while walking the findings, each once, sorted. */
  method Sections(findings: seq<Finding>) returns (out: seq<string>)
    ensures out == SortedSeq(ByName, SectionsOf(findings))
  {
    var seen: set<string> := {};
    for i := 0 to |findings|
      invariant seen == SectionsOf(findings[..i])
    {
      var before := findings[..i];
      assert findings[..i + 1] == before + [findings[i]];
      SectionsOfAppend(before, [findings[i]]);
      assert [findings[i]][0].section in SectionsOf([findings[i]]);
      seen := seen + {findings[i].section};
    }
    assert findings[..|findings|] == findings;
    out := SortNames(ByName, seen);
  }

  /** Nothing stands after something it belongs before. */
  ghost predicate Sorted(o: By, r: seq<string>)
  {
    forall i, j :: 0 <= i < j < |r| ==> !Before(o, r[j], r[i])
  }

  /** Put x in its place, after its equals. */
  function Place(o: By, x: string, r: seq<string>): seq<string>
  {
    if r == [] then [x]
    else if Before(o, x, r[0]) then [x] + r
    else [r[0]] + Place(o, x, r[1..])
  }

  lemma {:induction false} PlacePermutes(o: By, x: string, r: seq<string>)
    ensures multiset(Place(o, x, r)) == multiset(r) + multiset{x}
  {
    if r != [] {
      assert r == [r[0]] + r[1..];
      PlacePermutes(o, x, r[1..]);
    }
  }

  lemma NotBeforeTransitive(o: By, a: string, b: string, c: string)
    requires Before(o, a, b) && !Before(o, c, b)
    ensures !Before(o, c, a)
  {
    if Before(o, c, a) {
      BeforeTransitive(o, c, a, b);
    }
  }

  lemma {:induction false} PlaceSorts(o: By, x: string, r: seq<string>)
    requires Sorted(o, r)
    ensures Sorted(o, Place(o, x, r))
  {
    if r == [] {
    } else if Before(o, x, r[0]) {
      forall j | 0 <= j < |r| ensures !Before(o, r[j], x) {
        BeforeIrreflexive(o, r[0]);
        NotBeforeTransitive(o, x, r[0], r[j]);
      }
    } else {
      PlaceSorts(o, x, r[1..]);
      PlacePermutes(o, x, r[1..]);
      var rest := Place(o, x, r[1..]);
      forall j | 0 <= j < |rest| ensures !Before(o, rest[j], r[0]) {
        assert rest[j] in multiset(rest);
        if rest[j] != x {
          assert rest[j] in multiset(r[1..]);
          var i :| 0 <= i < |r[1..]| && r[1..][i] == rest[j];
          assert r[i + 1] == rest[j];
        }
      }
    }
  }

  /** ApplyOrder on any names: the same names, sorted by rank and then by name. */
  method ApplyOrder(sections: seq<string>) returns (out: seq<string>)
    ensures multiset(out) == multiset(sections) && Sorted(ByRank, out)
  {
    out := [];
    for i := 0 to |sections|
      invariant multiset(out) == multiset(sections[..i]) && Sorted(ByRank, out)
    {
      PlacePermutes(ByRank, sections[i], out);
      PlaceSorts(ByRank, sections[i], out);
      out := Place(ByRank, sections[i], out);
      assert sections[..i + 1] == sections[..i] + [sections[i]];
    }
    assert sections[..|sections|] == sections;
  }

  lemma SameNames(a: seq<string>, b: seq<string>)
    requires multiset(a) == multiset(b)
    ensures Elements(a) == Elements(b)
  {
    forall x ensures x in a <==> x in b {
      assert x in a <==> x in multiset(a);
      assert x in b <==> x in multiset(b);
    }
  }

  lemma {:induction false} TwiceCounts(r: seq<string>, i: nat, j: nat)
    requires i < j < |r| && r[i] == r[j]
    ensures multiset(r)[r[i]] >= 2
  {
    assert r == r[..j] + [r[j]] + r[j + 1..];
    assert r[j] in multiset(r[..j]) by {
      assert r[..j][i] == r[j];
    }
  }

  lemma {:induction false} AscendingCountsOnce(o: By, r: seq<string>, x: string)
    requires Ascending(o, r)
    ensures multiset(r)[x] <= 1
  {
    if r != [] {
      AscendingHead(o, r);
      AscendingCountsOnce(o, r[1..], x);
      assert r == [r[0]] + r[1..];
      assert r[0] !in Elements(r[1..]);
    }
  }

  /** Of distinct names there is one such order: the sorted sequence of their set. */
  lemma OnlyOrder(sections: seq<string>, out: seq<string>)
    requires Ascending(ByName, sections) && multiset(out) == multiset(sections) && Sorted(ByRank, out)
    ensures out == SortedSeq(ByRank, Elements(sections))
  {
    forall i, j | 0 <= i < j < |out| ensures Before(ByRank, out[i], out[j]) {
      BeforeTotal(ByRank, out[i], out[j]);
      if out[i] == out[j] {
        TwiceCounts(out, i, j);
        AscendingCountsOnce(ByName, sections, out[i]);
      }
    }
    AscendingIsSorted(ByRank, out);
    SameNames(out, sections);
  }

  /** The order applyFindings works through: the distinct drifted sections, safest first. */
  method EnforcementOrder(findings: seq<Finding>) returns (order: seq<string>)
    ensures order == SortedSeq(ByRank, SectionsOf(findings))
  {
    var sections := Sections(findings);
    SortedSeqAscends(ByName, SectionsOf(findings));
    order := ApplyOrder(sections);
    OnlyOrder(sections, order);
    assert Elements(sections) == SectionsOf(findings);
  }
}
