/** Sorted sequences of strings: what sorting a set yields, and that it yields nothing else. */
module Sorting {
  import opened Strings
  import opened Order

  ghost predicate IsMin(o: By, m: string, s: set<string>)
  {
    m in s && forall x :: x in s && x != m ==> Before(o, m, x)
  }

  lemma {:induction false} MinExists(o: By, s: set<string>)
    requires s != {}
    ensures exists m :: IsMin(o, m, s)
  {
    var x :| x in s;
    var rest := s - {x};
    if rest == {} {
      assert s == {x};
      assert IsMin(o, x, s);
    } else {
      MinExists(o, rest);
      var m :| IsMin(o, m, rest);
      BeforeTotal(o, x, m);
      if Before(o, x, m) {
        forall y | y in s && y != x ensures Before(o, x, y) {
          if y != m {
            BeforeTransitive(o, x, m, y);
          }
        }
        assert IsMin(o, x, s);
      } else {
        assert IsMin(o, m, s);
      }
    }
  }

  /** The elements of the set, each once, in order. */
  ghost function SortedSeq(o: By, s: set<string>): (r: seq<string>)
    ensures forall x :: x in r <==> x in s
  {
    if s == {} then []
    else
      MinExists(o, s);
      var m :| IsMin(o, m, s);
      [m] + SortedSeq(o, s - {m})
  }

  /** Each element comes before all later ones. */
  ghost predicate Ascending(o: By, r: seq<string>)
  {
    forall i, j :: 0 <= i < j < |r| ==> Before(o, r[i], r[j])
  }

  lemma {:induction false} SortedSeqAscends(o: By, s: set<string>)
    ensures Ascending(o, SortedSeq(o, s))
  {
    if s != {} {
      var r := SortedSeq(o, s);
      var rest := s - {r[0]};
      SortedSeqAscends(o, rest);
      assert r[1..] == SortedSeq(o, rest);
      forall j | 0 < j < |r| ensures Before(o, r[0], r[j]) {
        assert r[j] == r[1..][j - 1] && r[j] in rest;
      }
    }
  }

  ghost function Elements(r: seq<string>): set<string>
  {
    set x | x in r
  }

  lemma AscendingHead(o: By, r: seq<string>)
    requires Ascending(o, r) && r != []
    ensures IsMin(o, r[0], Elements(r))
    ensures Ascending(o, r[1..]) && Elements(r[1..]) == Elements(r) - {r[0]}
  {
    forall x | x in Elements(r) && x != r[0] ensures Before(o, r[0], x) && x in r[1..] {
      var j :| 0 <= j < |r| && r[j] == x;
      assert r[1..][j - 1] == x;
    }
    forall x | x in r[1..] ensures x != r[0] {
      var j :| 0 <= j < |r[1..]| && r[1..][j] == x;
      assert Before(o, r[0], r[j + 1]);
      BeforeIrreflexive(o, r[0]);
    }
  }

  lemma MinUnique(o: By, a: string, b: string, s: set<string>)
    requires IsMin(o, a, s) && IsMin(o, b, s)
    ensures a == b
  {
    if a != b {
      BeforeTransitive(o, a, b, a);
      BeforeIrreflexive(o, a);
    }
  }

  /** An ascending sequence is the sorted sequence of its elements: there is only one. */
  lemma {:induction false} AscendingIsSorted(o: By, r: seq<string>)
    requires Ascending(o, r)
    ensures r == SortedSeq(o, Elements(r))
  {
    if r != [] {
      assert r[0] in Elements(r);
      AscendingHead(o, r);
      SortedHeadIsMin(o, Elements(r));
      MinUnique(o, r[0], SortedSeq(o, Elements(r))[0], Elements(r));
      AscendingIsSorted(o, r[1..]);
      assert r == [r[0]] + r[1..];
    }
  }

  lemma SortedHeadIsMin(o: By, s: set<string>)
    requires s != {}
    ensures IsMin(o, SortedSeq(o, s)[0], s)
    ensures SortedSeq(o, s) == [SortedSeq(o, s)[0]] + SortedSeq(o, s - {SortedSeq(o, s)[0]})
  {
  }

  // ----- sorting as it is done

  /** Insert into an ascending sequence, unless already there. */
  function Insert(o: By, x: string, r: seq<string>): seq<string>
  {
    if r == [] then [x]
    else if x == r[0] then r
    else if Before(o, x, r[0]) then [x] + r
    else [r[0]] + Insert(o, x, r[1..])
  }

  lemma {:induction false} InsertAscends(o: By, x: string, r: seq<string>)
    requires Ascending(o, r)
    ensures Ascending(o, Insert(o, x, r))
    ensures Elements(Insert(o, x, r)) == Elements(r) + {x}
  {
    if r == [] || x == r[0] {
      assert Elements([x]) == {x};
    } else if Before(o, x, r[0]) {
      forall j | 0 < j < |r| ensures Before(o, x, r[j]) {
        BeforeTransitive(o, x, r[0], r[j]);
      }
    } else {
      InsertAscends(o, x, r[1..]);
      BeforeTotal(o, x, r[0]);
      var rest := Insert(o, x, r[1..]);
      forall j | 0 <= j < |rest| ensures Before(o, r[0], rest[j]) {
        assert rest[j] in Elements(rest);
        if rest[j] != x {
          var i :| 0 <= i < |r[1..]| && r[1..][i] == rest[j];
          assert r[i + 1] == rest[j];
        }
      }
      assert Elements([r[0]] + rest) == {r[0]} + Elements(rest);
    }
  }

  /** Sort distinct names: the result is their one sorted sequence. */
  method SortNames(o: By, names: set<string>) returns (out: seq<string>)
    ensures out == SortedSeq(o, names)
  {
    out := [];
    var rest := names;
    while rest != {}
      invariant rest <= names && Ascending(o, out) && Elements(out) == names - rest
      decreases rest
    {
      var x :| x in rest;
      rest := rest - {x};
      InsertAscends(o, x, out);
      out := Insert(o, x, out);
    }
    assert names - rest == names;
    AscendingIsSorted(o, out);
  }
}
