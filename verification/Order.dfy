/**
 The two orders the operator sorts section names by: plain name order, and the
 safest-first order of enforcement (internal/drift/order.go).
 */
module Order {
  import opened Strings

  function Rank(s: string): nat
  {
    if s == "sys" then 0
    else if HasPrefix(s, "switch:") then 1
    else if HasSuffix(s, "_ui") then 1
    else if s == "mqtt" then 2
    else if s == "cloud" then 3
    else if s == "ble" then 3
    else if s == "ws" then 3
    else if s == "firmware" then 4
    else if s == "schedule" then 4
    else if s == "auth" then 100
    else if s == "wifi" then 200
    else 50
  }

  datatype By = ByName | ByRank

  predicate Before(o: By, a: string, b: string)
  {
    if o.ByRank? && Rank(a) != Rank(b) then Rank(a) < Rank(b) else Less(a, b)
  }

  lemma BeforeIrreflexive(o: By, a: string)
    ensures !Before(o, a, a)
  {
    LessIrreflexive(a);
  }

  lemma BeforeTransitive(o: By, a: string, b: string, c: string)
    requires Before(o, a, b) && Before(o, b, c)
    ensures Before(o, a, c)
  {
    if Less(a, b) && Less(b, c) {
      LessTransitive(a, b, c);
    }
  }

  lemma BeforeTotal(o: By, a: string, b: string)
    ensures a == b || Before(o, a, b) || Before(o, b, a)
  {
    LessTotal(a, b);
  }

  /** The stages of enforcement, safest first; what is unknown comes after what is known to be harmless. */
  predicate InStage(i: nat, s: string)
  {
    var harmless := "switch:" <= s || (|s| >= 3 && s[|s| - 3..] == "_ui");
    if i == 0 then s == "sys"
    else if i == 1 then harmless
    else if i == 2 then s == "mqtt"
    else if i == 3 then s in {"cloud", "ble", "ws"}
    else if i == 4 then s in {"firmware", "schedule"}
    else if i == 5 then !harmless && s !in {"sys", "mqtt", "cloud", "ble", "ws", "firmware", "schedule", "auth", "wifi"}
    else if i == 6 then s == "auth"
    else i == 7 && s == "wifi"
  }

  lemma StageRank(i: nat, s: string)
    requires InStage(i, s)
    ensures Rank(s) == if i <= 4 then i else if i == 5 then 50 else if i == 6 then 100 else 200
  {
    assert HasPrefix(s, "switch:") ==> s[6] == ':';
    assert HasSuffix(s, "_ui") ==> s[|s| - 3] == '_';
    if i != 1 && i != 5 {
      NamesAreNeither(s);
    }
  }

  /** No name of a known section is that of a switch or a plug UI. */
  lemma NamesAreNeither(s: string)
    requires s in {"sys", "mqtt", "cloud", "ble", "ws", "firmware", "schedule", "auth", "wifi"}
    ensures !HasPrefix(s, "switch:") && !HasSuffix(s, "_ui")
  {
    assert |s| >= 7 ==> s[1] != 'w';
    assert |s| >= 3 ==> s[|s| - 3] != '_';
  }

  /** Every section has its stage; an earlier stage comes first, and within one the names decide. */
  lemma SafestFirst(a: string, b: string) returns (i: nat, j: nat)
    ensures i < 8 && j < 8 && InStage(i, a) && InStage(j, b)
    ensures Before(ByRank, a, b) <==> i < j || (i == j && Less(a, b))
  {
    i := StageOf(a);
    j := StageOf(b);
    StageRank(i, a);
    StageRank(j, b);
  }

  lemma StageOf(s: string) returns (i: nat)
    ensures i < 8 && InStage(i, s)
  {
    i := if InStage(0, s) then 0 else if InStage(1, s) then 1 else if InStage(2, s) then 2 else if InStage(3, s) then 3
         else if InStage(4, s) then 4 else if InStage(6, s) then 6 else if InStage(7, s) then 7 else 5;
  }

  /** wifi comes after every other section, and auth after every other but wifi. */
  lemma AuthAndWifiLast(s: string)
    ensures s != "wifi" ==> Before(ByRank, s, "wifi")
    ensures s != "wifi" && s != "auth" ==> Before(ByRank, s, "auth")
  {
  }
}
