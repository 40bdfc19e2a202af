/**
 Enforcement against a device that merges what it is sent (internal/controller/apply.go
 and the device's SetConfig): one pass over the drifted sections leaves the desired
 configuration as it was, although it is rendered anew, and nothing to report.
 */
module Fixpoint {
  import opened Wrappers
  import opened Json
  import opened Strings
  import opened Findings
  import opened Order
  import opened Sorting
  import opened Drift
  import opened Desired

  // ----- what is written where

  datatype WifiPasswords = WifiPasswords(sta: string, sta1: string)

  function Inject(m: Object, net: string, pass: string): Object
  {
    if pass == "" || net !in m || !m[net].Obj? then m
    else m[net := Obj(m[net].fields["pass" := Str(pass)])]
  }

  /** wifiPayload: the rendered section with the resolved passwords put into its networks. */
  function WifiPayload(rendered: Json, pw: WifiPasswords): Json
  {
    Obj(Inject(Inject(FieldsOf(rendered), "sta", pw.sta), "sta1", pw.sta1))
  }

  function Payload(s: string, want: Json, pw: WifiPasswords): Json
  {
    if s == "wifi" then WifiPayload(want, pw) else want
  }

  /** The component a section's write reaches: a switch is addressed by its parsed number. */
  function Target(s: string): Option<string>
  {
    if !IsSwitchKey(s) then Some(s)
    else
      var n := Atoi(s[7..]);
      if n.None? then None else Some("switch:" + Itoa(n.value))
  }

  function Write(c: Config, s: string, payload: Json): Option<Config>
  {
    var t := Target(s);
    if t.None? then None else Some(c[t.value := Merge(OrNull(Get(c, t.value)), payload)])
  }

  /** The sections written in order; None when one cannot be addressed. */
  function WriteAll(c: Config, desired: Config, pw: WifiPasswords, order: seq<string>): Option<Config>
    requires forall i :: 0 <= i < |order| ==> order[i] in desired
    decreases |order|
  {
    if order == [] then Some(c)
    else
      var r := Write(c, order[0], Payload(order[0], desired[order[0]], pw));
      if r.None? then None else WriteAll(r.value, desired, pw, order[1..])
  }

  /** A switch section that names its number the way the number prints reaches itself, and no other does. */
  lemma CanonicalTarget(s: string)
    requires IsSwitchKey(s)
    ensures Target(s) == Some(s) <==> exists n: int :: InInt64(n) == Some(n) && s == "switch:" + Itoa(n)
  {
    if Target(s) == Some(s) {
      var n := Atoi(s[7..]).value;
      assert InInt64(n) == Some(n) && s == "switch:" + Itoa(n);
    } else if n: int :| InInt64(n) == Some(n) && s == "switch:" + Itoa(n) {
      assert s[7..] == Itoa(n);
      AtoiOfItoa(n);
    }
  }

  lemma TargetIsCanonical(s: string)
    requires Target(s).Some?
    ensures Target(Target(s).value) == Target(s)
  {
    if IsSwitchKey(s) {
      var n := Atoi(s[7..]).value;
      var t := Target(s).value;
      assert t[..7] == "switch:" && t[7..] == Itoa(n);
      AtoiOfItoa(n);
    }
  }

  lemma TargetIsSwitch(s: string)
    requires IsSwitchKey(s) && Target(s).Some?
    ensures IsSwitchKey(Target(s).value)
  {
    assert Target(s).value[..7] == "switch:";
  }

  // ----- one pass, section by section

  ghost predicate Distinct(order: seq<string>)
  {
    forall i, j :: 0 <= i < j < |order| ==> order[i] != order[j]
  }

  /** Sections that reach themselves are each merged once; the rest of the device is as it was. */
  lemma {:induction false} WriteAllMerges(c: Config, desired: Config, pw: WifiPasswords, order: seq<string>)
    requires Distinct(order) && forall i :: 0 <= i < |order| ==> order[i] in desired && Target(order[i]) == Some(order[i])
    ensures
      var r := WriteAll(c, desired, pw, order);
      && r.Some?
      && (forall s :: s in order ==> Get(r.value, s) == Some(Merge(OrNull(Get(c, s)), Payload(s, desired[s], pw))))
      && (forall s :: s !in order ==> Get(r.value, s) == Get(c, s))
    decreases |order|
  {
    if order != [] {
      var c1 := Write(c, order[0], Payload(order[0], desired[order[0]], pw)).value;
      WriteAllMerges(c1, desired, pw, order[1..]);
      assert order[0] !in order[1..];
      assert forall s :: s in order <==> s == order[0] || s in order[1..];
      assert forall s :: s != order[0] ==> Get(c1, s) == Get(c, s);
    }
  }

  lemma {:induction false} WriteAllElsewhere(c: Config, desired: Config, pw: WifiPasswords, order: seq<string>, s: string)
    requires forall i :: 0 <= i < |order| ==> order[i] in desired
    requires WriteAll(c, desired, pw, order).Some? && Target(s) != Some(s)
    ensures Get(WriteAll(c, desired, pw, order).value, s) == Get(c, s)
    decreases |order|
  {
    if order != [] {
      var c1 := Write(c, order[0], Payload(order[0], desired[order[0]], pw)).value;
      TargetIsCanonical(order[0]);
      WriteAllElsewhere(c1, desired, pw, order[1..], s);
    }
  }

  lemma PayloadCovers(cfg: ProfileConfig, desiredName: string, uiKey: Option<string>, actual: Config, s: string, pw: WifiPasswords)
    requires s in Render(cfg, desiredName, uiKey, actual)
    ensures Covers(Payload(s, Render(cfg, desiredName, uiKey, actual)[s], pw), Render(cfg, desiredName, uiKey, actual)[s])
  {
    var want := Render(cfg, desiredName, uiKey, actual)[s];
    assert Get(Render(cfg, desiredName, uiKey, actual), s) == Some(want);
    CoversSelf(want);
    if s == "wifi" {
      assert RenderWifi(cfg.wifi) == Some(want);
      RenderedIsTree(cfg, desiredName, uiKey, actual, s);
      forall net | net in {"sta", "sta1"} && net in want.fields ensures want.fields[net].Obj? && "pass" !in want.fields[net].fields {
        NoPassRendered(cfg.wifi, net);
      }
      WifiPayloadCovers(want, pw);
    }
  }

  lemma InjectCovers(m: Object, want: Json, net: string, pass: string)
    requires want.Obj? && Covers(Obj(m), want)
    requires net in want.fields ==> want.fields[net].Obj? && "pass" !in want.fields[net].fields
    ensures Covers(Obj(Inject(m, net, pass)), want)
  {
    if net in want.fields && Inject(m, net, pass) != m {
      assert Covers(m[net], want.fields[net]);
      assert Covers(Inject(m, net, pass)[net], want.fields[net]);
    }
  }

  lemma WifiPayloadCovers(want: Json, pw: WifiPasswords)
    requires want.Obj?
    requires forall net :: net in {"sta", "sta1"} && net in want.fields ==> want.fields[net].Obj? && "pass" !in want.fields[net].fields
    ensures Covers(WifiPayload(want, pw), want)
  {
    CoversSelf(want);
    assert Obj(want.fields) == want;
    assert "sta" in {"sta", "sta1"} && "sta1" in {"sta", "sta1"};
    InjectCovers(want.fields, want, "sta", pw.sta);
    InjectCovers(Inject(want.fields, "sta", pw.sta), want, "sta1", pw.sta1);
  }

  // ----- the rendered sections do not move

  lemma ControlsRendered(ui: UI, have: Option<Json>)
    requires ui.buttonInMode.Some?
    ensures
      var want := RenderUI(ui, have);
      want.Some? && Get(want.value.fields, "controls") == Some(Obj(RenderControls(ui.buttonInMode.value, have)))
  {
    var controls := RenderControls(ui.buttonInMode.value, have);
    var k :| k in ManagedControls(have);
    assert k in controls;
    assert IfAny(controls) == Some(Obj(controls));
    var m := Put(Put(map[], "leds", RenderLeds(ui)), "controls", Some(Obj(controls)));
    assert "controls" in m;
    assert RenderUI(ui, have) == IfAny(m);
  }

  /** Writing the managed controls leaves the managed controls what they were. */
  lemma MergedControls(want: Json, controls: Object, have: Option<Json>)
    requires want.Obj? && Get(want.fields, "controls") == Some(Obj(controls)) && controls.Keys == ManagedControls(have)
    ensures ManagedControls(Some(Merge(OrNull(have), want))) == ManagedControls(have)
  {
    var had := OrNull(Get(FieldsOf(OrNull(have)), "controls"));
    MergeAt(OrNull(have), want, "controls");
    MergeKeys(had, Obj(controls));
    assert IsSwitchKey("switch:0");
    assert ControlKeys(Some(Merge(OrNull(have), want))) == ManagedControls(have);
  }

  /** Writing a UI section leaves what is desired of it unchanged, defaulted control included. */
  lemma UiStays(ui: UI, have: Option<Json>)
    requires RenderUI(ui, have).Some?
    ensures RenderUI(ui, Some(Merge(OrNull(have), RenderUI(ui, have).value))) == RenderUI(ui, have)
  {
    if ui.buttonInMode.Some? {
      ControlsRendered(ui, have);
      MergedControls(RenderUI(ui, have).value, RenderControls(ui.buttonInMode.value, have), have);
    }
  }

  /** Writing a section, alone or with others, leaves what is desired of it unchanged. */
  lemma WantedStays(cfg: ProfileConfig, desiredName: string, uiKey: Option<string>, s: string, have: Option<Json>, pw: WifiPasswords)
    requires Wanted(cfg, desiredName, uiKey, s, have).Some?
    ensures
      var want := Wanted(cfg, desiredName, uiKey, s, have);
      Wanted(cfg, desiredName, uiKey, s, Some(Merge(OrNull(have), Payload(s, want.value, pw)))) == want
  {
    if s !in STATIC_SECTIONS && !IsSwitchKey(s) {
      UiStays(cfg.ui.value, have);
    }
  }

  // ----- the pass as a whole

  /** The drifted sections in the order they are written. */
  ghost function WriteOrder(fs: seq<Finding>): seq<string>
  {
    SortedSeq(ByRank, SectionsOf(fs))
  }

  lemma OrderDistinct(fs: seq<Finding>)
    ensures Distinct(WriteOrder(fs))
  {
    var order := WriteOrder(fs);
    SortedSeqAscends(ByRank, SectionsOf(fs));
    forall i, j | 0 <= i < j < |order| ensures order[i] != order[j] {
      BeforeIrreflexive(ByRank, order[i]);
    }
  }

  lemma OrderIsDrift(desired: Config, actual: Config)
    requires Diff(desired, actual).Ok?
    ensures
      var order := WriteOrder(Diff(desired, actual).value);
      && (forall i :: 0 <= i < |order| ==> order[i] in desired)
      && (forall s :: s in order <==> s in desired && SectionFindings(s, desired[s], Get(actual, s)) != Ok([]))
  {
    DiffNames(desired, actual);
    var order := WriteOrder(Diff(desired, actual).value);
    forall i | 0 <= i < |order| ensures order[i] in desired {
      assert order[i] in order;
    }
  }

  /** A section that is not drifted is there, readable and in sync. */
  lemma QuietSection(desired: Config, actual: Config, s: string)
    requires Diff(desired, actual).Ok? && s in desired && desired[s].Obj? && desired[s] != EMPTY
    requires SectionFindings(s, desired[s], Get(actual, s)) == Ok([])
    ensures s in actual && (actual[s].Obj? || actual[s].Null?) && InSync(desired[s], Some(actual[s]))
  {
    DiffEmpty(s, "", desired[s], Get(actual, s));
  }

  /**
   One pass is enough: with every drifted section its own target, writing each drifted
   section's rendered map (for wifi the copy with passwords) leaves what is rendered from
   the new configuration equal to what was rendered from the old, and nothing drifted.
   */
  lemma OnePassSettles(cfg: ProfileConfig, desiredName: string, uiKey: Option<string>, actual: Config, pw: WifiPasswords)
    requires
      var desired := Render(cfg, desiredName, uiKey, actual);
      && Diff(desired, actual).Ok?
      && forall s :: s in WriteOrder(Diff(desired, actual).value) ==> Target(s) == Some(s)
    ensures
      var desired := Render(cfg, desiredName, uiKey, actual);
      var order := WriteOrder(Diff(desired, actual).value);
      && (forall i :: 0 <= i < |order| ==> order[i] in desired)
      && var r := WriteAll(actual, desired, pw, order);
      && r.Some? && Render(cfg, desiredName, uiKey, r.value) == desired && Diff(desired, r.value) == Ok([])
  {
    var desired := Render(cfg, desiredName, uiKey, actual);
    var order := WriteOrder(Diff(desired, actual).value);
    OrderIsDrift(desired, actual);
    OrderDistinct(Diff(desired, actual).value);
    WriteAllMerges(actual, desired, pw, order);
    MergedSettles(cfg, desiredName, uiKey, actual, WriteAll(actual, desired, pw, order).value, pw);
  }

  /** Once every drifted section has its payload merged in and nothing else has moved, what is desired is what it was, and nothing drifts. */
  lemma MergedSettles(cfg: ProfileConfig, desiredName: string, uiKey: Option<string>, actual: Config, now: Config, pw: WifiPasswords)
    requires
      var desired := Render(cfg, desiredName, uiKey, actual);
      && Diff(desired, actual).Ok?
      && forall s :: Get(now, s) == if s in desired && SectionFindings(s, desired[s], Get(actual, s)) != Ok([])
                                    then Some(Merge(OrNull(Get(actual, s)), Payload(s, desired[s], pw))) else Get(actual, s)
    ensures
      var desired := Render(cfg, desiredName, uiKey, actual);
      Render(cfg, desiredName, uiKey, now) == desired && Diff(desired, now) == Ok([])
  {
    var desired := Render(cfg, desiredName, uiKey, actual);
    forall s ensures Get(Render(cfg, desiredName, uiKey, now), s) == Get(desired, s) {
      if s in desired && SectionFindings(s, desired[s], Get(actual, s)) != Ok([]) {
        WantedStays(cfg, desiredName, uiKey, s, Get(actual, s), pw);
      }
    }
    SameObject(Render(cfg, desiredName, uiKey, now), desired);
    forall s | s in desired
      ensures desired[s].Obj? && desired[s] != EMPTY && s in now && (now[s].Obj? || now[s].Null?) && InSync(desired[s], Some(now[s]))
    {
      SectionSettles(cfg, desiredName, uiKey, actual, pw, s, now);
    }
    DiffSilent(desired, now);
  }

  lemma SectionSettles(cfg: ProfileConfig, desiredName: string, uiKey: Option<string>, actual: Config, pw: WifiPasswords, s: string, now: Config)
    requires
      var desired := Render(cfg, desiredName, uiKey, actual);
      && s in desired && Diff(desired, actual).Ok?
      && Get(now, s) == (if SectionFindings(s, desired[s], Get(actual, s)) != Ok([])
                         then Some(Merge(OrNull(Get(actual, s)), Payload(s, desired[s], pw))) else Get(actual, s))
    ensures
      var desired := Render(cfg, desiredName, uiKey, actual);
      desired[s].Obj? && desired[s] != EMPTY && s in now && (now[s].Obj? || now[s].Null?) && InSync(desired[s], Some(now[s]))
  {
    var desired := Render(cfg, desiredName, uiKey, actual);
    RenderedIsTree(cfg, desiredName, uiKey, actual, s);
    if SectionFindings(s, desired[s], Get(actual, s)) != Ok([]) {
      PayloadCovers(cfg, desiredName, uiKey, actual, s, pw);
      WritingSilences(OrNull(Get(actual, s)), Payload(s, desired[s], pw), desired[s]);
    } else {
      QuietSection(desired, actual, s);
    }
  }

  /** A drifted section whose write goes elsewhere is still drifted after the pass. */
  lemma MisaddressedStaysDrifted(cfg: ProfileConfig, desiredName: string, uiKey: Option<string>, actual: Config, pw: WifiPasswords, s: string)
    requires
      var desired := Render(cfg, desiredName, uiKey, actual);
      && Diff(desired, actual).Ok?
      && var order := WriteOrder(Diff(desired, actual).value);
      && (forall i :: 0 <= i < |order| ==> order[i] in desired)
      && s in order && Target(s) != Some(s) && WriteAll(actual, desired, pw, order).Some?
    ensures
      var desired := Render(cfg, desiredName, uiKey, actual);
      var now := WriteAll(actual, desired, pw, WriteOrder(Diff(desired, actual).value)).value;
      Diff(Render(cfg, desiredName, uiKey, now), now) != Ok([])
  {
    var desired := Render(cfg, desiredName, uiKey, actual);
    var order := WriteOrder(Diff(desired, actual).value);
    OrderIsDrift(desired, actual);
    WriteAllElsewhere(actual, desired, pw, order, s);
    var now := WriteAll(actual, desired, pw, order).value;
    var again := Render(cfg, desiredName, uiKey, now);
    assert Get(again, s) == Get(desired, s) == Some(desired[s]);
    NoSectionsNoFindings([]);
    if Diff(again, now).Ok? {
      DiffNames(again, now);
    }
  }

  /** A profile that asks for switches to come up on, and nothing else. */
  const SWITCHES_ON := ProfileConfig(
    None, false, None, None, None, None, Some(Switch(Some("on"), None, None, None, None, None, None, None, None)), None, None)

  const COMES_UP_ON: Json := Obj(map["initial_state" := Str("on")])

  /** A device with this one component, empty. */
  function OneSwitch(s: string): Config
  {
    map[s := EMPTY]
  }

  lemma SwitchWanted(s: string, have: Option<Json>)
    ensures Wanted(SWITCHES_ON, "", None, s, have) == if have.Some? && IsSwitchKey(s) then Some(COMES_UP_ON) else None
  {
    KindsDiffer(s);
    assert "initial_state" in COMES_UP_ON.fields;
  }

  lemma OneRendered(s: string)
    requires IsSwitchKey(s)
    ensures Render(SWITCHES_ON, "", None, OneSwitch(s)) == map[s := COMES_UP_ON]
  {
    var desired := Render(SWITCHES_ON, "", None, OneSwitch(s));
    forall x ensures Get(desired, x) == Get(map[s := COMES_UP_ON], x) {
      SwitchWanted(x, Get(OneSwitch(s), x));
    }
    SameObject(desired, map[s := COMES_UP_ON]);
  }

  lemma OneDrifts(s: string)
    ensures
      var desired := map[s := COMES_UP_ON];
      Diff(desired, OneSwitch(s)).Ok? && WriteOrder(Diff(desired, OneSwitch(s)).value) == [s]
  {
    var desired := map[s := COMES_UP_ON];
    assert "initial_state" in COMES_UP_ON.fields;
    DiffEmpty(s, "", COMES_UP_ON, Some(EMPTY));
    DiffBySection(desired, OneSwitch(s), SortedSeq(ByName, desired.Keys));
    DiffNames(desired, OneSwitch(s));
    var fs := Diff(desired, OneSwitch(s)).value;
    assert SectionsOf(fs) == {s} by {
      assert s in SectionsOf(fs);
    }
    AscendingIsSorted(ByRank, [s]);
    assert Elements([s]) == {s};
  }

  /** Any device whose one switch is named other than its number prints: the one write a pass makes goes astray, and the drift stays. */
  lemma OddSwitchDriftsOn(s: string, pw: WifiPasswords)
    requires IsSwitchKey(s) && Target(s).Some? && Target(s) != Some(s)
    ensures
      var desired := map[s := COMES_UP_ON];
      && Render(SWITCHES_ON, "", None, OneSwitch(s)) == desired && Diff(desired, OneSwitch(s)).Ok?
      && WriteOrder(Diff(desired, OneSwitch(s)).value) == [s]
      && var r := WriteAll(OneSwitch(s), desired, pw, [s]);
      && r.Some? && Diff(Render(SWITCHES_ON, "", None, r.value), r.value) != Ok([])
  {
    var desired := map[s := COMES_UP_ON];
    OneRendered(s);
    OneDrifts(s);
    assert [s][1..] == [];
    DriftsOn(SWITCHES_ON, "", None, OneSwitch(s), desired, pw, [s], s);
  }

  /** Such a name: switch:00 is written as switch:0. */
  lemma OddName()
    ensures IsSwitchKey("switch:00") && Target("switch:00") == Some("switch:0")
  {
    var s := "switch:00";
    assert s[..7] == "switch:" && s[7..] == "00";
    assert Itoa(0) == [Digit(0)] == "0";
    ValueAppend("0", '0');
    assert "0" + ['0'] == "00" && Value("0") == DigitValue('0') == 0;
    assert Atoi(s[7..]) == Some(0);
    assert "switch:" + "0" == "switch:0";
  }

  /** So it happens: on a device with a component switch:00. */
  lemma MisaddressedExample(pw: WifiPasswords)
    ensures
      var actual := OneSwitch("switch:00");
      var desired := Render(SWITCHES_ON, "", None, actual);
      && Diff(desired, actual).Ok? && WriteOrder(Diff(desired, actual).value) == ["switch:00"] && "switch:00" in desired
      && var r := WriteAll(actual, desired, pw, ["switch:00"]);
      && r.Some? && Diff(Render(SWITCHES_ON, "", None, r.value), r.value) != Ok([])
  {
    OddName();
    OddSwitchDriftsOn("switch:00", pw);
  }

  /** MisaddressedStaysDrifted, with what is desired and the order by name. */
  lemma DriftsOn(cfg: ProfileConfig, desiredName: string, uiKey: Option<string>, actual: Config, desired: Config, pw: WifiPasswords,
                     order: seq<string>, s: string)
    requires Render(cfg, desiredName, uiKey, actual) == desired && Diff(desired, actual).Ok? && WriteOrder(Diff(desired, actual).value) == order
    requires (forall i :: 0 <= i < |order| ==> order[i] in desired) && s in order && Target(s) != Some(s)
    requires WriteAll(actual, desired, pw, order).Some?
    ensures
      var now := WriteAll(actual, desired, pw, order).value;
      Diff(Render(cfg, desiredName, uiKey, now), now) != Ok([])
  {
    MisaddressedStaysDrifted(cfg, desiredName, uiKey, actual, pw, s);
  }

  /** One pass settles the device exactly when every drifted section's write reaches that section. */
  lemma OnePassSettlesExactly(cfg: ProfileConfig, desiredName: string, uiKey: Option<string>, actual: Config, pw: WifiPasswords)
    requires Diff(Render(cfg, desiredName, uiKey, actual), actual).Ok?
    ensures
      var desired := Render(cfg, desiredName, uiKey, actual);
      var order := WriteOrder(Diff(desired, actual).value);
      && (forall i :: 0 <= i < |order| ==> order[i] in desired)
      && var r := WriteAll(actual, desired, pw, order);
      (r.Some? && Diff(Render(cfg, desiredName, uiKey, r.value), r.value) == Ok([])) <==> (forall s :: s in order ==> Target(s) == Some(s))
  {
    var desired := Render(cfg, desiredName, uiKey, actual);
    var order := WriteOrder(Diff(desired, actual).value);
    OrderIsDrift(desired, actual);
    if forall s :: s in order ==> Target(s) == Some(s) {
      OnePassSettles(cfg, desiredName, uiKey, actual, pw);
    } else {
      var s :| s in order && Target(s) != Some(s);
      if WriteAll(actual, desired, pw, order).Some? {
        MisaddressedStaysDrifted(cfg, desiredName, uiKey, actual, pw, s);
      }
    }
  }

  /** With at most one plug UI component there is one way to discover it, before the pass and after. */
  lemma UiKeyIsFixed(actual: Config, a: Option<string>, b: Option<string>)
    requires forall j, k :: j in actual && k in actual && IsUiKey(j) && IsUiKey(k) ==> j == k
    requires IsDiscovered(a, actual) && IsDiscovered(b, actual)
    ensures a == b
  {
  }

  lemma OtherWanted(cfg: ProfileConfig, desiredName: string, a: string, b: string, s: string, have: Option<Json>)
    requires IsUiKey(b) && s != b && Wanted(cfg, desiredName, Some(b), s, have).Some?
    ensures Wanted(cfg, desiredName, Some(a), s, have) == Wanted(cfg, desiredName, Some(b), s, have)
  {
  }

  lemma QuietIsInSync(s: string, want: Json, have: Option<Json>)
    requires want != EMPTY && SectionFindings(s, want, have) == Ok([])
    ensures have.Some? && (have.value.Obj? || have.value.Null?) && InSync(want, have)
  {
    DiffEmpty(s, "", want, have);
  }

  /**
   With two of them, a device settled for one choice is settled for the other exactly
   when that other component was in sync to begin with: the pass never writes it.
   */
  lemma OtherUiSettlesExactly(cfg: ProfileConfig, desiredName: string, a: string, b: string, actual: Config, now: Config)
    requires IsUiKey(a) && IsUiKey(b) && a != b && Get(now, b) == Get(actual, b)
    requires Diff(Render(cfg, desiredName, Some(a), now), now) == Ok([])
    ensures
      var want := Wanted(cfg, desiredName, Some(b), b, Get(actual, b));
      Diff(Render(cfg, desiredName, Some(b), now), now) == Ok([]) <==> want.None? || SectionFindings(b, want.value, Get(actual, b)) == Ok([])
  {
    var one, other := Render(cfg, desiredName, Some(a), now), Render(cfg, desiredName, Some(b), now);
    var want := Wanted(cfg, desiredName, Some(b), b, Get(actual, b));
    KindsDiffer(a);
    KindsDiffer(b);
    assert Get(other, b) == want;
    DiffNames(one, now);
    NoSectionsNoFindings([]);
    if want.None? || SectionFindings(b, want.value, Get(actual, b)) == Ok([]) {
      forall s | s in other
        ensures other[s].Obj? && other[s] != EMPTY && s in now && (now[s].Obj? || now[s].Null?) && InSync(other[s], Some(now[s]))
      {
        assert Get(other, s) == Some(other[s]);
        RenderedIsTree(cfg, desiredName, Some(b), now, s);
        if s != b {
          OtherWanted(cfg, desiredName, a, b, s, Get(now, s));
          assert Get(one, s) == Some(other[s]);
        }
        QuietIsInSync(s, other[s], Get(now, s));
      }
      DiffSilent(other, now);
    } else if Diff(other, now).Ok? {
      DiffNames(other, now);
    }
  }

  /** The pass never writes a plug UI component it did not discover. */
  lemma OtherUiUntouched(cfg: ProfileConfig, desiredName: string, a: string, b: string, actual: Config, pw: WifiPasswords)
    requires IsUiKey(b) && a != b
    requires
      var desired := Render(cfg, desiredName, Some(a), actual);
      && Diff(desired, actual).Ok?
      && forall s :: s in WriteOrder(Diff(desired, actual).value) ==> Target(s) == Some(s)
    ensures
      var desired := Render(cfg, desiredName, Some(a), actual);
      var order := WriteOrder(Diff(desired, actual).value);
      && (forall i :: 0 <= i < |order| ==> order[i] in desired)
      && WriteAll(actual, desired, pw, order).Some? && Get(WriteAll(actual, desired, pw, order).value, b) == Get(actual, b)
  {
    var desired := Render(cfg, desiredName, Some(a), actual);
    var order := WriteOrder(Diff(desired, actual).value);
    KindsDiffer(b);
    OrderIsDrift(desired, actual);
    OrderDistinct(Diff(desired, actual).value);
    WriteAllMerges(actual, desired, pw, order);
    assert Get(desired, b) == None;
  }
}
