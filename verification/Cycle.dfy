/**
 One reconcile cycle as a relation on what the device shows and what the object's status
 says, and what any run of such cycles does: enforcement writes only where it must, and
 once it has written and looked again it never writes the same thing twice
 (internal/controller/shellydevice_controller.go).
 */
module Cycle {
  import opened Wrappers
  import opened Json
  import opened Strings
  import opened Findings
  import opened Order
  import opened Sorting
  import opened Drift
  import opened Desired
  import opened Window
  import Jobs
  import Schedule
  import Firmware
  import Fixpoint

  // ----- the matched profile, and the conditions a cycle reports

  datatype Profile = Profile(
    name: string, enforce: bool, config: ProfileConfig, auth: Option<bool>, firmware: Option<bool>, schedules: Option<seq<Jobs.JobSpec>>,
    updateWhenAvailable: bool, updateWindow: Option<Window>, rebootWhenRequired: bool, rebootWindow: Option<Window>)

  /** Why a condition is what it is. */
  datatype Reason =
    | Paused | Offline | NoProfile | ProfileNotFound | CredentialsError | ConfigFetchFailed | AuthRequired
    | InSync | Drifted | ApplyFailed | WifiApplied | NotConverging

  datatype Condition = Condition(reason: Reason, message: string)

  datatype Verdict = True | False | Unknown

  /** A condition's status, which its reason decides. */
  function VerdictOf(r: Reason): Verdict
  {
    if r.InSync? then True
    else if r.Drifted? || r.ApplyFailed? || r.NotConverging? then False
    else Unknown
  }

  function JoinAll(parts: seq<string>, sep: string): string
  {
    if parts == [] then "" else if |parts| == 1 then parts[0] else parts[0] + sep + JoinAll(parts[1..], sep)
  }

  function WithWarnings(msg: string, warns: seq<string>): string
  {
    if warns == [] then msg else msg + " (warnings: " + JoinAll(warns, "; ") + ")"
  }

  /** The warnings never hide what changed: with the same ones, only the same message reads the same. */
  lemma WarningsKeepMessagesApart(a: string, b: string, warns: seq<string>)
    requires WithWarnings(a, warns) == WithWarnings(b, warns)
    ensures a == b
  {
    if warns != [] {
      var tail := " (warnings: " + JoinAll(warns, "; ") + ")";
      assert WithWarnings(a, warns) == a + tail && WithWarnings(b, warns) == b + tail;
      assert |a| == |b|;
      assert (a + tail)[..|a|] == a && (b + tail)[..|b|] == b;
    }
  }

  ghost predicate OccursAt(s: string, text: string, i: nat)
  {
    i + |s| <= |text| && text[i..i + |s|] == s
  }

  /** The one text occurs in the other. */
  ghost predicate Occurs(s: string, text: string)
  {
    exists i: nat :: OccursAt(s, text, i)
  }

  lemma OccursInside(a: string, s: string, b: string)
    ensures Occurs(s, a + s + b)
  {
    assert OccursAt(s, a + s + b, |a|);
  }

  lemma OccursFurther(s: string, a: string, text: string, b: string)
    requires Occurs(s, text)
    ensures Occurs(s, a + text + b)
  {
    var i: nat :| OccursAt(s, text, i);
    assert (a + text + b)[|a| + i..|a| + i + |s|] == text[i..i + |s|];
    assert OccursAt(s, a + text + b, |a| + i);
  }

  lemma {:induction false} JoinedOccurs(parts: seq<string>, sep: string, i: nat)
    requires i < |parts|
    ensures Occurs(parts[i], JoinAll(parts, sep))
  {
    if |parts| == 1 {
      OccursInside("", parts[0], "");
      assert "" + parts[0] + "" == parts[0];
    } else if i == 0 {
      OccursInside("", parts[0], sep + JoinAll(parts[1..], sep));
      assert "" + parts[0] + (sep + JoinAll(parts[1..], sep)) == JoinAll(parts, sep);
    } else {
      JoinedOccurs(parts[1..], sep, i - 1);
      OccursFurther(parts[i], parts[0] + sep, JoinAll(parts[1..], sep), "");
      assert parts[0] + sep + JoinAll(parts[1..], sep) + "" == JoinAll(parts, sep);
    }
  }

  /** The message stands first, unchanged without warnings, and every warning is told. */
  lemma WarningsAreTold(msg: string, warns: seq<string>, i: nat)
    ensures msg <= WithWarnings(msg, warns) && (warns == [] ==> WithWarnings(msg, warns) == msg)
    ensures i < |warns| ==> Occurs(warns[i], WithWarnings(msg, warns))
  {
    if i < |warns| {
      JoinedOccurs(warns, "; ", i);
      OccursFurther(warns[i], msg + " (warnings: ", JoinAll(warns, "; "), ")");
      assert msg + " (warnings: " + JoinAll(warns, "; ") + ")" == WithWarnings(msg, warns);
    }
  }

  // ----- what a cycle finds

  const SECTION_AUTH := "auth"
  const SECTION_SCHEDULE := "schedule"

  function AuthFindings(want: Option<bool>, now: bool): seq<Finding>
  {
    if want.Some? && want.value != now then [Finding(SECTION_AUTH, "enable", Bool(want.value), Bool(now))] else []
  }

  function ActionFinding(specs: seq<Jobs.JobSpec>, a: Schedule.Action): Finding
  {
    match a
    case Update(job) => Finding(SECTION_SCHEDULE, "job:" + Itoa(job.id) + ":enable", Bool(job.enable), Bool(!job.enable))
    case Create(si) =>
      var timespec := if si < |specs| then specs[si].timespec else "";
      Finding(SECTION_SCHEDULE, "spec:" + Itoa(si) + ":timespec=" + timespec, Str("present"), Str("absent"))
    case Delete(job) => Finding(SECTION_SCHEDULE, "job:" + Itoa(job.id), Str("absent"), Str("present"))
  }

  function ScheduleFindings(section: Option<seq<Jobs.JobSpec>>, jobs: seq<Jobs.Job>): seq<Finding>
  {
    var plan := Schedule.Plan(section, jobs);
    seq(|plan|, i requires 0 <= i < |plan| => ActionFinding(if section.Some? then section.value else [], plan[i]))
  }

  function FirmwareSection(want: Option<bool>, jobs: seq<Jobs.Job>): seq<Finding>
  {
    if want.Some? then Firmware.FirmwareFindings(want.value, jobs) else []
  }

  /** What a device shows: its configuration and its job list. */
  datatype View = View(config: Config, jobs: seq<Jobs.Job>)

  /** All findings of one look at the device, in the order they are gathered. */
  ghost function FindingsOf(p: Profile, name: string, key: Option<string>, v: View, authEnabled: bool): Result<seq<Finding>, string>
  {
    var d := Diff(Render(p.config, name, key, v.config), v.config);
    if d.Err? then d
    else Ok(d.value + AuthFindings(p.auth, authEnabled) + FirmwareSection(p.firmware, v.jobs) + ScheduleFindings(p.schedules, v.jobs))
  }

  /** The plug UI component a look at the device settles on, if the profile asks for one. */
  ghost predicate Chosen(p: Profile, key: Option<string>, config: Config)
  {
    p.config.ui.Some? ==> IsDiscovered(key, config)
  }

  /** A look at the device can find exactly these. */
  ghost predicate Observed(p: Profile, name: string, v: View, authEnabled: bool, fs: seq<Finding>)
  {
    exists key :: Chosen(p, key, v.config) && FindingsOf(p, name, key, v, authEnabled) == Ok(fs)
  }

  ghost predicate OneUi(config: Config)
  {
    forall j, k :: j in config && k in config && IsUiKey(j) && IsUiKey(k) ==> j == k
  }

  /** The sections that are no component of the device's configuration. */
  predicate IsPseudo(s: string)
  {
    s == SECTION_AUTH || s == Firmware.SECTION_FIRMWARE || s == SECTION_SCHEDULE
  }

  lemma PseudoKinds(s: string)
    requires IsPseudo(s)
    ensures s !in STATIC_SECTIONS && !IsSwitchKey(s) && !IsUiKey(s)
  {
    if s == SECTION_AUTH {
      assert s[3] == 'h';
    } else if s == SECTION_SCHEDULE {
      assert s[1] == 'c' && s[7] == 'e';
    } else {
      assert s[0] == 'f' && s[7] == 'e';
    }
  }

  /** What writing the sections can alter: a switch section is addressed by its number, so its write may reach another. */
  ghost function Reached(written: set<string>): set<string>
  {
    set s | s in written && Fixpoint.Target(s).Some? :: Fixpoint.Target(s).value
  }

  /** The device differs at most in these sections. */
  ghost predicate SameOutside(written: set<string>, v: View, v': View)
  {
    && (forall s :: s !in written ==> Get(v'.config, s) == Get(v.config, s))
    && (Firmware.SECTION_FIRMWARE !in written ==> Jobs.Select(true, v'.jobs) == Jobs.Select(true, v.jobs))
    && (SECTION_SCHEDULE !in written ==> Jobs.Select(false, v'.jobs) == Jobs.Select(false, v.jobs))
  }

  // ----- drift stays where it was written

  lemma FirmwareSectionIn(want: Option<bool>, jobs: seq<Jobs.Job>)
    ensures AllIn(FirmwareSection(want, jobs), Firmware.SECTION_FIRMWARE)
  {
    if want.Some? {
      JobFindingsIn(want.value, Jobs.Select(true, jobs));
    }
  }

  lemma {:induction false} JobFindingsIn(want: bool, updates: seq<Jobs.Job>)
    ensures AllIn(Firmware.JobFindings(want, updates), Firmware.SECTION_FIRMWARE)
  {
    if updates != [] {
      JobFindingsIn(want, updates[1..]);
    }
  }

  lemma SectionOfAll(fs: seq<Finding>, s: string)
    requires AllIn(fs, s)
    ensures SectionsOf(fs) == if fs == [] then {} else {s}
  {
    if fs != [] {
      assert fs[0].section in SectionsOf(fs);
    }
  }

  lemma FourParts(d: seq<Finding>, a: seq<Finding>, f: seq<Finding>, s: seq<Finding>)
    ensures SectionsOf(d + a + f + s) == SectionsOf(d) + SectionsOf(a) + SectionsOf(f) + SectionsOf(s)
  {
    SectionsOfAppend(d, a);
    SectionsOfAppend(d + a, f);
    SectionsOfAppend(d + a + f, s);
  }

  /** A section is named for what its owner found in it. */
  lemma FindingsNames(p: Profile, name: string, key: Option<string>, v: View, authEnabled: bool, s: string)
    requires FindingsOf(p, name, key, v, authEnabled).Ok?
    ensures Diff(Render(p.config, name, key, v.config), v.config).Ok?
    ensures s in SectionsOf(FindingsOf(p, name, key, v, authEnabled).value) <==>
              || s in SectionsOf(Diff(Render(p.config, name, key, v.config), v.config).value)
              || (s == SECTION_AUTH && AuthFindings(p.auth, authEnabled) != [])
              || (s == Firmware.SECTION_FIRMWARE && FirmwareSection(p.firmware, v.jobs) != [])
              || (s == SECTION_SCHEDULE && ScheduleFindings(p.schedules, v.jobs) != [])
  {
    FirmwareSectionIn(p.firmware, v.jobs);
    FourNamed(Diff(Render(p.config, name, key, v.config), v.config).value, AuthFindings(p.auth, authEnabled),
              FirmwareSection(p.firmware, v.jobs), ScheduleFindings(p.schedules, v.jobs), s);
  }

  lemma FourNamed(d: seq<Finding>, auth: seq<Finding>, firmware: seq<Finding>, schedule: seq<Finding>, s: string)
    requires AllIn(auth, SECTION_AUTH) && AllIn(firmware, Firmware.SECTION_FIRMWARE) && AllIn(schedule, SECTION_SCHEDULE)
    ensures s in SectionsOf(d + auth + firmware + schedule) <==>
              || s in SectionsOf(d)
              || (s == SECTION_AUTH && auth != [])
              || (s == Firmware.SECTION_FIRMWARE && firmware != [])
              || (s == SECTION_SCHEDULE && schedule != [])
  {
    FourParts(d, auth, firmware, schedule);
    SectionOfAll(auth, SECTION_AUTH);
    SectionOfAll(firmware, Firmware.SECTION_FIRMWARE);
    SectionOfAll(schedule, SECTION_SCHEDULE);
  }

  /** What is desired of a section no one wrote is what was desired of it before. */
  lemma UnwrittenWanted(p: Profile, name: string, k1: Option<string>, k2: Option<string>, c1: Config, c2: Config, s: string)
    requires Chosen(p, k1, c1) && Chosen(p, k2, c2) && OneUi(c1) && Get(c1, s) == Get(c2, s)
    requires Wanted(p.config, name, k2, s, Get(c2, s)).Some?
    ensures Wanted(p.config, name, k1, s, Get(c1, s)) == Wanted(p.config, name, k2, s, Get(c2, s))
  {
    if s !in STATIC_SECTIONS && !IsSwitchKey(s) {
      assert s in c2 && IsUiKey(s) && s in c1;
    }
  }

  /** A component nobody wrote that drifts now drifted before. */
  lemma ComponentDriftedBefore(p: Profile, name: string, k1: Option<string>, k2: Option<string>, c1: Config, c2: Config, s: string)
    requires Chosen(p, k1, c1) && Chosen(p, k2, c2) && OneUi(c1) && Get(c1, s) == Get(c2, s)
    requires Diff(Render(p.config, name, k1, c1), c1).Ok? && Diff(Render(p.config, name, k2, c2), c2).Ok?
    requires s in SectionsOf(Diff(Render(p.config, name, k2, c2), c2).value)
    ensures s in SectionsOf(Diff(Render(p.config, name, k1, c1), c1).value)
  {
    var d1, d2 := Render(p.config, name, k1, c1), Render(p.config, name, k2, c2);
    DiffNames(d1, c1);
    DiffNames(d2, c2);
    assert Get(d2, s) == Some(d2[s]);
    UnwrittenWanted(p, name, k1, k2, c1, c2, s);
    assert Get(d1, s) == Some(d2[s]);
  }

  /**
   After a pass every finding is about a section that was written: a device that keeps
   what is not written to it cannot drift anywhere else.
   */
  lemma DriftOnlyWhereWritten(p: Profile, name: string, k1: Option<string>, k2: Option<string>, v1: View, v2: View, authEnabled: bool)
    requires Chosen(p, k1, v1.config) && Chosen(p, k2, v2.config) && OneUi(v1.config)
    requires AuthFindings(p.auth, authEnabled) == []
    requires FindingsOf(p, name, k1, v1, authEnabled).Ok? && FindingsOf(p, name, k2, v2, authEnabled).Ok?
    requires SameOutside(SectionsOf(FindingsOf(p, name, k1, v1, authEnabled).value), v1, v2)
    ensures SectionsOf(FindingsOf(p, name, k2, v2, authEnabled).value) <= SectionsOf(FindingsOf(p, name, k1, v1, authEnabled).value)
  {
    var written := SectionsOf(FindingsOf(p, name, k1, v1, authEnabled).value);
    forall s | s in SectionsOf(FindingsOf(p, name, k2, v2, authEnabled).value) ensures s in written {
      FindingsNames(p, name, k1, v1, authEnabled, s);
      FindingsNames(p, name, k2, v2, authEnabled, s);
      var d1, d2 := Render(p.config, name, k1, v1.config), Render(p.config, name, k2, v2.config);
      if s in SectionsOf(Diff(d2, v2.config).value) && s !in written {
        ComponentDriftedBefore(p, name, k1, k2, v1.config, v2.config, s);
      }
    }
  }

  lemma UiIsOnDevice(cfg: ProfileConfig, name: string, key: Option<string>, config: Config, s: string)
    requires IsUiKey(s) && s in Render(cfg, name, key, config)
    ensures s in config
  {
    KindsDiffer(s);
    assert Get(Render(cfg, name, key, config), s).Some?;
  }

  /** The sections of a device's own configuration that can be written are sections desired of it. */
  lemma WrittenUiWasThere(p: Profile, name: string, key: Option<string>, v: View, authEnabled: bool, s: string)
    requires FindingsOf(p, name, key, v, authEnabled).Ok? && IsUiKey(s)
    requires s in SectionsOf(FindingsOf(p, name, key, v, authEnabled).value)
    ensures s in v.config
  {
    FindingsNames(p, name, key, v, authEnabled, s);
    var d := Render(p.config, name, key, v.config);
    assert s[|s| - 3] == '_';
    assert s in SectionsOf(Diff(d, v.config).value);
    DiffNames(d, v.config);
    UiIsOnDevice(p.config, name, key, v.config, s);
  }

  lemma StillOneUi(p: Profile, name: string, key: Option<string>, v1: View, v2: View, authEnabled: bool)
    requires Chosen(p, key, v1.config) && OneUi(v1.config) && FindingsOf(p, name, key, v1, authEnabled).Ok?
    requires SameOutside(Reached(SectionsOf(FindingsOf(p, name, key, v1, authEnabled).value)), v1, v2)
    ensures OneUi(v2.config)
  {
    var written := SectionsOf(FindingsOf(p, name, key, v1, authEnabled).value);
    forall j | j in v2.config && IsUiKey(j) ensures j in v1.config {
      if j in Reached(written) {
        ReachedUi(written, j);
        WrittenUiWasThere(p, name, key, v1, authEnabled, j);
      } else {
        assert Get(v2.config, j) == Get(v1.config, j);
      }
    }
  }

  lemma ReachedUi(written: set<string>, j: string)
    requires j in Reached(written) && IsUiKey(j)
    ensures j in written
  {
    var s :| s in written && Fixpoint.Target(s) == Some(j);
    KindsDiffer(j);
    if IsSwitchKey(s) {
      Fixpoint.TargetIsSwitch(s);
    }
  }

  /** A drifted section whose write goes elsewhere is as it was, and still drifted. */
  lemma MisaddressedIsLeft(p: Profile, name: string, k1: Option<string>, k2: Option<string>, v1: View, v2: View, authEnabled: bool, s: string)
    requires FindingsOf(p, name, k1, v1, authEnabled).Ok? && FindingsOf(p, name, k2, v2, authEnabled).Ok?
    requires SameOutside(Reached(SectionsOf(FindingsOf(p, name, k1, v1, authEnabled).value)), v1, v2)
    requires s in SectionsOf(FindingsOf(p, name, k1, v1, authEnabled).value) && Fixpoint.Target(s) != Some(s)
    ensures s in SectionsOf(FindingsOf(p, name, k2, v2, authEnabled).value)
  {
    if IsPseudo(s) {
      PseudoKinds(s);
    }
    NotReached(SectionsOf(FindingsOf(p, name, k1, v1, authEnabled).value), s);
    assert Get(v2.config, s) == Get(v1.config, s);
    FindingsNames(p, name, k1, v1, authEnabled, s);
    FindingsNames(p, name, k2, v2, authEnabled, s);
    SwitchStillDrifted(p, name, k1, k2, v1.config, v2.config, s);
  }

  lemma NotReached(written: set<string>, s: string)
    requires Fixpoint.Target(s) != Some(s)
    ensures s !in Reached(written)
  {
    forall x | x in written && Fixpoint.Target(x).Some? ensures Fixpoint.Target(x).value != s {
      Fixpoint.TargetIsCanonical(x);
    }
  }

  lemma SwitchStillDrifted(p: Profile, name: string, k1: Option<string>, k2: Option<string>, c1: Config, c2: Config, s: string)
    requires IsSwitchKey(s) && Get(c1, s) == Get(c2, s)
    requires Diff(Render(p.config, name, k1, c1), c1).Ok? && Diff(Render(p.config, name, k2, c2), c2).Ok?
    requires s in SectionsOf(Diff(Render(p.config, name, k1, c1), c1).value)
    ensures s in SectionsOf(Diff(Render(p.config, name, k2, c2), c2).value)
  {
    var d1, d2 := Render(p.config, name, k1, c1), Render(p.config, name, k2, c2);
    DiffNames(d1, c1);
    DiffNames(d2, c2);
    KindsDiffer(s);
    assert Get(d1, s) == Some(d1[s]);
    assert Get(d2, s) == Get(d1, s);
  }

  lemma SameRender(p: Profile, name: string, k1: Option<string>, k2: Option<string>, config: Config)
    requires OneUi(config) && Chosen(p, k1, config) && Chosen(p, k2, config)
    ensures Render(p.config, name, k1, config) == Render(p.config, name, k2, config)
  {
    var d1, d2 := Render(p.config, name, k1, config), Render(p.config, name, k2, config);
    forall s ensures Get(d1, s) == Get(d2, s) {
      if Get(d2, s).Some? {
        UnwrittenWanted(p, name, k1, k2, config, config, s);
      } else if Get(d1, s).Some? {
        UnwrittenWanted(p, name, k2, k1, config, config, s);
      }
    }
    SameObject(d1, d2);
  }

  /** With one plug UI component at most, looking twice finds the same twice. */
  lemma SameLookSameFindings(p: Profile, name: string, v: View, authEnabled: bool, a: seq<Finding>, b: seq<Finding>)
    requires OneUi(v.config) && Observed(p, name, v, authEnabled, a) && Observed(p, name, v, authEnabled, b)
    ensures a == b
  {
    var k1 :| Chosen(p, k1, v.config) && FindingsOf(p, name, k1, v, authEnabled) == Ok(a);
    var k2 :| Chosen(p, k2, v.config) && FindingsOf(p, name, k2, v, authEnabled) == Ok(b);
    SameFindings(p, name, k1, k2, v, authEnabled);
  }

  lemma SameFindings(p: Profile, name: string, k1: Option<string>, k2: Option<string>, v: View, authEnabled: bool)
    requires OneUi(v.config) && Chosen(p, k1, v.config) && Chosen(p, k2, v.config)
    ensures FindingsOf(p, name, k1, v, authEnabled) == FindingsOf(p, name, k2, v, authEnabled)
  {
    SameRender(p, name, k1, k2, v.config);
  }

  // ----- one cycle

  /** The resolved inputs of a cycle; `summarize` stands for the text of the findings. */
  datatype Inputs = Inputs(profile: Profile, name: string, warns: seq<string>, summarize: seq<Finding> -> string)
  {
    function Message(fs: seq<Finding>): string
    {
      WithWarnings(summarize(fs), warns)
    }

    function AllWell(): string
    {
      WithWarnings("configuration matches profile " + profile.name, warns)
    }

    /** What a cycle that was not cut short reports. */
    function Outlook(fs: seq<Finding>): Condition
    {
      if fs == [] then Condition(InSync, AllWell()) else Condition(Drifted, Message(fs))
    }

    /** The previous cycle wrote exactly this and it did not take. */
    predicate IsDamped(condition: Option<Condition>, fs: seq<Finding>)
    {
      condition == Some(Condition(NotConverging, Message(fs)))
    }
  }

  datatype Snapshot = Snapshot(view: View, authEnabled: bool, condition: Option<Condition>, drifted: seq<string>)
  {
    ghost predicate Finds(inp: Inputs, fs: seq<Finding>)
    {
      Observed(inp.profile, inp.name, view, authEnabled, fs)
    }
  }

  /** How a cycle ends. */
  datatype Outcome =
    | Waiting                                                    // an update is installing, or was just requested
    | Failed                                                     // any error, or a device that is not to be looked at
    | Reported(found: seq<Finding>)                              // nothing to enforce
    | Damped(found: seq<Finding>)                                // not enforced again
    | Enforced(found: seq<Finding>, left: seq<Finding>)          // written, looked at again

  /** A cycle may write to the device only when it ends in one of these. */
  predicate MayWrite(out: Outcome)
  {
    out.Enforced? || out.Failed?
  }

  ghost predicate CycleStep(inp: Inputs, s: Snapshot, s': Snapshot, out: Outcome)
  {
    && s'.authEnabled == s.authEnabled
    && (!MayWrite(out) ==> s'.view == s.view)
    && match out
       case Waiting => s'.condition == s.condition && s'.drifted == s.drifted
       case Failed => true
       case Reported(fs) =>
         && s.Finds(inp, fs) && (inp.profile.enforce ==> fs == [])
         && s'.condition == Some(inp.Outlook(fs)) && s'.drifted == SortedSeq(ByName, SectionsOf(fs))
       case Damped(fs) =>
         && s.Finds(inp, fs) && inp.profile.enforce && fs != []
         && inp.IsDamped(s.condition, fs) && s'.condition == s.condition && s'.drifted == SortedSeq(ByName, SectionsOf(fs))
       case Enforced(fs, left) =>
         && s.Finds(inp, fs) && inp.profile.enforce && fs != [] && !inp.IsDamped(s.condition, fs)
         && SameOutside(Reached(SectionsOf(fs)), s.view, s'.view)
         && Observed(inp.profile, inp.name, s'.view, AuthAfter(inp.profile, fs, s.authEnabled), left)
         && s'.condition == Some(if SectionsOf(fs) !! SectionsOf(left) then inp.Outlook(left) else Condition(NotConverging, inp.Message(left)))
         && s'.drifted == SortedSeq(ByName, SectionsOf(left))
  }

  /** The auth state as known after a pass: what was just set, or what the status says. */
  ghost function AuthAfter(p: Profile, fs: seq<Finding>, authEnabled: bool): bool
  {
    if SECTION_AUTH in SectionsOf(fs) && p.auth.Some? then p.auth.value else authEnabled
  }

  lemma NoAuthDrift(inp: Inputs, s: Snapshot, key: Option<string>)
    requires AuthFindings(inp.profile.auth, s.authEnabled) == [] && FindingsOf(inp.profile, inp.name, key, s.view, s.authEnabled).Ok?
    ensures AuthAfter(inp.profile, FindingsOf(inp.profile, inp.name, key, s.view, s.authEnabled).value, s.authEnabled) == s.authEnabled
  {
  }

  /** Settled: nothing to write, or damped for exactly what there is to write. */
  ghost predicate AtRest(inp: Inputs, s: Snapshot, fs: seq<Finding>)
  {
    && OneUi(s.view.config) && s.Finds(inp, fs)
    && (fs != [] ==> inp.IsDamped(s.condition, fs))
  }

  lemma OwnTargets(written: set<string>)
    requires forall s :: s in written ==> Fixpoint.Target(s) == Some(s)
    ensures Reached(written) == written
  {
  }

  /** What is left after a pass either is nothing, or is about something just written, also where a write went astray. */
  lemma LeftIsStuck(p: Profile, name: string, k1: Option<string>, k2: Option<string>, v1: View, v2: View, authEnabled: bool)
    requires Chosen(p, k1, v1.config) && Chosen(p, k2, v2.config) && OneUi(v1.config) && AuthFindings(p.auth, authEnabled) == []
    requires FindingsOf(p, name, k1, v1, authEnabled).Ok? && FindingsOf(p, name, k2, v2, authEnabled).Ok?
    requires SameOutside(Reached(SectionsOf(FindingsOf(p, name, k1, v1, authEnabled).value)), v1, v2)
    ensures
      var found, left := FindingsOf(p, name, k1, v1, authEnabled).value, FindingsOf(p, name, k2, v2, authEnabled).value;
      left == [] || !(SectionsOf(found) !! SectionsOf(left))
  {
    var found, left := SectionsOf(FindingsOf(p, name, k1, v1, authEnabled).value), FindingsOf(p, name, k2, v2, authEnabled).value;
    if s :| s in found && Fixpoint.Target(s) != Some(s) {
      MisaddressedIsLeft(p, name, k1, k2, v1, v2, authEnabled, s);
    } else {
      OwnTargets(found);
      DriftOnlyWhereWritten(p, name, k1, k2, v1, v2, authEnabled);
      NoSectionsNoFindings(left);
    }
  }

  /** One pass and one look bring the device to rest, whatever it made of the writes. */
  lemma EnforcedIsAtRest(inp: Inputs, s: Snapshot, s': Snapshot, out: Outcome)
    requires CycleStep(inp, s, s', out) && out.Enforced?
    requires OneUi(s.view.config) && AuthFindings(inp.profile.auth, s.authEnabled) == []
    ensures AtRest(inp, s', out.left)
  {
    var p, name := inp.profile, inp.name;
    var k1 :| Chosen(p, k1, s.view.config) && FindingsOf(p, name, k1, s.view, s.authEnabled) == Ok(out.found);
    NoAuthDrift(inp, s, k1);
    var k2 :| Chosen(p, k2, s'.view.config) && FindingsOf(p, name, k2, s'.view, s.authEnabled) == Ok(out.left);
    LeftIsStuck(p, name, k1, k2, s.view, s'.view, s.authEnabled);
    StillOneUi(p, name, k1, s.view, s'.view, s.authEnabled);
  }

  lemma RestIsKept(inp: Inputs, s: Snapshot, s': Snapshot, out: Outcome, fs: seq<Finding>)
    requires inp.profile.enforce && AtRest(inp, s, fs) && CycleStep(inp, s, s', out) && !out.Failed?
    ensures !out.Enforced? && s'.view == s.view && AtRest(inp, s', fs)
  {
    if !out.Waiting? {
      SameLookSameFindings(inp.profile, inp.name, s.view, s.authEnabled, fs, out.found);
    }
  }

  /** Consecutive cycles with the same inputs, none of which ends in an error. */
  ghost predicate Run(inp: Inputs, run: seq<Snapshot>, outs: seq<Outcome>)
  {
    && |run| == |outs| + 1
    && forall i :: 0 <= i < |outs| ==> CycleStep(inp, run[i], run[i + 1], outs[i]) && !outs[i].Failed?
  }

  /**
   Damping quiesces every run: against any device that alters only the sections written
   to it, once one cycle has written and looked again, no later cycle writes anything,
   as long as the inputs stay, auth was not drifted and no cycle ends in an error.
   */
  lemma {:induction false} DampingQuiesces(inp: Inputs, run: seq<Snapshot>, outs: seq<Outcome>, n: nat)
    requires Run(inp, run, outs) && 0 < n <= |outs|
    requires outs[0].Enforced? && OneUi(run[0].view.config) && AuthFindings(inp.profile.auth, run[0].authEnabled) == []
    ensures AtRest(inp, run[n], outs[0].left) && run[n].view == run[1].view
    ensures forall i :: 0 < i < n ==> !MayWrite(outs[i])
  {
    FirstStep(inp, run, outs);
    RestFrom(inp, run, outs, n, outs[0].left);
  }

  lemma FirstStep(inp: Inputs, run: seq<Snapshot>, outs: seq<Outcome>)
    requires Run(inp, run, outs) && outs != [] && outs[0].Enforced?
    requires OneUi(run[0].view.config) && AuthFindings(inp.profile.auth, run[0].authEnabled) == []
    ensures inp.profile.enforce && AtRest(inp, run[1], outs[0].left)
  {
    EnforcedIsAtRest(inp, run[0], run[0 + 1], outs[0]);
  }

  lemma {:induction false} RestFrom(inp: Inputs, run: seq<Snapshot>, outs: seq<Outcome>, n: nat, fs: seq<Finding>)
    requires Run(inp, run, outs) && 0 < n <= |outs| && inp.profile.enforce && AtRest(inp, run[1], fs)
    ensures AtRest(inp, run[n], fs) && run[n].view == run[1].view
    ensures forall i :: 0 < i < n ==> !MayWrite(outs[i])
  {
    if n > 1 {
      var i := n - 1;
      RestFrom(inp, run, outs, i, fs);
      RestIsKept(inp, run[i], run[i + 1], outs[i], fs);
    }
  }

  /**
   And only damping stops it: a cycle that looks, and does not fail, writes exactly when
   there is drift whose text is not the one stored with the last NotConverging.
   */
  lemma WritesExactlyWhenArmed(inp: Inputs, s: Snapshot, s': Snapshot, out: Outcome, fs: seq<Finding>)
    requires inp.profile.enforce && OneUi(s.view.config) && s.Finds(inp, fs)
    requires CycleStep(inp, s, s', out) && !out.Failed? && !out.Waiting?
    ensures
      var stuck := s.condition.Some? && s.condition.value.reason == NotConverging
                   && s.condition.value.message == WithWarnings(inp.summarize(fs), inp.warns);
      && out.found == fs && (out.Enforced? <==> fs != [] && !stuck) && (out.Damped? <==> fs != [] && stuck) && (out.Reported? <==> fs == [])
  {
    SameLookSameFindings(inp.profile, inp.name, s.view, s.authEnabled, fs, out.found);
  }

  /**
   What changes re-arms: after a cycle that ended not converging, no cycle with the same
   warnings is damped, whatever the device and the profile are then like, but for findings
   with the very summary of those left.
   */
  lemma ChangedSummaryRearms(inp: Inputs, s: Snapshot, s': Snapshot, out: Outcome, p: Profile, name: string, t: Snapshot, t': Snapshot, out': Outcome, fs: seq<Finding>)
    requires CycleStep(inp, s, s', out) && out.Enforced? && !(SectionsOf(out.found) !! SectionsOf(out.left))
    requires p.enforce && OneUi(t.view.config) && t.condition == s'.condition && t.Finds(inp.(profile := p, name := name), fs)
    requires CycleStep(inp.(profile := p, name := name), t, t', out') && !out'.Failed? && !out'.Waiting?
    ensures out'.Damped? ==> inp.summarize(fs) == inp.summarize(out.left)
    ensures fs != [] && inp.summarize(fs) != inp.summarize(out.left) ==> out'.Enforced? && out'.found == fs
  {
    WritesExactlyWhenArmed(inp.(profile := p, name := name), t, t', out', fs);
    if out'.Damped? {
      WarningsKeepMessagesApart(inp.summarize(fs), inp.summarize(out.left), inp.warns);
    }
  }

  lemma AuthDriftIsFound(inp: Inputs, s: Snapshot, fs: seq<Finding>)
    requires s.Finds(inp, fs)
    ensures SECTION_AUTH in SectionsOf(fs) || AuthFindings(inp.profile.auth, s.authEnabled) == []
  {
    var key :| Chosen(inp.profile, key, s.view.config) && FindingsOf(inp.profile, inp.name, key, s.view, s.authEnabled) == Ok(fs);
    FindingsNames(inp.profile, inp.name, key, s.view, s.authEnabled, SECTION_AUTH);
  }

  /**
   The stored auth state is not part of what a cycle writes back, so with auth drifted a
   device that took everything is written again by the next cycle that looks at it, auth
   included, until discovery sees the change. Without auth drift it is not.
   */
  lemma WrittenAgainExactlyForAuth(inp: Inputs, s: Snapshot, s': Snapshot, s'': Snapshot, out: Outcome, out': Outcome)
    requires CycleStep(inp, s, s', out) && out.Enforced? && out.left == [] && OneUi(s.view.config)
    requires CycleStep(inp, s', s'', out') && !out'.Failed? && !out'.Waiting?
    ensures out'.Enforced? <==> AuthFindings(inp.profile.auth, s.authEnabled) != []
    ensures out'.Enforced? ==> SECTION_AUTH in SectionsOf(out'.found)
  {
    if AuthFindings(inp.profile.auth, s.authEnabled) != [] {
      AuthDriftIsFound(inp, s', out'.found);
    } else {
      EnforcedIsAtRest(inp, s, s', out);
      RestIsKept(inp, s', s'', out', out.left);
    }
  }

  const NO_CONFIG := ProfileConfig(None, false, None, None, None, None, None, None, None)

  /** A profile that asks for auth and nothing else. */
  const AUTH_ONLY := Profile("auth", true, NO_CONFIG, Some(true), None, None, false, None, false, None)

  lemma NothingRendered(key: Option<string>)
    ensures Render(NO_CONFIG, "", key, map[]) == map[] && Diff(map[], map[]) == Ok([])
  {
    var r := Render(NO_CONFIG, "", key, map[]);
    forall s ensures Get(r, s) == None {
      assert Wanted(NO_CONFIG, "", key, s, None).None?;
    }
    SameObject(r, map[]);
  }

  lemma AuthOnlyFindings(authEnabled: bool)
    ensures Observed(AUTH_ONLY, "", View(map[], []), authEnabled, AuthFindings(Some(true), authEnabled))
  {
    var v := View(map[], []);
    assert Diff(Render(AUTH_ONLY.config, "", None, v.config), v.config) == Ok([]) by {
      NothingRendered(None);
    }
    OnlyAuth(AUTH_ONLY, None, v, authEnabled);
    assert Chosen(AUTH_ONLY, None, v.config);
  }

  lemma OnlyAuth(p: Profile, key: Option<string>, v: View, authEnabled: bool)
    requires p.firmware.None? && p.schedules.None? && Diff(Render(p.config, "", key, v.config), v.config) == Ok([])
    ensures FindingsOf(p, "", key, v, authEnabled) == Ok(AuthFindings(p.auth, authEnabled))
  {
    var none: seq<Finding> := [];
    var auth := AuthFindings(p.auth, authEnabled);
    assert none + auth + none + none == auth;
    assert ScheduleFindings(p.schedules, v.jobs) == none;
  }

  /** So it happens: a device without auth, a profile that asks for it, and every cycle sets it again. */
  lemma AuthIsSetAgain(summarize: seq<Finding> -> string)
    ensures
      var inp := Inputs(AUTH_ONLY, "", [], summarize);
      var out := Enforced([Finding(SECTION_AUTH, "enable", Bool(true), Bool(false))], []);
      var s := Snapshot(View(map[], []), false, None, []);
      var s' := s.(condition := Some(Condition(InSync, inp.AllWell())));
      CycleStep(inp, s, s', out) && CycleStep(inp, s', s', out)
  {
    AuthOnlyFindings(false);
    AuthOnlyFindings(true);
    var fs := AuthFindings(Some(true), false);
    assert fs[0].section in SectionsOf(fs);
    assert SectionsOf([]) == {} && SortedSeq(ByName, {}) == [];
  }
}
