/**
 One enforcing cycle against a device that does as it is told: every drifted section of
 every kind written in the order of enforcement, and nothing left to find.
 */
module Convergence {
  import opened Wrappers
  import opened Json
  import opened Findings
  import opened Order
  import opened Sorting
  import opened Drift
  import opened Desired
  import opened Fixpoint
  import opened Cycle
  import Jobs
  import Schedule
  import Firmware

  /** A device that merges what it is sent and carries out the job calls it gets. */
  datatype Plug = Plug(config: Config, schedule: Jobs.Device)
  {
    function Shown(): View { View(config, schedule.jobs) }
  }

  /** One section applied; None when a call cannot be made or is refused. */
  function AfterSection(p: Profile, plug: Plug, desired: Config, pw: WifiPasswords, s: string): Option<Plug>
  {
    if s == SECTION_AUTH then Some(plug)
    else if s == Firmware.SECTION_FIRMWARE then
      if p.firmware.None? then None
      else
        var r := Firmware.FwRunAll(plug.schedule, Firmware.FwPlan(p.firmware.value, plug.schedule.jobs));
        if r.None? then None else Some(plug.(schedule := r.value))
    else if s == SECTION_SCHEDULE then
      if p.schedules.None? then None
      else
        var r := Schedule.RunAll(p.schedules.value, plug.schedule, Schedule.Plan(p.schedules, plug.schedule.jobs));
        if r.None? then None else Some(plug.(schedule := r.value))
    else
      var r := Write(plug.config, s, Payload(s, OrNull(Get(desired, s)), pw));
      if r.None? then None else Some(plug.(config := r.value))
  }

  function AfterSections(p: Profile, plug: Plug, desired: Config, pw: WifiPasswords, order: seq<string>): Option<Plug>
    decreases |order|
  {
    if order == [] then Some(plug)
    else
      var r := AfterSection(p, plug, desired, pw, order[0]);
      if r.None? then None else AfterSections(p, r.value, desired, pw, order[1..])
  }

  /** The section's calls can be made: a component that is its own target, jobs that can be sent. */
  ghost predicate Writable(p: Profile, start: Plug, s: string)
  {
    if s == SECTION_AUTH then true
    else if s == Firmware.SECTION_FIRMWARE then p.firmware.Some?
    else if s == SECTION_SCHEDULE then
      && p.schedules.Some?
      && var plan := Schedule.Plan(p.schedules, start.schedule.jobs);
      forall i :: 0 <= i < |plan| ==> Schedule.Sendable(p.schedules.value, plan[i])
    else Target(s) == Some(s)
  }

  ghost predicate ConfigProgress(start: Config, now: Config, desired: Config, pw: WifiPasswords, done: set<string>)
  {
    forall s :: Get(now, s) ==
      if s in done && !IsPseudo(s) then Some(Merge(OrNull(Get(start, s)), Payload(s, OrNull(Get(desired, s)), pw))) else Get(start, s)
  }

  /** Each owner's jobs are as they were, or settled once its section is done. */
  ghost predicate JobsProgress(p: Profile, start: Jobs.Device, now: Jobs.Device, done: set<string>)
  {
    && now.Valid()
    && (if Firmware.SECTION_FIRMWARE in done then FirmwareSection(p.firmware, now.jobs) == []
        else Jobs.Select(true, now.jobs) == Jobs.Select(true, start.jobs))
    && (if SECTION_SCHEDULE in done then Schedule.Plan(p.schedules, now.jobs) == []
        else Jobs.Select(false, now.jobs) == Jobs.Select(false, start.jobs))
  }

  lemma FirmwareDone(p: Profile, start: Jobs.Device, now: Jobs.Device, done: set<string>)
    requires p.firmware.Some? && JobsProgress(p, start, now, done)
    ensures
      var r := Firmware.FwRunAll(now, Firmware.FwPlan(p.firmware.value, now.jobs));
      r.Some? && JobsProgress(p, start, r.value, done + {Firmware.SECTION_FIRMWARE})
  {
    var want := p.firmware.value;
    var plan := Firmware.FwPlan(want, now.jobs);
    assert plan + [] == plan;
    Firmware.FwReplanYieldsRest(want, now, plan, []);
    Firmware.FindingsCountActions(want, Firmware.FwRunAll(now, plan).value.jobs);
  }

  lemma ScheduleDone(p: Profile, start: Jobs.Device, now: Jobs.Device, done: set<string>)
    requires p.schedules.Some? && JobsProgress(p, start, now, done) && SECTION_SCHEDULE !in done
    requires
      var plan := Schedule.Plan(p.schedules, start.jobs);
      forall i :: 0 <= i < |plan| ==> Schedule.Sendable(p.schedules.value, plan[i])
    ensures
      var r := Schedule.RunAll(p.schedules.value, now, Schedule.Plan(p.schedules, now.jobs));
      r.Some? && JobsProgress(p, start, r.value, done + {SECTION_SCHEDULE})
  {
    Schedule.FullPassSettles(p.schedules.value, now);
  }

  lemma SectionDone(p: Profile, start: Plug, now: Plug, desired: Config, pw: WifiPasswords, done: set<string>, s: string)
    requires ConfigProgress(start.config, now.config, desired, pw, done) && JobsProgress(p, start.schedule, now.schedule, done)
    requires s !in done && Writable(p, start, s)
    ensures
      var r := AfterSection(p, now, desired, pw, s);
      && r.Some? && ConfigProgress(start.config, r.value.config, desired, pw, done + {s})
      && JobsProgress(p, start.schedule, r.value.schedule, done + {s})
  {
    if s == Firmware.SECTION_FIRMWARE {
      FirmwareDone(p, start.schedule, now.schedule, done);
    } else if s == SECTION_SCHEDULE {
      ScheduleDone(p, start.schedule, now.schedule, done);
    } else if s != SECTION_AUTH {
      ComponentDone(start.config, now.config, desired, pw, done, s);
    }
  }

  lemma ComponentDone(start: Config, now: Config, desired: Config, pw: WifiPasswords, done: set<string>, s: string)
    requires ConfigProgress(start, now, desired, pw, done) && s !in done && !IsPseudo(s) && Target(s) == Some(s)
    ensures
      var r := Write(now, s, Payload(s, OrNull(Get(desired, s)), pw));
      r.Some? && ConfigProgress(start, r.value, desired, pw, done + {s})
  {
  }

  lemma {:induction false} SectionsDone(p: Profile, start: Plug, now: Plug, desired: Config, pw: WifiPasswords, done: set<string>, order: seq<string>)
    requires ConfigProgress(start.config, now.config, desired, pw, done) && JobsProgress(p, start.schedule, now.schedule, done)
    requires Distinct(order) && forall s :: s in order ==> s !in done && Writable(p, start, s)
    ensures
      var r := AfterSections(p, now, desired, pw, order);
      && r.Some? && ConfigProgress(start.config, r.value.config, desired, pw, done + Elements(order))
      && JobsProgress(p, start.schedule, r.value.schedule, done + Elements(order))
    decreases |order|
  {
    if order == [] {
      assert done + Elements(order) == done;
    } else {
      var s := order[0];
      assert s in order && s !in order[1..];
      SectionDone(p, start, now, desired, pw, done, s);
      SectionsDone(p, start, AfterSection(p, now, desired, pw, s).value, desired, pw, done + {s}, order[1..]);
      assert done + {s} + Elements(order[1..]) == done + Elements(order);
    }
  }

  lemma RenderedIsComponent(p: Profile, name: string, key: Option<string>, config: Config, s: string)
    requires Chosen(p, key, config) && s in Render(p.config, name, key, config)
    ensures !IsPseudo(s)
  {
    assert Get(Render(p.config, name, key, config), s).Some?;
    if IsPseudo(s) {
      PseudoKinds(s);
    }
  }

  /** The component sections among the drifted ones are those whose comparison found something. */
  lemma DriftedComponents(p: Profile, name: string, key: Option<string>, v: View, authEnabled: bool, s: string)
    requires FindingsOf(p, name, key, v, authEnabled).Ok? && Chosen(p, key, v.config)
    ensures
      var desired := Render(p.config, name, key, v.config);
      s in SectionsOf(FindingsOf(p, name, key, v, authEnabled).value) && !IsPseudo(s) <==>
      s in desired && SectionFindings(s, desired[s], Get(v.config, s)) != Ok([])
  {
    var desired := Render(p.config, name, key, v.config);
    ComponentsOnly(p, name, key, v, authEnabled, s);
    DiffNames(desired, v.config);
    if s in desired {
      RenderedIsComponent(p, name, key, v.config, s);
    }
  }

  lemma ComponentsOnly(p: Profile, name: string, key: Option<string>, v: View, authEnabled: bool, s: string)
    requires FindingsOf(p, name, key, v, authEnabled).Ok?
    ensures Diff(Render(p.config, name, key, v.config), v.config).Ok?
    ensures !IsPseudo(s) ==>
              (s in SectionsOf(FindingsOf(p, name, key, v, authEnabled).value) <==>
               s in SectionsOf(Diff(Render(p.config, name, key, v.config), v.config).value))
  {
    FindingsNames(p, name, key, v, authEnabled, s);
  }

  lemma ConfigSettled(p: Profile, name: string, key: Option<string>, v: View, authEnabled: bool, now: Config, pw: WifiPasswords)
    requires FindingsOf(p, name, key, v, authEnabled).Ok? && Chosen(p, key, v.config)
    requires ConfigProgress(v.config, now, Render(p.config, name, key, v.config), pw, SectionsOf(FindingsOf(p, name, key, v, authEnabled).value))
    ensures Render(p.config, name, key, now) == Render(p.config, name, key, v.config)
    ensures Diff(Render(p.config, name, key, now), now) == Ok([])
  {
    var desired := Render(p.config, name, key, v.config);
    ComponentsOnly(p, name, key, v, authEnabled, "");
    forall s ensures Get(now, s) == if s in desired && SectionFindings(s, desired[s], Get(v.config, s)) != Ok([])
                                    then Some(Merge(OrNull(Get(v.config, s)), Payload(s, desired[s], pw))) else Get(v.config, s)
    {
      DriftedComponents(p, name, key, v, authEnabled, s);
    }
    MergedSettles(p.config, name, key, v.config, now, pw);
  }

  /** A section owned by the job list that was not drifted stays settled, and one that was is settled by its pass. */
  lemma JobsSettled(p: Profile, name: string, key: Option<string>, v: View, authEnabled: bool, start: Jobs.Device, now: Jobs.Device)
    requires FindingsOf(p, name, key, v, authEnabled).Ok? && v.jobs == start.jobs
    requires JobsProgress(p, start, now, SectionsOf(FindingsOf(p, name, key, v, authEnabled).value))
    ensures FirmwareSection(p.firmware, now.jobs) == [] && ScheduleFindings(p.schedules, now.jobs) == []
  {
    FindingsNames(p, name, key, v, authEnabled, Firmware.SECTION_FIRMWARE);
    FindingsNames(p, name, key, v, authEnabled, SECTION_SCHEDULE);
  }

  lemma AuthSettled(p: Profile, name: string, key: Option<string>, v: View, authEnabled: bool)
    requires FindingsOf(p, name, key, v, authEnabled).Ok?
    ensures AuthFindings(p.auth, AuthAfter(p, FindingsOf(p, name, key, v, authEnabled).value, authEnabled)) == []
  {
    FindingsNames(p, name, key, v, authEnabled, SECTION_AUTH);
  }

  /** The plug UI component found before the pass is the one found after it. */
  lemma StillChosen(p: Profile, name: string, key: Option<string>, v: View, authEnabled: bool, now: Config, pw: WifiPasswords)
    requires FindingsOf(p, name, key, v, authEnabled).Ok? && Chosen(p, key, v.config)
    requires ConfigProgress(v.config, now, Render(p.config, name, key, v.config), pw, SectionsOf(FindingsOf(p, name, key, v, authEnabled).value))
    ensures Chosen(p, key, now)
  {
    forall s | IsUiKey(s) ensures s in now <==> s in v.config {
      assert s in now <==> Get(now, s).Some?;
      if s in SectionsOf(FindingsOf(p, name, key, v, authEnabled).value) {
        WrittenUiWasThere(p, name, key, v, authEnabled, s);
      }
    }
  }

  /** Every drifted section of a look, applied. */
  lemma PassCompletes(p: Profile, start: Plug, desired: Config, pw: WifiPasswords, fs: seq<Finding>)
    requires start.schedule.Valid() && forall s :: s in WriteOrder(fs) ==> Writable(p, start, s)
    ensures
      var r := AfterSections(p, start, desired, pw, WriteOrder(fs));
      && r.Some? && ConfigProgress(start.config, r.value.config, desired, pw, SectionsOf(fs))
      && JobsProgress(p, start.schedule, r.value.schedule, SectionsOf(fs))
  {
    OrderDistinct(fs);
    SectionsDone(p, start, start, desired, pw, {}, WriteOrder(fs));
    assert {} + Elements(WriteOrder(fs)) == SectionsOf(fs);
  }

  lemma NothingLeft(p: Profile, name: string, key: Option<string>, start: Plug, now: Plug, authEnabled: bool, pw: WifiPasswords)
    requires Chosen(p, key, start.config) && FindingsOf(p, name, key, start.Shown(), authEnabled).Ok?
    requires
      var written := SectionsOf(FindingsOf(p, name, key, start.Shown(), authEnabled).value);
      && ConfigProgress(start.config, now.config, Render(p.config, name, key, start.config), pw, written)
      && JobsProgress(p, start.schedule, now.schedule, written)
    ensures
      var fs := FindingsOf(p, name, key, start.Shown(), authEnabled).value;
      FindingsOf(p, name, key, now.Shown(), AuthAfter(p, fs, authEnabled)) == Ok([])
  {
    var v := start.Shown();
    ConfigSettled(p, name, key, v, authEnabled, now.config, pw);
    JobsSettled(p, name, key, v, authEnabled, start.schedule, now.schedule);
    AuthSettled(p, name, key, v, authEnabled);
    var none: seq<Finding> := [];
    assert none + none + none + none == none;
  }

  /**
   One cycle converges: on a device that does as it is told, writing every drifted section
   in the order of enforcement completes, and the look that follows finds nothing at all,
   whichever sections of whichever owner had drifted.
   */
  lemma OneCycleConverges(p: Profile, name: string, key: Option<string>, start: Plug, authEnabled: bool, pw: WifiPasswords)
    requires start.schedule.Valid() && Chosen(p, key, start.config)
    requires FindingsOf(p, name, key, start.Shown(), authEnabled).Ok?
    requires forall s :: s in WriteOrder(FindingsOf(p, name, key, start.Shown(), authEnabled).value) ==> Writable(p, start, s)
    ensures
      var fs := FindingsOf(p, name, key, start.Shown(), authEnabled).value;
      var r := AfterSections(p, start, Render(p.config, name, key, start.config), pw, WriteOrder(fs));
      && r.Some? && Chosen(p, key, r.value.config)
      && FindingsOf(p, name, key, r.value.Shown(), AuthAfter(p, fs, authEnabled)) == Ok([])
  {
    var fs := FindingsOf(p, name, key, start.Shown(), authEnabled).value;
    var desired := Render(p.config, name, key, start.config);
    PassCompletes(p, start, desired, pw, fs);
    var r := AfterSections(p, start, desired, pw, WriteOrder(fs)).value;
    NothingLeft(p, name, key, start, r, authEnabled, pw);
    StillChosen(p, name, key, start.Shown(), authEnabled, r.config, pw);
  }
}
