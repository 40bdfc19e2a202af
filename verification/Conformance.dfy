/**
 What it means for the operator to find nothing: the device is as the profile declares,
 field by field and job by job, and one enforcing cycle makes it so.
 */
module Conformance {
  import opened Wrappers
  import opened Json
  import opened Strings
  import opened Findings
  import opened Order
  import opened Sorting
  import opened Drift
  import opened Desired
  import opened Fixpoint
  import opened Cycle
  import opened Readback
  import opened Convergence
  import Jobs
  import Schedule
  import Firmware
  import JobOutcomes

  // ----- configuration

  /** In sync means that every leaf of the desired tree is there. */
  lemma {:induction false} LeavesInSync(want: Json, have: Option<Json>, path: seq<string>, v: Json)
    requires Drift.InSync(want, have) && Has(Some(want), path, v)
    ensures Has(have, path, v)
    decreases want
  {
    if want.Obj? {
      var k := path[0];
      LeavesInSync(want.fields[k], Get(FieldsOf(OrNull(have)), k), path[1..], v);
    }
  }

  /** And out of sync, that one is not. */
  lemma {:induction false} LeafMissing(want: Json, have: Option<Json>) returns (path: seq<string>, v: Json)
    requires !Drift.InSync(want, have)
    ensures Has(Some(want), path, v) && !Has(have, path, v)
    decreases want
  {
    if want.Obj? {
      var h := FieldsOf(OrNull(have));
      var k :| k in want.fields && !Drift.InSync(want.fields[k], Get(h, k));
      var below;
      below, v := LeafMissing(want.fields[k], Get(h, k));
      path := [k] + below;
      assert path[1..] == below;
    } else {
      path, v := [], want;
    }
  }

  /** The device has every field the profile declares of this section. */
  ghost predicate SectionAsConfigured(cfg: ProfileConfig, name: string, key: Option<string>, config: Config, s: string)
  {
    forall path, v :: Declares(cfg, name, key, config, s, path, v) ==> Has(Get(config, s), path, v)
  }

  /** The device has every field the profile declares. */
  ghost predicate AsConfigured(cfg: ProfileConfig, name: string, key: Option<string>, config: Config)
  {
    forall s :: SectionAsConfigured(cfg, name, key, config, s)
  }

  lemma SectionSilent(cfg: ProfileConfig, name: string, key: Option<string>, config: Config, s: string)
    requires (cfg.ui.Some? ==> IsDiscovered(key, config)) && s in Render(cfg, name, key, config)
    ensures SectionFindings(s, Render(cfg, name, key, config)[s], Get(config, s)) == Ok([]) <==> SectionAsConfigured(cfg, name, key, config, s)
  {
    var want, have := Render(cfg, name, key, config)[s], Get(config, s);
    RenderedIsTree(cfg, name, key, config, s);
    SectionSyncs(s, want, have);
    if Drift.InSync(want, have) {
      forall path, v | Declares(cfg, name, key, config, s, path, v) ensures Has(have, path, v) {
        RenderedIsDeclared(cfg, name, key, config, s, path, v);
        LeavesInSync(want, have, path, v);
      }
    } else {
      var path, v := LeafMissing(want, have);
      RenderedIsDeclared(cfg, name, key, config, s, path, v);
    }
  }

  /** A section that is no object, or is not there at all, is not in sync either. */
  lemma SectionSyncs(s: string, want: Json, have: Option<Json>)
    requires want.Obj? && want != EMPTY && NoEmptyInside(want)
    ensures SectionFindings(s, want, have) == Ok([]) <==> Drift.InSync(want, have)
  {
    DiffEmpty(s, "", want, have);
    if FieldsOf(OrNull(have)) == map[] {
      NothingDrifts(want, have);
    }
  }

  lemma NotRenderedDeclaresNothing(cfg: ProfileConfig, name: string, key: Option<string>, config: Config, s: string)
    requires (cfg.ui.Some? ==> IsDiscovered(key, config)) && s !in Render(cfg, name, key, config)
    ensures forall path, v :: !Declares(cfg, name, key, config, s, path, v)
  {
    forall path, v ensures !Declares(cfg, name, key, config, s, path, v) {
      RenderedIsDeclared(cfg, name, key, config, s, path, v);
    }
  }

  /** Nothing drifts exactly when the device has every field the profile declares. */
  lemma SilentDiff(cfg: ProfileConfig, name: string, key: Option<string>, config: Config)
    requires cfg.ui.Some? ==> IsDiscovered(key, config)
    ensures Diff(Render(cfg, name, key, config), config) == Ok([]) <==> AsConfigured(cfg, name, key, config)
  {
    var desired := Render(cfg, name, key, config);
    forall s ensures s in desired && SectionFindings(s, desired[s], Get(config, s)) != Ok([]) <==> !SectionAsConfigured(cfg, name, key, config, s) {
      if s in desired {
        SectionSilent(cfg, name, key, config, s);
      } else {
        NotRenderedDeclaresNothing(cfg, name, key, config, s);
      }
    }
    AllSilent(desired, config);
  }

  lemma AllSilent(desired: Object, actual: Object)
    ensures Diff(desired, actual) == Ok([]) <==> forall s :: s in desired ==> SectionFindings(s, desired[s], Get(actual, s)) == Ok([])
  {
    var keys := SortedSeq(ByName, desired.Keys);
    assert forall s :: s in keys <==> s in desired;
    NothingFound(desired, actual, keys);
  }

  lemma {:induction false} NothingFound(desired: Object, actual: Object, keys: seq<string>)
    requires forall i :: 0 <= i < |keys| ==> keys[i] in desired
    ensures DiffSections(desired, actual, keys) == Ok([]) <==> forall s :: s in keys ==> SectionFindings(s, desired[s], Get(actual, s)) == Ok([])
  {
    if keys != [] {
      var head, tail := SectionFindings(keys[0], desired[keys[0]], Get(actual, keys[0])), DiffSections(desired, actual, keys[1..]);
      NothingFound(desired, actual, keys[1..]);
      assert head.Ok? && tail.Ok? ==> |head.value + tail.value| == |head.value| + |tail.value|;
      assert forall s :: s in keys <==> s == keys[0] || s in keys[1..];
    }
  }

  // ----- what the findings of the job list tell

  /** What is told of an update job: that it leaves the stable stage, or else that it is not wanted, or else that it is disabled. */
  ghost predicate TellsOfUpdate(want: bool, j: Jobs.Job, f: Finding)
  {
    && JobOutcomes.Updates(j.calls) && f.section == "firmware" && f.path == "job:" + Itoa(j.id)
    && if JobOutcomes.LeavesStable(j.calls) then f.want == Str("no non-stable Shelly.Update job") && f.have == Str("non-stable stage")
       else if !want then f.want == Str("no Shelly.Update job") && f.have == Str("present")
       else !j.enable && f.want == Str("enabled") && f.have == Str("disabled")
  }

  lemma {:induction false} JobFindingMembers(want: bool, updates: seq<Jobs.Job>, f: Finding)
    ensures f in Firmware.JobFindings(want, updates) <==> exists i :: 0 <= i < |updates| && f in Firmware.JobFinding(want, updates[i])
  {
    if updates != [] {
      JobFindingMembers(want, updates[1..], f);
      assert forall i :: 0 < i < |updates| ==> updates[i] == updates[1..][i - 1];
      assert forall i :: 0 <= i < |updates[1..]| ==> updates[1..][i] == updates[i + 1];
    }
  }

  lemma JobFindingTells(want: bool, j: Jobs.Job, f: Finding)
    requires Jobs.IsUpdateJob(j)
    ensures f in Firmware.JobFinding(want, j) <==> TellsOfUpdate(want, j, f)
  {
    JobOutcomes.UpdatesMeans(j.calls);
  }

  /** The firmware findings tell of each job that is not as wanted, and of a wanted one that is not there. */
  lemma FirmwareFindingsTell(want: bool, jobs: seq<Jobs.Job>, f: Finding)
    ensures f in Firmware.FirmwareFindings(want, jobs) <==>
              || (exists j :: j in jobs && TellsOfUpdate(want, j, f))
              || (want && (forall j :: j in jobs ==> !JobOutcomes.Good(j)) && f == Finding("firmware", "autoUpdate", Bool(true), Bool(false)))
  {
    var updates := Jobs.Select(true, jobs);
    JobFindingMembers(want, updates, f);
    forall j ensures j in updates <==> j in jobs && JobOutcomes.Updates(j.calls) {
      Schedule.SelectedAreThere(true, jobs, j);
      JobOutcomes.UpdatesMeans(j.calls);
    }
    forall i | 0 <= i < |updates| ensures f in Firmware.JobFinding(want, updates[i]) <==> TellsOfUpdate(want, updates[i], f) {
      assert updates[i] in updates;
      Schedule.SelectedAreThere(true, jobs, updates[i]);
      JobFindingTells(want, updates[i], f);
    }
    if j :| j in jobs && TellsOfUpdate(want, j, f) {
      assert j in updates;
    }
    if want {
      JobOutcomes.NoneGood(jobs);
    }
  }

  /** A schedule finding tells of a job that is on or off and should not be, of a declared job that is absent, or of one that should be. */
  lemma ScheduleFindingsTell(specs: seq<Jobs.JobSpec>, jobs: seq<Jobs.Job>, i: nat)
    requires i < |ScheduleFindings(Some(specs), jobs)|
    ensures
      var f := ScheduleFindings(Some(specs), jobs)[i];
      || (exists j :: j in jobs && f == Finding("schedule", "job:" + Itoa(j.id) + ":enable", Bool(!j.enable), Bool(j.enable)))
      || (exists si :: 0 <= si < |specs| && f == Finding("schedule", "spec:" + Itoa(si) + ":timespec=" + specs[si].timespec, Str("present"), Str("absent")))
      || (exists j :: j in jobs && f == Finding("schedule", "job:" + Itoa(j.id), Str("absent"), Str("present")))
  {
    var rem := Jobs.Select(false, jobs);
    var w := Schedule.Walk(specs, 0, rem);
    if i < |w.updates| {
      var k := JobOutcomes.UpdateFlips(specs, 0, rem, i);
      Schedule.SelectedAreThere(false, jobs, rem[k]);
    } else if i < |w.updates| + |w.creates| {
      Schedule.CreatesAreDeclared(specs, 0, rem, i - |w.updates|);
    } else {
      var k := i - |w.updates| - |w.creates|;
      Schedule.DeletesAreDeletes(w.rest, k);
      RestIsThere(specs, 0, rem, w.rest[k]);
      Schedule.SelectedAreThere(false, jobs, w.rest[k]);
    }
  }

  lemma {:induction false} RestIsThere(specs: seq<Jobs.JobSpec>, si: nat, rem: seq<Jobs.Job>, job: Jobs.Job)
    requires si <= |specs| && job in Schedule.Walk(specs, si, rem).rest
    ensures job in rem
    decreases |specs| - si
  {
    if si < |specs| {
      RestIsThere(specs, si + 1, if Jobs.SpecIsUpdateJob(specs[si]) then rem else Schedule.Left(rem, Schedule.FirstMatch(specs[si], rem)), job);
    }
  }

  // ----- the whole profile

  /** Updates are made by an enabled job and only to the stable stage, or by none. */
  ghost predicate UpdatesAsWanted(want: bool, jobs: seq<Jobs.Job>)
  {
    && (forall j :: j in jobs && JobOutcomes.Updates(j.calls) ==> want && JobOutcomes.Good(j))
    && (want ==> exists j :: j in jobs && JobOutcomes.Good(j))
  }

  lemma SilentFirmware(want: bool, jobs: seq<Jobs.Job>)
    ensures Firmware.FirmwareFindings(want, jobs) == [] <==> UpdatesAsWanted(want, jobs)
  {
    var bad, good := Firmware.Offending(want, Jobs.Select(true, jobs)), Firmware.Complying(want, Jobs.Select(true, jobs));
    Firmware.FindingsNameOffenders(want, Jobs.Select(true, jobs));
    forall j ensures j in jobs <==> j in Jobs.Select(false, jobs) || j in bad || j in good
      ensures j in Jobs.Select(false, jobs) <==> j in jobs && !JobOutcomes.Updates(j.calls)
      ensures j in good <==> j in jobs && want && JobOutcomes.Good(j)
      ensures j in bad ==> JobOutcomes.Updates(j.calls) && !(want && JobOutcomes.Good(j))
    {
      JobOutcomes.InJobs(want, jobs, j);
      JobOutcomes.ClassMembers(want, false, Jobs.Select(true, jobs), j);
      Schedule.SelectedAreThere(true, jobs, j);
      JobOutcomes.UpdatesMeans(j.calls);
    }
    assert bad != [] ==> bad[0] in bad;
    assert good != [] ==> good[0] in good;
  }

  /** The device is as the profile declares it, as far as the profile goes. */
  ghost predicate AsDeclared(p: Profile, name: string, key: Option<string>, v: View, authEnabled: bool)
  {
    && AsConfigured(p.config, name, key, v.config)
    && (p.auth.Some? ==> authEnabled == p.auth.value)
    && (p.firmware.Some? ==> UpdatesAsWanted(p.firmware.value, v.jobs))
    && (p.schedules.Some? ==> Schedule.Plan(p.schedules, v.jobs) == [])
  }

  /** A look finds nothing exactly when the device is as declared. */
  lemma SilentExactly(p: Profile, name: string, key: Option<string>, v: View, authEnabled: bool)
    requires Chosen(p, key, v.config)
    ensures FindingsOf(p, name, key, v, authEnabled) == Ok([]) <==> AsDeclared(p, name, key, v, authEnabled)
  {
    SilentDiff(p.config, name, key, v.config);
    if p.firmware.Some? {
      SilentFirmware(p.firmware.value, v.jobs);
    }
    var d := Diff(Render(p.config, name, key, v.config), v.config);
    if d.Ok? {
      FourEmpty(d.value, AuthFindings(p.auth, authEnabled), FirmwareSection(p.firmware, v.jobs), ScheduleFindings(p.schedules, v.jobs));
    }
  }

  lemma FourEmpty(a: seq<Finding>, b: seq<Finding>, c: seq<Finding>, d: seq<Finding>)
    ensures a + b + c + d == [] <==> a == [] && b == [] && c == [] && d == []
  {
    assert |a + b + c + d| == |a| + |b| + |c| + |d|;
  }

  /**
   One enforcing cycle on a device that does as it is told leaves it as the profile
   declares: every declared field at its path, auth as wanted, updates as wanted, and
   exactly the declared jobs.
   */
  lemma OneCycleConforms(p: Profile, name: string, key: Option<string>, start: Plug, authEnabled: bool, pw: WifiPasswords)
    requires start.schedule.Valid() && Chosen(p, key, start.config)
    requires FindingsOf(p, name, key, start.Shown(), authEnabled).Ok?
    requires forall s :: s in WriteOrder(FindingsOf(p, name, key, start.Shown(), authEnabled).value) ==> Writable(p, start, s)
    ensures
      var fs := FindingsOf(p, name, key, start.Shown(), authEnabled).value;
      var r := AfterSections(p, start, Render(p.config, name, key, start.config), pw, WriteOrder(fs));
      && r.Some? && AsDeclared(p, name, key, r.value.Shown(), AuthAfter(p, fs, authEnabled))
      && (p.schedules.Some? ==> JobOutcomes.Stand(p.schedules.value, r.value.schedule.jobs))
  {
    OneCycleConverges(p, name, key, start, authEnabled, pw);
    var fs := FindingsOf(p, name, key, start.Shown(), authEnabled).value;
    var r := AfterSections(p, start, Render(p.config, name, key, start.config), pw, WriteOrder(fs)).value;
    SilentExactly(p, name, key, r.Shown(), AuthAfter(p, fs, authEnabled));
    if p.schedules.Some? {
      JobOutcomes.NothingPlannedStands(p.schedules.value, r.schedule.jobs);
    }
  }
}
