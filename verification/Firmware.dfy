/**
 Convergence of the firmware auto-update job (internal/controller/firmware.go), and
 why it and the schedule section, two owners of one job list, never get in each
 other's way.
 */
module Firmware {
  import opened Wrappers
  import opened Json
  import opened Findings
  import opened Strings
  import opened Jobs
  import opened Schedule
  import opened ScheduleApply

  const SECTION_FIRMWARE := "firmware"
  const AUTO_UPDATE_TIMESPEC := "0 0 0 * * SUN,MON,TUE,WED,THU,FRI,SAT"
  const AUTO_UPDATE_CALLS: seq<Call> := [Call(UPDATE_METHOD, map["stage" := Str("stable")])]

  // ----- classification

  /** Some Shelly.Update call names a stage other than stable; no stage at all means stable. */
  predicate HasNonStableUpdateCall(calls: seq<Call>)
  {
    && calls != []
    && (|| (calls[0].rpc == UPDATE_METHOD && "stage" in calls[0].params && calls[0].params["stage"] != Str("stable"))
        || HasNonStableUpdateCall(calls[1..]))
  }

  predicate Compliant(want: bool, j: Job)
  {
    want && j.enable && !HasNonStableUpdateCall(j.calls)
  }

  function OneIf(b: bool, j: Job): seq<Job>
  {
    if b then [j] else []
  }

  /** Of the update jobs, those that comply, which enforcement leaves alone, or those that do not, which it deletes. */
  function Class(want: bool, good: bool, updates: seq<Job>): seq<Job>
  {
    if updates == [] then []
    else OneIf(Compliant(want, updates[0]) == good, updates[0]) + Class(want, good, updates[1..])
  }

  function Offending(want: bool, updates: seq<Job>): seq<Job>
  {
    Class(want, false, updates)
  }

  function Complying(want: bool, updates: seq<Job>): seq<Job>
  {
    Class(want, true, updates)
  }

  lemma {:induction false} ClassAppend(want: bool, good: bool, a: seq<Job>, b: seq<Job>)
    ensures Class(want, good, a + b) == Class(want, good, a) + Class(want, good, b)
  {
    if a == [] {
      assert a + b == b;
    } else {
      assert (a + b)[1..] == a[1..] + b;
      var head := OneIf(Compliant(want, a[0]) == good, a[0]);
      ClassAppend(want, good, a[1..], b);
      Assoc(head, Class(want, good, a[1..]), Class(want, good, b));
    }
  }

  lemma ClassOne(want: bool, good: bool, j: Job)
    ensures Class(want, good, [j]) == OneIf(Compliant(want, j) == good, j)
  {
    assert [j][1..] == [];
  }

  lemma ClassesNext(want: bool, good: bool, jobs: seq<Job>, i: nat)
    requires i < |jobs|
    ensures
      Class(want, good, Select(true, jobs[..i + 1]))
      == Class(want, good, Select(true, jobs[..i])) + OneIf(IsUpdateJob(jobs[i]) && Compliant(want, jobs[i]) == good, jobs[i])
  {
    assert jobs[..i + 1] == jobs[..i] + [jobs[i]];
    SelectAppend(true, jobs[..i], [jobs[i]]);
    SelectOne(true, jobs[i]);
    ClassAppend(want, good, Select(true, jobs[..i]), Pick(true, jobs[i]));
    ClassOne(want, good, jobs[i]);
  }

  method FirmwareOffenders(want: bool, jobs: seq<Job>) returns (offenders: seq<int>, hasCompliant: bool)
    ensures
      var bad := Offending(want, Select(true, jobs));
      |offenders| == |bad| && forall i :: 0 <= i < |bad| ==> offenders[i] == bad[i].id
    ensures hasCompliant <==> Complying(want, Select(true, jobs)) != []
  {
    offenders, hasCompliant := [], false;
    ghost var bad: seq<Job>, good: seq<Job> := [], [];
    for i := 0 to |jobs|
      invariant bad == Offending(want, Select(true, jobs[..i])) && good == Complying(want, Select(true, jobs[..i]))
      invariant |offenders| == |bad| && forall k :: 0 <= k < |bad| ==> offenders[k] == bad[k].id
      invariant hasCompliant <==> good != []
    {
      var j := jobs[i];
      ClassesNext(want, false, jobs, i);
      ClassesNext(want, true, jobs, i);
      ghost var isBad, isGood := OneIf(IsUpdateJob(j) && !Compliant(want, j), j), OneIf(IsUpdateJob(j) && Compliant(want, j), j);
      bad, good := bad + isBad, good + isGood;
      if !IsUpdateJob(j) {
        continue;
      }
      if want && j.enable && !HasNonStableUpdateCall(j.calls) {
        hasCompliant := true;
        continue;
      }
      offenders := offenders + [j.id];
    }
    assert jobs[..|jobs|] == jobs;
  }

  // ----- findings

  function JobFinding(want: bool, j: Job): seq<Finding>
  {
    var path := "job:" + Itoa(j.id);
    if HasNonStableUpdateCall(j.calls) then [Finding(SECTION_FIRMWARE, path, Str("no non-stable Shelly.Update job"), Str("non-stable stage"))]
    else if !want then [Finding(SECTION_FIRMWARE, path, Str("no Shelly.Update job"), Str("present"))]
    else if !j.enable then [Finding(SECTION_FIRMWARE, path, Str("enabled"), Str("disabled"))]
    else []
  }

  function JobFindings(want: bool, updates: seq<Job>): seq<Finding>
  {
    if updates == [] then [] else JobFinding(want, updates[0]) + JobFindings(want, updates[1..])
  }

  function FirmwareFindings(want: bool, jobs: seq<Job>): seq<Finding>
  {
    var updates := Select(true, jobs);
    JobFindings(want, updates)
    + (if want && Complying(want, updates) == [] then [Finding(SECTION_FIRMWARE, "autoUpdate", Bool(true), Bool(false))] else [])
  }

  lemma {:induction false} JobFindingsAppend(want: bool, a: seq<Job>, b: seq<Job>)
    ensures JobFindings(want, a + b) == JobFindings(want, a) + JobFindings(want, b)
  {
    if a == [] {
      assert a + b == b;
    } else {
      assert (a + b)[1..] == a[1..] + b;
      calc {
        JobFindings(want, a + b);
        JobFinding(want, a[0]) + JobFindings(want, a[1..] + b);
        { JobFindingsAppend(want, a[1..], b); }
        JobFinding(want, a[0]) + (JobFindings(want, a[1..]) + JobFindings(want, b));
        JobFindings(want, a) + JobFindings(want, b);
      }
    }
  }

  lemma JobFindingsNext(want: bool, jobs: seq<Job>, i: nat)
    requires i < |jobs|
    ensures
      JobFindings(want, Select(true, jobs[..i + 1]))
      == JobFindings(want, Select(true, jobs[..i])) + (if IsUpdateJob(jobs[i]) then JobFinding(want, jobs[i]) else [])
  {
    assert jobs[..i + 1] == jobs[..i] + [jobs[i]];
    SelectAppend(true, jobs[..i], [jobs[i]]);
    SelectOne(true, jobs[i]);
    JobFindingsAppend(want, Select(true, jobs[..i]), Pick(true, jobs[i]));
    assert [jobs[i]][1..] == [];
  }

  method ListFirmwareFindings(want: bool, jobs: seq<Job>) returns (fs: seq<Finding>)
    ensures fs == FirmwareFindings(want, jobs)
  {
    fs := [];
    for i := 0 to |jobs|
      invariant fs == JobFindings(want, Select(true, jobs[..i]))
    {
      JobFindingsNext(want, jobs, i);
      if !IsUpdateJob(jobs[i]) {
        continue;
      }
      fs := fs + JobFinding(want, jobs[i]);
    }
    assert jobs[..|jobs|] == jobs;
    var _, hasCompliant := FirmwareOffenders(want, jobs);
    if want && !hasCompliant {
      fs := fs + [Finding(SECTION_FIRMWARE, "autoUpdate", Bool(true), Bool(false))];
    }
  }

  /** Observe and enforce agree: the job findings name the offenders, one each, in order. */
  lemma {:induction false} FindingsNameOffenders(want: bool, updates: seq<Job>)
    ensures |JobFindings(want, updates)| == |Offending(want, updates)|
    ensures forall i :: 0 <= i < |Offending(want, updates)| ==>
              JobFindings(want, updates)[i].path == "job:" + Itoa(Offending(want, updates)[i].id)
  {
    if updates != [] {
      FindingsNameOffenders(want, updates[1..]);
    }
  }

  // ----- applyFirmware as a plan

  datatype FwAction = Remove(job: Job) | AddAutoUpdate

  function Removals(jobs: seq<Job>): seq<FwAction>
  {
    if jobs == [] then [] else [Remove(jobs[0])] + Removals(jobs[1..])
  }

  function FwPlan(want: bool, jobs: seq<Job>): seq<FwAction>
  {
    var updates := Select(true, jobs);
    Removals(Offending(want, updates)) + (if want && Complying(want, updates) == [] then [AddAutoUpdate] else [])
  }

  function FwExecute(d: Device, a: FwAction): Option<Device>
  {
    match a
    case Remove(job) => Deleted(d, job.id)
    case AddAutoUpdate => Some(Created(d, true, AUTO_UPDATE_TIMESPEC, AUTO_UPDATE_CALLS))
  }

  /** The first offender, and what the update jobs look like without it. */
  lemma {:induction false} FirstOffender(want: bool, updates: seq<Job>) returns (p: nat)
    requires Offending(want, updates) != []
    ensures p < |updates|
    ensures Offending(want, updates) == [updates[p]] + Offending(want, Without(updates, p))
    ensures Complying(want, updates) == Complying(want, Without(updates, p))
  {
    if !Compliant(want, updates[0]) {
      p := 0;
      assert Without(updates, 0) == updates[1..];
    } else {
      var q := FirstOffender(want, updates[1..]);
      p := q + 1;
      assert Without(updates, p)[0] == updates[0] && Without(updates, p)[1..] == Without(updates[1..], q);
    }
  }

  lemma RemovalsPrepend(j: Job, jobs: seq<Job>)
    ensures Removals([j] + jobs) == [Remove(j)] + Removals(jobs)
  {
    assert ([j] + jobs)[1..] == jobs;
  }

  /** The jobs an action adds. */
  function Added(d: Device, a: FwAction): seq<Job>
  {
    if a.AddAutoUpdate? then [Job(d.nextId, true, AUTO_UPDATE_TIMESPEC, AUTO_UPDATE_CALLS)] else []
  }

  /** The first action, carried out: the other owner's jobs and every compliant job as they were, and the plan without its head. */
  ghost predicate FwSettled(want: bool, d: Device, a: FwAction, d': Device)
  {
    && d'.Valid() && Select(false, d'.jobs) == Select(false, d.jobs) && d'.nextId == d.nextId + |Added(d, a)|
    && Complying(want, Select(true, d'.jobs)) == Complying(want, Select(true, d.jobs)) + Added(d, a)
    && FwPlan(want, d.jobs) == [a] + FwPlan(want, d'.jobs)
  }

  lemma RemoveSettles(want: bool, d: Device)
    requires d.Valid() && Offending(want, Select(true, d.jobs)) != []
    ensures
      var a := Remove(Offending(want, Select(true, d.jobs))[0]);
      FwExecute(d, a).Some? && FwSettled(want, d, a, FwExecute(d, a).value)
  {
    var updates := Select(true, d.jobs);
    var p := FirstOffender(want, updates);
    var rest := Without(updates, p);
    DeleteSelected(true, d, p);
    RemovalsPrepend(updates[p], Offending(want, rest));
    var tail: seq<FwAction> := if want && Complying(want, rest) == [] then [AddAutoUpdate] else [];
    Assoc([Remove(updates[p])], Removals(Offending(want, rest)), tail);
  }

  lemma AddSettles(want: bool, d: Device)
    requires d.Valid() && want && Offending(want, Select(true, d.jobs)) == [] && Complying(want, Select(true, d.jobs)) == []
    ensures FwSettled(want, d, AddAutoUpdate, FwExecute(d, AddAutoUpdate).value)
  {
    var updates := Select(true, d.jobs);
    var j := Job(d.nextId, true, AUTO_UPDATE_TIMESPEC, AUTO_UPDATE_CALLS);
    assert AUTO_UPDATE_CALLS[1..] == [];
    assert IsUpdateJob(j) && Compliant(want, j);
    CreateSelected(true, d, true, AUTO_UPDATE_TIMESPEC, AUTO_UPDATE_CALLS);
    ClassAppend(want, true, updates, [j]);
    ClassAppend(want, false, updates, [j]);
    ClassOne(want, true, j);
    ClassOne(want, false, j);
  }

  function FwRunAll(d: Device, actions: seq<FwAction>): (r: Option<Device>)
    decreases |actions|
  {
    if actions == [] then Some(d)
    else
      var r := FwExecute(d, actions[0]);
      if r.None? then None else FwRunAll(r.value, actions[1..])
  }

  lemma FwFirstActionSettles(want: bool, d: Device)
    requires d.Valid() && FwPlan(want, d.jobs) != []
    ensures
      var a := FwPlan(want, d.jobs)[0];
      FwExecute(d, a).Some? && FwSettled(want, d, a, FwExecute(d, a).value)
  {
    if Offending(want, Select(true, d.jobs)) != [] {
      RemoveSettles(want, d);
    } else {
      AddSettles(want, d);
    }
  }

  /**
   Wherever applyFirmware stops, the part of its plan still to do is what planning
   again yields; the jobs it does not own are untouched and in order, and every
   compliant update job is still there as it was.
   */
  lemma {:induction false} FwReplanYieldsRest(want: bool, d: Device, done: seq<FwAction>, todo: seq<FwAction>)
    requires d.Valid() && FwPlan(want, d.jobs) == done + todo
    ensures FwRunAll(d, done).Some?
    ensures
      var d' := FwRunAll(d, done).value;
      && d'.Valid() && FwPlan(want, d'.jobs) == todo
      && Select(false, d'.jobs) == Select(false, d.jobs)
      && Complying(want, Select(true, d.jobs)) <= Complying(want, Select(true, d'.jobs))
    decreases |done|
  {
    if done != [] {
      FwFirstActionSettles(want, d);
      var d1 := FwExecute(d, done[0]).value;
      assert done + todo == [done[0]] + (done[1..] + todo);
      Cancel(done[0], FwPlan(want, d1.jobs), done[1..] + todo);
      FwReplanYieldsRest(want, d1, done[1..], todo);
    }
  }

  lemma {:induction false} RemovalsAre(jobs: seq<Job>)
    ensures |Removals(jobs)| == |jobs|
    ensures forall i :: 0 <= i < |jobs| ==> Removals(jobs)[i] == Remove(jobs[i])
  {
    if jobs != [] {
      RemovalsAre(jobs[1..]);
    }
  }

  /** One finding per planned action: nothing is reported that enforcement would not do, nor the reverse. */
  lemma FindingsCountActions(want: bool, jobs: seq<Job>)
    ensures |FirmwareFindings(want, jobs)| == |FwPlan(want, jobs)|
  {
    FindingsNameOffenders(want, Select(true, jobs));
    RemovalsAre(Offending(want, Select(true, jobs)));
  }

  lemma {:induction false} FwRunAllExtends(d: Device, done: seq<FwAction>, a: FwAction)
    requires FwRunAll(d, done).Some?
    ensures FwRunAll(d, done + [a]) == FwExecute(FwRunAll(d, done).value, a)
    decreases |done|
  {
    if done != [] {
      assert (done + [a])[1..] == done[1..] + [a];
      FwRunAllExtends(FwExecute(d, done[0]).value, done[1..], a);
    } else {
      assert [a][1..] == [];
    }
  }

  /**
   applyFirmware: list, delete the offenders in order, then create the standard daily
   job if none complies, stopping at the first error. `done` counts what was carried out;
   the network decides whether the list is read and what becomes of the i-th call.
   */
  method ApplyFirmware(store: ScheduleStore, want: bool, listed: bool, fate: nat -> Fault) returns (ok: bool, done: nat)
    modifies store
    ensures
      var plan := FwPlan(want, old(store.jobs));
      && (ok <==> listed && done == |plan| && !LastLost(fate, done))
      && (if listed then Carried(old(store.State()), plan, fate, ok, done, store.State()) else done == 0 && store.State() == old(store.State()))
  {
    ghost var d, plan := store.State(), FwPlan(want, store.jobs);
    if !listed {
      return false, 0;
    }
    var offenders, hasCompliant := FirmwareOffenders(want, store.jobs);
    RemovalsAre(Offending(want, Select(true, store.jobs)));
    ok, done := DeleteOffenders(store, offenders, fate, d, plan);
    if ok && want && !hasCompliant {
      ok, done := CreateAutoUpdate(store, fate, d, plan, done);
    }
  }

  /** The plan has been carried out up to here, and it stopped for a reason. */
  ghost predicate Carried(d: Device, plan: seq<FwAction>, fate: nat -> Fault, ok: bool, done: nat, now: Device)
  {
    && done <= |plan| && WentWell(fate, done) && FwRunAll(d, plan[..done]) == Some(now) && (ok && done > 0 ==> fate(done - 1) == NoFault)
    && (!ok && !LastLost(fate, done) ==> done < |plan| && (fate(done) == NotDone || FwExecute(now, plan[done]).None?))
  }

  /** The deletes, in order. */
  method DeleteOffenders(store: ScheduleStore, offenders: seq<int>, fate: nat -> Fault, ghost d: Device, ghost plan: seq<FwAction>)
    returns (ok: bool, done: nat)
    requires d == store.State() && |offenders| <= |plan| && forall i :: 0 <= i < |offenders| ==> plan[i].Remove? && plan[i].job.id == offenders[i]
    modifies store
    ensures done <= |offenders| && (ok ==> done == |offenders|) && Carried(d, plan, fate, ok, done, store.State())
  {
    done := 0;
    while done < |offenders|
      invariant done <= |offenders| && FwRunAll(d, plan[..done]) == Some(store.State())
      invariant forall i :: 0 <= i < done ==> fate(i) == NoFault
    {
      FwRunAllExtends(d, plan[..done], plan[done]);
      assert plan[..done + 1] == plan[..done] + [plan[done]];
      var fault := fate(done);
      if fault == NotDone {
        return false, done;
      }
      var answered := store.HandleDelete(offenders[done]);
      if !answered {
        return false, done;
      }
      done := done + 1;
      if fault == AnswerLost {
        return false, done;
      }
    }
    ok := true;
  }

  /** The one create, after all the deletes. */
  method CreateAutoUpdate(store: ScheduleStore, fate: nat -> Fault, ghost d: Device, ghost plan: seq<FwAction>, before: nat) returns (ok: bool, done: nat)
    requires before + 1 == |plan| && plan[before] == AddAutoUpdate && Carried(d, plan, fate, true, before, store.State())
    modifies store
    ensures before <= done && (ok ==> done == |plan|) && Carried(d, plan, fate, ok, done, store.State())
  {
    done := before;
    var fault := fate(done);
    if fault == NotDone {
      return false, done;
    }
    FwRunAllExtends(d, plan[..done], plan[done]);
    assert plan[..done + 1] == plan[..done] + [plan[done]];
    var id := store.HandleCreate(true, AUTO_UPDATE_TIMESPEC, AUTO_UPDATE_CALLS);
    done := done + 1;
    ok := fault != AnswerLost;
  }

  // ----- both sections

  /** What the firmware section writes when it has findings, on a device that answers. */
  function AfterFirmware(want: Option<bool>, d: Device): Option<Device>
  {
    if want.Some? && FirmwareFindings(want.value, d.jobs) != [] then FwRunAll(d, FwPlan(want.value, d.jobs)) else Some(d)
  }

  /** What the schedule section then writes, if it had findings before enforcement began. */
  function AfterBoth(want: Option<bool>, section: Option<seq<JobSpec>>, d: Device): Option<Device>
  {
    var d1 := AfterFirmware(want, d);
    if d1.None? || section.None? || Plan(section, d.jobs) == [] then d1
    else RunAll(section.value, d1.value, Plan(section, d1.value.jobs))
  }

  lemma FirmwarePassSettles(want: Option<bool>, d: Device)
    requires d.Valid()
    ensures
      var r := AfterFirmware(want, d);
      && r.Some? && r.value.Valid()
      && (want.Some? ==> FirmwareFindings(want.value, r.value.jobs) == [])
      && Select(false, r.value.jobs) == Select(false, d.jobs)
      && (want.Some? ==> Complying(want.value, Select(true, d.jobs)) <= Complying(want.value, Select(true, r.value.jobs)))
      && (want.None? ==> r.value == d)
  {
    if want.Some? && FirmwareFindings(want.value, d.jobs) != [] {
      var plan := FwPlan(want.value, d.jobs);
      assert plan == plan + [];
      FwReplanYieldsRest(want.value, d, plan, []);
      FindingsCountActions(want.value, FwRunAll(d, plan).value.jobs);
    }
  }

  /**
   The two owners do not interfere: enforcing firmware, then schedule, on any job list
   leaves no finding of either; schedule leaves every update job as firmware left it,
   firmware leaves every other job as it found it, and compliant update jobs survive both.
   */
  lemma SectionsDoNotInterfere(want: Option<bool>, section: Option<seq<JobSpec>>, d: Device)
    requires d.Valid()
    requires section.Some? ==> forall i :: 0 <= i < |Plan(section, d.jobs)| ==> Sendable(section.value, Plan(section, d.jobs)[i])
    ensures
      var d1, d2 := AfterFirmware(want, d), AfterBoth(want, section, d);
      && d1.Some? && d2.Some? && d2.value.Valid()
      && (want.Some? ==> FirmwareFindings(want.value, d2.value.jobs) == [])
      && Plan(section, d2.value.jobs) == []
      && Select(false, d1.value.jobs) == Select(false, d.jobs)
      && Select(true, d2.value.jobs) == Select(true, d1.value.jobs)
      && (want.Some? ==> Complying(want.value, Select(true, d.jobs)) <= Complying(want.value, Select(true, d2.value.jobs)))
  {
    FirmwarePassSettles(want, d);
    var d1 := AfterFirmware(want, d).value;
    if section.Some? && Plan(section, d.jobs) != [] {
      FullPassSettles(section.value, d1);
    }
  }
}
