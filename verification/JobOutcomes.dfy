/**
 What the two owners of the job list leave on the device, job by job, said of the profile
 and of the jobs alone (internal/controller/schedule.go, internal/controller/firmware.go).
 */
module JobOutcomes {
  import opened Wrappers
  import opened Json
  import opened Jobs
  import opened Schedule
  import opened Firmware

  // ----- whose job it is

  /** Some call is a Shelly.Update, by its exact name. */
  ghost predicate Updates(calls: seq<Call>)
  {
    exists i :: 0 <= i < |calls| && calls[i].rpc == "Shelly.Update"
  }

  /** Some Shelly.Update names a stage that is not stable. */
  ghost predicate LeavesStable(calls: seq<Call>)
  {
    exists i :: 0 <= i < |calls| && calls[i].rpc == "Shelly.Update" && "stage" in calls[i].params && calls[i].params["stage"] != Str("stable")
  }

  lemma {:induction false} UpdatesMeans(calls: seq<Call>)
    ensures InvokesUpdate(calls) <==> Updates(calls)
    ensures HasNonStableUpdateCall(calls) <==> LeavesStable(calls)
  {
    if calls != [] {
      UpdatesMeans(calls[1..]);
      assert forall i :: 0 < i < |calls| ==> calls[i] == calls[1..][i - 1];
      assert forall i :: 0 <= i < |calls[1..]| ==> calls[1..][i] == calls[i + 1];
    }
  }

  /** The character reads as the ASCII one, case aside; a long s and a Kelvin sign read as letters too. */
  predicate Reads(c: char, w: char)
  {
    || c == w
    || ('a' <= w <= 'z' && c as int == w as int - 32) || ('A' <= w <= 'Z' && c as int == w as int + 32)
    || ((w == 's' || w == 'S') && c == '\U{017F}') || ((w == 'k' || w == 'K') && c == '\U{212A}')
  }

  lemma FoldReads(c: char, w: char)
    requires w as int < 128
    ensures FoldChar(c) == FoldChar(w) <==> Reads(c, w)
  {
  }

  /** A declared job the schedule section leaves to the other owner: some call reads Shelly.Update, in any case. */
  ghost predicate LeftToFirmware(spec: JobSpec)
  {
    exists i :: 0 <= i < |spec.calls| && ReadsUpdate(spec.calls[i].rpc)
  }

  ghost predicate ReadsUpdate(s: string)
  {
    |s| == |"Shelly.Update"| && forall i :: 0 <= i < |s| ==> Reads(s[i], "Shelly.Update"[i])
  }

  lemma LeftMeans(spec: JobSpec)
    ensures SpecIsUpdateJob(spec) <==> LeftToFirmware(spec)
  {
    forall s ensures EqualFold(s, UPDATE_METHOD) <==> ReadsUpdate(s) {
      forall i | 0 <= i < |s| && |s| == |UPDATE_METHOD| ensures FoldChar(s[i]) == FoldChar(UPDATE_METHOD[i]) <==> Reads(s[i], UPDATE_METHOD[i]) {
        PlainWord(i);
        FoldReads(s[i], UPDATE_METHOD[i]);
      }
    }
  }

  lemma PlainWord(i: nat)
    requires i < |UPDATE_METHOD|
    ensures UPDATE_METHOD[i] as int < 128
  {
  }

  // ----- what the schedule section leaves

  /** The job is the declared one: its timespec, its calls with their params, and enabled unless declared otherwise. */
  predicate StandsAs(spec: JobSpec, job: Job)
  {
    && job.timespec == spec.timespec && job.enable == (spec.enable != Some(false)) && |job.calls| == |spec.calls|
    && forall i :: 0 <= i < |spec.calls| ==>
         job.calls[i].rpc == spec.calls[i].rpc && job.calls[i].params == if spec.calls[i].params.Params? then spec.calls[i].params.fields else map[]
  }

  lemma SameKeyStands(spec: JobSpec, job: Job)
    ensures JobKey(true, job) == SpecKey(true, spec) <==> StandsAs(spec, job)
  {
    MatchesIsSameContent(job, spec);
  }

  /** A declared job can be created exactly if it has calls and no params that are something else than an object. */
  lemma CreateCanBeSent(specs: seq<JobSpec>, si: nat)
    ensures Sendable(specs, Create(si)) <==>
              si < |specs| && specs[si].calls != [] && forall i :: 0 <= i < |specs[si].calls| ==> specs[si].calls[i].params.Params? || specs[si].calls[i].params.NoParams?
  {
    if si < |specs| {
      var calls := specs[si].calls;
      assert SpecCalls(specs[si]).None? <==> exists i :: 0 <= i < |calls| && calls[i].params.NotAnObject?;
    }
  }

  /** A planned update turns a job of the device on or off and changes nothing else about it. */
  lemma {:induction false} UpdateFlips(specs: seq<JobSpec>, si: nat, rem: seq<Job>, i: nat) returns (k: nat)
    requires si <= |specs| && i < |Walk(specs, si, rem).updates|
    ensures k < |rem| && Walk(specs, si, rem).updates[i] == Update(rem[k].(enable := !rem[k].enable))
    decreases |specs| - si
  {
    if SpecIsUpdateJob(specs[si]) {
      k := UpdateFlips(specs, si + 1, rem, i);
    } else {
      var m := FirstMatch(specs[si], rem);
      if m < |rem| && rem[m].enable != EnableOf(specs[si]) && i == 0 {
        k := m;
      } else {
        var q := UpdateFlips(specs, si + 1, Left(rem, m), if m < |rem| && rem[m].enable != EnableOf(specs[si]) then i - 1 else i);
        k := if m == |rem| || q < m then q else q + 1;
      }
    }
  }

  lemma {:induction false} DeclaredIsCounted(specs: seq<JobSpec>, si: nat, i: nat)
    requires si <= i < |specs| && !SpecIsUpdateJob(specs[i])
    ensures Declared(true, specs, si, SpecKey(true, specs[i])) > 0
    decreases i - si
  {
    if si < i {
      DeclaredIsCounted(specs, si + 1, i);
    }
  }

  lemma {:induction false} CountedIsDeclared(specs: seq<JobSpec>, si: nat, x: Key) returns (i: nat)
    requires si <= |specs| && Declared(true, specs, si, x) > 0
    ensures si <= i < |specs| && !SpecIsUpdateJob(specs[i]) && SpecKey(true, specs[i]) == x
    decreases |specs| - si
  {
    if !SpecIsUpdateJob(specs[si]) && SpecKey(true, specs[si]) == x {
      i := si;
    } else {
      i := CountedIsDeclared(specs, si + 1, x);
    }
  }

  lemma {:induction false} PresentIsThere(rem: seq<Job>, x: Key) returns (job: Job)
    requires Present(true, rem, x) > 0
    ensures job in rem && JobKey(true, job) == x
  {
    if JobKey(true, rem[0]) == x {
      job := rem[0];
    } else {
      job := PresentIsThere(rem[1..], x);
    }
  }

  lemma {:induction false} ThereIsPresent(rem: seq<Job>, job: Job)
    requires job in rem
    ensures Present(true, rem, JobKey(true, job)) > 0
  {
    if rem[0] != job {
      ThereIsPresent(rem[1..], job);
    }
  }

  /** With nothing planned every declared job stands, but for those left to the other owner. */
  lemma DeclaredStands(specs: seq<JobSpec>, jobs: seq<Job>, i: nat) returns (job: Job)
    requires Plan(Some(specs), jobs) == [] && i < |specs| && !LeftToFirmware(specs[i])
    ensures job in jobs && StandsAs(specs[i], job) && !Updates(job.calls)
  {
    LeftMeans(specs[i]);
    EmptyPlanIsConverged(specs, jobs, SpecKey(true, specs[i]));
    DeclaredIsCounted(specs, 0, i);
    job := PresentIsThere(Select(false, jobs), SpecKey(true, specs[i]));
    SameKeyStands(specs[i], job);
    SelectedAreThere(false, jobs, job);
    UpdatesMeans(job.calls);
  }

  /** And whatever stands and makes no update is declared. */
  lemma StandingIsDeclared(specs: seq<JobSpec>, jobs: seq<Job>, job: Job) returns (i: nat)
    requires Plan(Some(specs), jobs) == [] && job in jobs && !Updates(job.calls)
    ensures i < |specs| && !LeftToFirmware(specs[i]) && StandsAs(specs[i], job)
  {
    UpdatesMeans(job.calls);
    SelectedAreThere(false, jobs, job);
    var x := JobKey(true, job);
    ThereIsPresent(Select(false, jobs), job);
    EmptyPlanIsConverged(specs, jobs, x);
    i := CountedIsDeclared(specs, 0, x);
    SameKeyStands(specs[i], job);
    LeftMeans(specs[i]);
  }

  /** The section's jobs are the declared ones: each declared one stands, and each that stands is declared. */
  ghost predicate Stand(specs: seq<JobSpec>, jobs: seq<Job>)
  {
    && (forall i :: 0 <= i < |specs| && !LeftToFirmware(specs[i]) ==> exists job :: job in jobs && StandsAs(specs[i], job))
    && (forall job :: job in jobs && !Updates(job.calls) ==> exists i :: 0 <= i < |specs| && !LeftToFirmware(specs[i]) && StandsAs(specs[i], job))
  }

  lemma NothingPlannedStands(specs: seq<JobSpec>, jobs: seq<Job>)
    requires Plan(Some(specs), jobs) == []
    ensures Stand(specs, jobs)
  {
    forall i | 0 <= i < |specs| && !LeftToFirmware(specs[i]) ensures exists job :: job in jobs && StandsAs(specs[i], job) {
      var job := DeclaredStands(specs, jobs, i);
    }
    forall job | job in jobs && !Updates(job.calls) ensures exists i :: 0 <= i < |specs| && !LeftToFirmware(specs[i]) && StandsAs(specs[i], job) {
      var i := StandingIsDeclared(specs, jobs, job);
    }
  }

  /** A full pass leaves the declared jobs, and the update jobs that stood there before. */
  lemma DeclaredJobsStand(specs: seq<JobSpec>, d: Device, job: Job)
    requires d.Valid() && RunAll(specs, d, Plan(Some(specs), d.jobs)).Some?
    ensures
      var jobs := RunAll(specs, d, Plan(Some(specs), d.jobs)).value.jobs;
      Stand(specs, jobs) && (Updates(job.calls) ==> (job in jobs <==> job in d.jobs))
  {
    FullPassSettles(specs, d);
    var jobs := RunAll(specs, d, Plan(Some(specs), d.jobs)).value.jobs;
    NothingPlannedStands(specs, jobs);
    UpdatesMeans(job.calls);
    SelectedAreThere(true, jobs, job);
    SelectedAreThere(true, d.jobs, job);
  }

  // ----- what the firmware section leaves

  lemma {:induction false} ClassMembers(want: bool, good: bool, updates: seq<Job>, job: Job)
    ensures job in Class(want, good, updates) <==> job in updates && Compliant(want, job) == good
  {
    if updates != [] {
      ClassMembers(want, good, updates[1..], job);
    }
  }

  /** The job that automatic updates are turned on with. */
  function AutoUpdate(id: int): Job
  {
    Job(id, true, "0 0 0 * * SUN,MON,TUE,WED,THU,FRI,SAT", [Call("Shelly.Update", map["stage" := Str("stable")])])
  }

  lemma {:induction false} FwAdds(want: bool, d: Device)
    requires d.Valid()
    ensures
      var r := FwRunAll(d, FwPlan(want, d.jobs));
      var good := Complying(want, Select(true, d.jobs));
      && r.Some? && FwPlan(want, r.value.jobs) == [] && Select(false, r.value.jobs) == Select(false, d.jobs)
      && Complying(want, Select(true, r.value.jobs)) == good + if want && good == [] then [AutoUpdate(d.nextId)] else []
    decreases |FwPlan(want, d.jobs)|
  {
    var plan := FwPlan(want, d.jobs);
    if plan != [] {
      FwFirstActionSettles(want, d);
      var d1 := FwExecute(d, plan[0]).value;
      assert plan[1..] == FwPlan(want, d1.jobs);
      FwAdds(want, d1);
    }
  }

  /** A job automatic updates may run by. */
  ghost predicate Good(job: Job)
  {
    Updates(job.calls) && job.enable && !LeavesStable(job.calls)
  }

  /**
   After a pass of the firmware section exactly these jobs are on the device: all that make
   no update; those that make only stable ones and are enabled, if updates are wanted; and
   the standard daily job, if updates are wanted and none was there to make them.
   */
  lemma FirmwareLeaves(want: bool, d: Device, job: Job)
    requires d.Valid()
    ensures
      var r := FwRunAll(d, FwPlan(want, d.jobs));
      && r.Some?
      && (job in r.value.jobs <==>
          || (job in d.jobs && (!Updates(job.calls) || (want && Good(job))))
          || (want && (forall j :: j in d.jobs ==> !Good(j)) && job == AutoUpdate(d.nextId)))
  {
    FwAdds(want, d);
    var r := FwRunAll(d, FwPlan(want, d.jobs)).value;
    var good := Complying(want, Select(true, d.jobs));
    InJobs(want, d.jobs, job);
    InJobs(want, r.jobs, job);
    RemovalsAre(Offending(want, Select(true, r.jobs)));
    if want {
      NoneGood(d.jobs);
    }
  }

  lemma InJobs(want: bool, jobs: seq<Job>, job: Job)
    ensures job in jobs <==> job in Select(false, jobs) || job in Offending(want, Select(true, jobs)) || job in Complying(want, Select(true, jobs))
    ensures job in Select(false, jobs) <==> job in jobs && !Updates(job.calls)
    ensures job in Complying(want, Select(true, jobs)) <==> job in jobs && want && Good(job)
  {
    SelectedAreThere(true, jobs, job);
    SelectedAreThere(false, jobs, job);
    ClassMembers(want, false, Select(true, jobs), job);
    ClassMembers(want, true, Select(true, jobs), job);
    UpdatesMeans(job.calls);
  }

  lemma NoneGood(jobs: seq<Job>)
    ensures Complying(true, Select(true, jobs)) == [] <==> forall j :: j in jobs ==> !Good(j)
  {
    var good := Complying(true, Select(true, jobs));
    forall j | j in jobs ensures Good(j) <==> j in good {
      InJobs(true, jobs, j);
    }
    if good != [] {
      InJobs(true, jobs, good[0]);
    }
  }
}
