/**
 schedule.go as it runs: scheduleActions marking matches in two flag arrays, and
 applySchedule sending the plan to a device whose answers may be refusals or lost.
 */
module ScheduleApply {
  import opened Wrappers
  import opened Jobs
  import opened Schedule

  // ----- the flag arrays, read as the walk's remaining jobs and planned creates

  /** The jobs from lo to hi whose flag is down. */
  function Open(owned: seq<Job>, flags: seq<bool>, lo: nat, hi: nat): seq<Job>
    requires lo <= hi <= |owned| == |flags|
  {
    if lo == hi then []
    else Open(owned, flags, lo, hi - 1) + (if flags[hi - 1] then [] else [owned[hi - 1]])
  }

  /** Creates for the first n declared jobs that are unmatched and no update jobs. */
  function Unmade(specs: seq<JobSpec>, matched: seq<bool>, n: nat): seq<Action>
    requires n <= |specs| == |matched|
  {
    if n == 0 then []
    else Unmade(specs, matched, n - 1) + (if matched[n - 1] || SpecIsUpdateJob(specs[n - 1]) then [] else [Create(n - 1)])
  }

  lemma {:induction false} OpenSplits(owned: seq<Job>, flags: seq<bool>, lo: nat, mid: nat, hi: nat)
    requires lo <= mid <= hi <= |owned| == |flags|
    ensures Open(owned, flags, lo, hi) == Open(owned, flags, lo, mid) + Open(owned, flags, mid, hi)
  {
    if mid < hi {
      OpenSplits(owned, flags, lo, mid, hi - 1);
    }
  }

  lemma {:induction false} OpenElsewhere(owned: seq<Job>, flags: seq<bool>, i: nat, lo: nat, hi: nat)
    requires lo <= hi <= |owned| == |flags| && i < |flags| && !(lo <= i < hi)
    ensures Open(owned, flags[i := true], lo, hi) == Open(owned, flags, lo, hi)
  {
    if lo < hi {
      OpenElsewhere(owned, flags, i, lo, hi - 1);
    }
  }

  lemma {:induction false} OpenAll(owned: seq<Job>, flags: seq<bool>, hi: nat)
    requires hi <= |owned| == |flags| && forall i :: 0 <= i < |flags| ==> !flags[i]
    ensures Open(owned, flags, 0, hi) == owned[..hi]
  {
    if hi > 0 {
      OpenAll(owned, flags, hi - 1);
    }
  }

  lemma {:induction false} UnmadeElsewhere(specs: seq<JobSpec>, matched: seq<bool>, i: nat, n: nat)
    requires n <= i < |specs| == |matched|
    ensures Unmade(specs, matched[i := true], n) == Unmade(specs, matched, n)
  {
    if n > 0 {
      UnmadeElsewhere(specs, matched, i, n - 1);
    }
  }

  lemma UnmadeMarked(specs: seq<JobSpec>, matched: seq<bool>, i: nat)
    requires i < |specs| == |matched|
    ensures Unmade(specs, matched[i := true], i + 1) == Unmade(specs, matched, i)
    ensures SpecIsUpdateJob(specs[i]) ==> Unmade(specs, matched, i + 1) == Unmade(specs, matched, i)
  {
    UnmadeElsewhere(specs, matched, i, i);
  }

  /** The job at di is the walk's match: raising its flag is taking it from the remaining jobs. */
  lemma TakeOpen(spec: JobSpec, owned: seq<Job>, flags: seq<bool>, di: nat)
    requires di < |owned| == |flags| && !flags[di] && Matches(owned[di], spec)
    requires NoMatch(spec, Open(owned, flags, 0, di))
    ensures
      var rem := Open(owned, flags, 0, |owned|);
      var k := FirstMatch(spec, rem);
      k < |rem| && rem[k] == owned[di] && Left(rem, k) == Open(owned, flags[di := true], 0, |owned|)
  {
    var before, after := Open(owned, flags, 0, di), Open(owned, flags, di + 1, |owned|);
    OpenAround(owned, flags, di);
    OpenAround(owned, flags[di := true], di);
    OpenElsewhere(owned, flags, di, 0, di);
    OpenElsewhere(owned, flags, di, di + 1, |owned|);
    MatchInMiddle(spec, before, owned[di], after);
  }

  /** The open jobs are those before, the one at di if it is open, and those after. */
  lemma OpenAround(owned: seq<Job>, flags: seq<bool>, di: nat)
    requires di < |owned| == |flags|
    ensures Open(owned, flags, 0, |owned|) ==
            Open(owned, flags, 0, di) + (if flags[di] then [] else [owned[di]]) + Open(owned, flags, di + 1, |owned|)
  {
    OpenSplits(owned, flags, 0, di + 1, |owned|);
    assert Open(owned, flags, 0, di + 1) == Open(owned, flags, 0, di) + (if flags[di] then [] else [owned[di]]);
  }

  lemma MatchInMiddle(spec: JobSpec, before: seq<Job>, job: Job, after: seq<Job>)
    requires NoMatch(spec, before) && Matches(job, spec)
    ensures
      var rem := before + [job] + after;
      FirstMatch(spec, rem) == |before| && rem[|before|] == job && Left(rem, |before|) == before + [] + after
  {
    Middle(before, job, job, after);
    FirstMatchIs(spec, before + [job] + after, |before|);
  }

  ghost predicate NoMatch(spec: JobSpec, jobs: seq<Job>)
  {
    forall i :: 0 <= i < |jobs| ==> !Matches(jobs[i], spec)
  }

  lemma DeletesAppend(rest: seq<Job>, job: Job)
    ensures Deletes(rest + [job]) == Deletes(rest) + [Delete(job)]
  {
    if rest != [] {
      assert (rest + [job])[1..] == rest[1..] + [job];
      DeletesAppend(rest[1..], job);
    }
  }

  lemma Assoc<T>(a: seq<T>, b: seq<T>, c: seq<T>)
    ensures a + (b + c) == a + b + c
  {
  }

  /** The plan so far and the walk still to do make up the whole walk. */
  ghost predicate Agrees(whole: Split, updates: seq<Action>, made: seq<Action>, w: Split)
  {
    whole == Split(updates + w.updates, made + w.creates, w.rest)
  }

  lemma AgreesUnmatched(whole: Split, specs: seq<JobSpec>, si: nat, rem: seq<Job>, updates: seq<Action>, made: seq<Action>)
    requires si < |specs| && Agrees(whole, updates, made, Walk(specs, si, rem))
    requires !SpecIsUpdateJob(specs[si]) && NoMatch(specs[si], rem)
    ensures Agrees(whole, updates, made + [Create(si)], Walk(specs, si + 1, rem))
  {
    FirstMatchIs(specs[si], rem, |rem|);
    var w := Walk(specs, si + 1, rem);
    assert Walk(specs, si, rem) == Account(specs[si], si, rem, |rem|, w);
    Assoc(made, [Create(si)], w.creates);
  }

  /** The update a match needs, if any. */
  function Fix(job: Job, want: bool): seq<Action>
  {
    if job.enable == want then [] else [Update(job.(enable := want))]
  }

  lemma AgreesMatched(whole: Split, specs: seq<JobSpec>, si: nat, rem: seq<Job>, updates: seq<Action>, made: seq<Action>)
    requires si < |specs| && Agrees(whole, updates, made, Walk(specs, si, rem))
    requires !SpecIsUpdateJob(specs[si]) && FirstMatch(specs[si], rem) < |rem|
    ensures
      var k := FirstMatch(specs[si], rem);
      Agrees(whole, updates + Fix(rem[k], EnableOf(specs[si])), made, Walk(specs, si + 1, Left(rem, k)))
  {
    var k := FirstMatch(specs[si], rem);
    var w := Walk(specs, si + 1, Left(rem, k));
    assert Walk(specs, si, rem) == Account(specs[si], si, rem, k, w);
    var fix := Fix(rem[k], EnableOf(specs[si]));
    assert Account(specs[si], si, rem, k, w) == w.(updates := fix + w.updates);
    Assoc(updates, fix, w.updates);
  }

  lemma AgreesAtStart(whole: Split)
    ensures Agrees(whole, [], [], whole)
  {
  }

  lemma AgreesAtEnd(whole: Split, specs: seq<JobSpec>, rem: seq<Job>, updates: seq<Action>, made: seq<Action>)
    requires Agrees(whole, updates, made, Walk(specs, |specs|, rem))
    ensures whole == Split(updates, made, rem)
  {
  }

  // ----- scheduleActions

  method OwnedJobs(deviceJobs: seq<Job>) returns (owned: seq<Job>)
    ensures owned == Select(false, deviceJobs)
  {
    owned := [];
    for i := 0 to |deviceJobs|
      invariant owned == Select(false, deviceJobs[..i])
    {
      SelectAppend(false, deviceJobs[..i], [deviceJobs[i]]);
      SelectOne(false, deviceJobs[i]);
      assert deviceJobs[..i + 1] == deviceJobs[..i] + [deviceJobs[i]];
      if !IsUpdateJob(deviceJobs[i]) {
        owned := owned + [deviceJobs[i]];
      }
    }
    assert deviceJobs[..|deviceJobs|] == deviceJobs;
  }

  /** One declared job looks for its match: the first open job of its content, which it marks. */
  method MatchOne(spec: JobSpec, owned: seq<Job>, deviceMatched: array<bool>) returns (found: bool, di: nat)
    requires deviceMatched.Length == |owned|
    modifies deviceMatched
    ensures
      var rem := old(Open(owned, deviceMatched[..], 0, |owned|));
      var k := FirstMatch(spec, rem);
      if found then
        k < |rem| && di < |owned| && rem[k] == owned[di] && Open(owned, deviceMatched[..], 0, |owned|) == Left(rem, k)
      else
        NoMatch(spec, rem) && deviceMatched[..] == old(deviceMatched[..])
  {
    ghost var flags := deviceMatched[..];
    di := 0;
    while di < |owned|
      invariant di <= |owned| && deviceMatched[..] == flags
      invariant NoMatch(spec, Open(owned, flags, 0, di))
    {
      if !deviceMatched[di] && Matches(owned[di], spec) {
        TakeOpen(spec, owned, flags, di);
        deviceMatched[di] := true;
        assert deviceMatched[..] == flags[di := true];
        return true, di;
      }
      di := di + 1;
    }
    return false, di;
  }

  /** One declared job of the first pass: matched and marked, with the update its match needs, or left for a create. */
  method MatchSpec(specs: seq<JobSpec>, si: nat, owned: seq<Job>, matched: array<bool>, deviceMatched: array<bool>,
                   ghost actions: seq<Action>, ghost whole: Split)
    returns (more: seq<Action>)
    requires si < |specs| && matched != deviceMatched && matched.Length == |specs| && deviceMatched.Length == |owned|
    requires forall i :: si <= i < |specs| ==> !matched[i]
    requires Agrees(whole, actions, Unmade(specs, matched[..], si), Walk(specs, si, Open(owned, deviceMatched[..], 0, |owned|)))
    modifies matched, deviceMatched
    ensures forall i :: si < i < |specs| ==> !matched[i]
    ensures Agrees(whole, actions + more, Unmade(specs, matched[..], si + 1), Walk(specs, si + 1, Open(owned, deviceMatched[..], 0, |owned|)))
  {
    ghost var marks, rem := matched[..], Open(owned, deviceMatched[..], 0, |owned|);
    ghost var made := Unmade(specs, marks, si);
    UnmadeMarked(specs, marks, si);
    more := [];
    assert actions + more == actions;
    if SpecIsUpdateJob(specs[si]) {
      return;
    }
    var found, di := MatchOne(specs[si], owned, deviceMatched);
    if found {
      AgreesMatched(whole, specs, si, rem, actions, made);
      matched[si] := true;
      assert matched[..] == marks[si := true];
      more := Fix(owned[di], EnableOf(specs[si]));
    } else {
      AgreesUnmatched(whole, specs, si, rem, actions, made);
      assert matched[..] == marks;
    }
  }

  /** The first pass: match declared jobs to device jobs by content, marking both. */
  method MatchJobs(specs: seq<JobSpec>, owned: seq<Job>, matched: array<bool>, deviceMatched: array<bool>) returns (actions: seq<Action>)
    requires matched != deviceMatched && matched.Length == |specs| && deviceMatched.Length == |owned|
    requires (forall i :: 0 <= i < |specs| ==> !matched[i]) && (forall i :: 0 <= i < |owned| ==> !deviceMatched[i])
    modifies matched, deviceMatched
    ensures
      var w := Walk(specs, 0, owned);
      && actions == w.updates
      && Unmade(specs, matched[..], |specs|) == w.creates
      && Open(owned, deviceMatched[..], 0, |owned|) == w.rest
  {
    actions := [];
    ghost var whole := Walk(specs, 0, owned);
    OpenAll(owned, deviceMatched[..], |owned|);
    assert owned[..|owned|] == owned;
    AgreesAtStart(whole);
    for si := 0 to |specs|
      invariant Agrees(whole, actions, Unmade(specs, matched[..], si), Walk(specs, si, Open(owned, deviceMatched[..], 0, |owned|)))
      invariant forall i :: si <= i < |specs| ==> !matched[i]
    {
      var more := MatchSpec(specs, si, owned, matched, deviceMatched, actions, whole);
      actions := actions + more;
    }
    AgreesAtEnd(whole, specs, Open(owned, deviceMatched[..], 0, |owned|), actions, Unmade(specs, matched[..], |specs|));
  }

  /** Declared jobs with no device match are created. */
  method PlanCreates(specs: seq<JobSpec>, matched: array<bool>) returns (creates: seq<Action>)
    requires matched.Length == |specs|
    ensures creates == Unmade(specs, matched[..], |specs|)
  {
    creates := [];
    for si := 0 to |specs|
      invariant creates == Unmade(specs, matched[..], si)
    {
      if !matched[si] && !SpecIsUpdateJob(specs[si]) {
        creates := creates + [Create(si)];
      }
    }
  }

  /** Device jobs with no declared match are deleted. */
  method PlanDeletes(owned: seq<Job>, deviceMatched: array<bool>) returns (deletes: seq<Action>)
    requires deviceMatched.Length == |owned|
    ensures deletes == Deletes(Open(owned, deviceMatched[..], 0, |owned|))
  {
    deletes := [];
    for di := 0 to |owned|
      invariant deletes == Deletes(Open(owned, deviceMatched[..], 0, di))
    {
      if !deviceMatched[di] {
        DeletesAppend(Open(owned, deviceMatched[..], 0, di), owned[di]);
        deletes := deletes + [Delete(owned[di])];
      } else {
        assert Open(owned, deviceMatched[..], 0, di + 1) == Open(owned, deviceMatched[..], 0, di);
      }
    }
  }

  method ScheduleActions(section: Option<seq<JobSpec>>, deviceJobs: seq<Job>) returns (actions: seq<Action>)
    ensures actions == Plan(section, deviceJobs)
  {
    if section.None? {
      return [];
    }
    var specs := section.value;
    var owned := OwnedJobs(deviceJobs);
    var matched := new bool[|specs|](_ => false);
    var deviceMatched := new bool[|owned|](_ => false);
    actions := MatchJobs(specs, owned, matched, deviceMatched);
    var creates := PlanCreates(specs, matched);
    var deletes := PlanDeletes(owned, deviceMatched);
    actions := actions + creates + deletes;
  }

  // ----- applySchedule

  /** How one RPC may go wrong: refused and not carried out, or carried out and its answer lost. */
  datatype Fault = NoFault | NotDone | AnswerLost

  /** Carrying out one more action is executing it on what the earlier ones left. */
  lemma {:induction false} RunAllExtends(specs: seq<JobSpec>, d: Device, done: seq<Action>, a: Action)
    requires RunAll(specs, d, done).Some?
    ensures RunAll(specs, d, done + [a]) == Execute(specs, RunAll(specs, d, done).value, a)
    decreases |done|
  {
    if done != [] {
      assert (done + [a])[1..] == done[1..] + [a];
      RunAllExtends(specs, Execute(specs, d, done[0]).value, done[1..], a);
    } else {
      assert [a][1..] == [];
    }
  }

  /** One action on the device itself. */
  method Perform(store: ScheduleStore, specs: seq<JobSpec>, a: Action) returns (ok: bool)
    modifies store
    ensures ok <==> Execute(specs, old(store.State()), a).Some?
    ensures store.State() == if ok then Execute(specs, old(store.State()), a).value else old(store.State())
  {
    match a
    case Update(job) =>
      if job.calls == [] {
        return false;
      }
      ok := store.HandleUpdate(job);
    case Create(si) =>
      if si >= |specs| || SpecCalls(specs[si]).None? || specs[si].calls == [] {
        return false;
      }
      var id := store.HandleCreate(EnableOf(specs[si]), specs[si].timespec, SpecCalls(specs[si]).value);
      ok := true;
    case Delete(job) =>
      ok := store.HandleDelete(job.id);
  }

  /** The n actions carried out all went well, but for the last one's answer perhaps. */
  ghost predicate WentWell(fate: nat -> Fault, n: nat)
  {
    forall i :: 0 <= i < n - 1 ==> fate(i) == NoFault
  }

  /** The answer to the last of n actions was lost. */
  predicate LastLost(fate: nat -> Fault, n: nat)
  {
    n > 0 && fate(n - 1) == AnswerLost
  }

  /**
   applySchedule: list, plan, and send the actions in order, stopping at the first error.
   `done` is how many the device carried out; the network decides whether the list is
   read and what becomes of the i-th call. It stops only where it must: at a call that is
   not carried out, or after one whose answer is lost.
   */
  method ApplySchedule(store: ScheduleStore, section: Option<seq<JobSpec>>, listed: bool, fate: nat -> Fault) returns (ok: bool, done: nat)
    modifies store
    ensures
      var plan := Plan(section, old(store.jobs));
      var specs := if section.Some? then section.value else [];
      && done <= |plan| && WentWell(fate, done)
      && RunAll(specs, old(store.State()), plan[..done]) == Some(store.State())
      && (ok <==> section.None? || (listed && done == |plan| && !LastLost(fate, done)))
      && (!ok && listed && !LastLost(fate, done) ==> done < |plan| && (fate(done) == NotDone || Execute(specs, store.State(), plan[done]).None?))
  {
    done := 0;
    if section.None? {
      return true, 0;
    }
    var specs := section.value;
    if !listed {
      return false, 0;
    }
    var actions := ScheduleActions(section, store.jobs);
    ghost var d := store.State();
    while done < |actions|
      invariant done <= |actions| && RunAll(specs, d, actions[..done]) == Some(store.State())
      invariant forall i :: 0 <= i < done ==> fate(i) == NoFault
    {
      RunAllExtends(specs, d, actions[..done], actions[done]);
      assert actions[..done + 1] == actions[..done] + [actions[done]];
      var fault := fate(done);
      if fault == NotDone {
        return false, done;
      }
      var answered := Perform(store, specs, actions[done]);
      if !answered {
        return false, done;
      }
      done := done + 1;
      if fault == AnswerLost {
        return false, done;
      }
    }
    ok := true;
  }
}
