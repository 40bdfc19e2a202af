/**
 Convergence of the non-firmware schedule jobs (internal/controller/schedule.go): the
 greedy content matcher, the update/create/delete plan it yields, and what executing
 any part of that plan does to the device.
 */
module Schedule {
  import opened Wrappers
  import opened Json
  import opened Jobs

  datatype Action =
    | Update(job: Job)
    | Create(spec: nat)
    | Delete(job: Job)

  // ----- content matching

  /** What params compare as: absent, null and non-object params all read as no fields. */
  function Fields(p: ParamSpec): Object
  {
    if p.Params? then p.fields else map[]
  }

  predicate CallsMatch(c: Call, spec: CallSpec)
  {
    c.rpc == spec.rpc && c.params == Fields(spec.params)
  }

  /** Same timespec and same calls; enable is not part of the content. */
  predicate Matches(job: Job, spec: JobSpec)
  {
    && job.timespec == spec.timespec
    && |job.calls| == |spec.calls|
    && forall i :: 0 <= i < |job.calls| ==> CallsMatch(job.calls[i], spec.calls[i])
  }

  datatype Content = Content(timespec: string, calls: seq<Call>)

  function JobContent(job: Job): Content
  {
    Content(job.timespec, job.calls)
  }

  function SpecContent(spec: JobSpec): Content
  {
    Content(spec.timespec, seq(|spec.calls|, i requires 0 <= i < |spec.calls| => Call(spec.calls[i].rpc, Fields(spec.calls[i].params))))
  }

  lemma MatchesIsSameContent(job: Job, spec: JobSpec)
    ensures Matches(job, spec) <==> JobContent(job) == SpecContent(spec)
  {
    var calls := SpecContent(spec).calls;
    assert Matches(job, spec) ==> job.calls == calls;
  }

  /** The calls a create would send, unless some declared params are no object. */
  function SpecCalls(spec: JobSpec): Option<seq<Call>>
  {
    if exists i :: 0 <= i < |spec.calls| && spec.calls[i].params.NotAnObject? then None
    else Some(SpecContent(spec).calls)
  }

  // ----- the plan, as a walk over the jobs not matched yet

  /** Position of the first job the declared one matches, or the length when there is none. */
  function FirstMatch(spec: JobSpec, rem: seq<Job>): (k: nat)
    ensures k <= |rem|
  {
    if rem == [] then 0 else if Matches(rem[0], spec) then 0 else 1 + FirstMatch(spec, rem[1..])
  }

  ghost predicate IsFirstMatch(spec: JobSpec, rem: seq<Job>, k: nat)
  {
    k <= |rem| && (k < |rem| ==> Matches(rem[k], spec)) && forall i :: 0 <= i < k ==> !Matches(rem[i], spec)
  }

  lemma {:induction false} FirstMatchIs(spec: JobSpec, rem: seq<Job>, k: nat)
    ensures IsFirstMatch(spec, rem, FirstMatch(spec, rem))
    ensures IsFirstMatch(spec, rem, k) ==> FirstMatch(spec, rem) == k
  {
    if rem != [] && !Matches(rem[0], spec) {
      FirstMatchIs(spec, rem[1..], if k == 0 then 0 else k - 1);
      var j := FirstMatch(spec, rem[1..]);
      assert forall i :: 0 < i < |rem| ==> rem[i] == rem[1..][i - 1];
    }
  }

  datatype Split = Split(updates: seq<Action>, creates: seq<Action>, rest: seq<Job>)

  /** The jobs left once the k-th is taken; none is taken when k is past the end. */
  function Left(rem: seq<Job>, k: nat): seq<Job>
    requires k <= |rem|
  {
    if k == |rem| then rem else Without(rem, k)
  }

  /** What declared job si adds to the plan when the k-th remaining job is its match. */
  function Account(spec: JobSpec, si: nat, rem: seq<Job>, k: nat, w: Split): Split
    requires k <= |rem|
  {
    if k == |rem| then w.(creates := [Create(si)] + w.creates)
    else if rem[k].enable == EnableOf(spec) then w
    else w.(updates := [Update(rem[k].(enable := EnableOf(spec)))] + w.updates)
  }

  /** Match the declared jobs from si on against the remaining device jobs, first come first served. */
  function Walk(specs: seq<JobSpec>, si: nat, rem: seq<Job>): Split
    requires si <= |specs|
    decreases |specs| - si
  {
    if si == |specs| then Split([], [], rem)
    else if SpecIsUpdateJob(specs[si]) then Walk(specs, si + 1, rem)
    else
      var k := FirstMatch(specs[si], rem);
      Account(specs[si], si, rem, k, Walk(specs, si + 1, Left(rem, k)))
  }

  function Deletes(rest: seq<Job>): seq<Action>
  {
    if rest == [] then [] else [Delete(rest[0])] + Deletes(rest[1..])
  }

  function PlanOf(w: Split): seq<Action>
  {
    w.updates + w.creates + Deletes(w.rest)
  }

  /** scheduleActions; an absent section plans nothing. */
  function Plan(section: Option<seq<JobSpec>>, jobs: seq<Job>): seq<Action>
  {
    if section.None? then [] else PlanOf(Walk(section.value, 0, Select(false, jobs)))
  }

  /** One action of applySchedule against the device; None when the client or the device refuses it. */
  function Execute(specs: seq<JobSpec>, d: Device, a: Action): (r: Option<Device>)
  {
    match a
    case Update(job) => if job.calls == [] then None else Updated(d, job)
    case Create(si) =>
      if si >= |specs| || SpecCalls(specs[si]).None? || specs[si].calls == [] then None
      else Some(Created(d, EnableOf(specs[si]), specs[si].timespec, SpecCalls(specs[si]).value))
    case Delete(job) => Deleted(d, job.id)
  }

  // ----- one action leaves exactly the rest of the plan

  /** The q-th element left once the k-th is taken, by its place before the taking. */
  function Place(k: nat, q: nat): nat
  {
    if q < k then q else q + 1
  }

  /** Taking the k-th and then the q-th of the rest is taking the latter first. */
  lemma WithoutTwice<T>(s: seq<T>, k: nat, q: nat)
    requires k < |s| && q < |s| - 1
    ensures
      var p := Place(k, q);
      var k' := if p < k then k - 1 else k;
      && p < |s| && p != k && s[p] == Without(s, k)[q]
      && k' < |Without(s, p)| && Without(s, p)[k'] == s[k]
      && Without(Without(s, p), k') == Without(Without(s, k), q)
  {
    var p := Place(k, q);
    var k' := if p < k then k - 1 else k;
    var one, other := Without(Without(s, p), k'), Without(Without(s, k), q);
    assert |one| == |other|;
    forall i | 0 <= i < |one| ensures one[i] == other[i] {
      assert one[i] == Without(s, p)[Place(k', i)] == s[Place(p, Place(k', i))];
      assert other[i] == Without(s, k)[Place(q, i)] == s[Place(k, Place(q, i))];
    }
  }

  lemma WithoutUpdated<T>(s: seq<T>, k: nat, q: nat, x: T)
    requires k < |s| && q < |s| - 1
    ensures
      var p := Place(k, q);
      && p < |s| && p != k && s[p] == Without(s, k)[q]
      && s[p := x][k] == s[k] && Without(s[p := x], k) == Without(s, k)[q := x]
  {
  }

  lemma WithoutAppended<T>(s: seq<T>, k: nat, x: T)
    requires k < |s|
    ensures Without(s + [x], k) == Without(s, k) + [x]
    ensures Without(s + [x], |s|) == s
  {
  }

  function Flipped(job: Job): Job
  {
    job.(enable := !job.enable)
  }

  lemma FirstMatchFlipped(spec: JobSpec, rem: seq<Job>, p: nat)
    requires p < |rem|
    ensures FirstMatch(spec, rem[p := Flipped(rem[p])]) == FirstMatch(spec, rem)
  {
    var k := FirstMatch(spec, rem);
    FirstMatchIs(spec, rem, k);
    assert Matches(Flipped(rem[p]), spec) == Matches(rem[p], spec);
    FirstMatchIs(spec, rem[p := Flipped(rem[p])], k);
  }

  lemma FirstMatchWithout(spec: JobSpec, rem: seq<Job>, p: nat)
    requires p < |rem| && p != FirstMatch(spec, rem)
    ensures FirstMatch(spec, Without(rem, p)) == if p < FirstMatch(spec, rem) then FirstMatch(spec, rem) - 1 else FirstMatch(spec, rem)
  {
    var k := FirstMatch(spec, rem);
    FirstMatchIs(spec, rem, k);
    FirstMatchIs(spec, Without(rem, p), if p < k then k - 1 else k);
  }

  lemma FirstMatchAppended(spec: JobSpec, rem: seq<Job>, job: Job)
    requires FirstMatch(spec, rem) < |rem| || Matches(job, spec)
    ensures FirstMatch(spec, rem + [job]) == FirstMatch(spec, rem)
  {
    var k := FirstMatch(spec, rem);
    FirstMatchIs(spec, rem, k);
    FirstMatchIs(spec, rem + [job], k);
  }

  /** Flipping enable on the job the first update names settles that update and nothing else. */
  lemma {:induction false} WalkAfterUpdate(specs: seq<JobSpec>, si: nat, rem: seq<Job>) returns (p: nat)
    requires si <= |specs| && Walk(specs, si, rem).updates != []
    ensures p < |rem|
    ensures
      var w, w' := Walk(specs, si, rem), Walk(specs, si, rem[p := Flipped(rem[p])]);
      w == Split([Update(Flipped(rem[p]))] + w'.updates, w'.creates, w'.rest)
    decreases |specs| - si
  {
    var spec := specs[si];
    if SpecIsUpdateJob(spec) {
      p := WalkAfterUpdate(specs, si + 1, rem);
    } else {
      var k := FirstMatch(spec, rem);
      if k == |rem| {
        p := WalkAfterUpdate(specs, si + 1, rem);
      } else if rem[k].enable != EnableOf(spec) {
        p := k;
        assert Left(rem[k := Flipped(rem[k])], k) == Left(rem, k);
      } else {
        var q := WalkAfterUpdate(specs, si + 1, Left(rem, k));
        p := Place(k, q);
        WithoutUpdated(rem, k, q, Flipped(rem[p]));
      }
      FirstMatchFlipped(spec, rem, p);
      var rem' := rem[p := Flipped(rem[p])];
      assert Walk(specs, si, rem') == Account(spec, si, rem', k, Walk(specs, si + 1, Left(rem', k)));
    }
  }

  /** With no update pending, appending the job the first create describes settles that create and nothing else. */
  lemma {:induction false} WalkAfterCreate(specs: seq<JobSpec>, si: nat, rem: seq<Job>, c: nat, job: Job)
    requires si <= |specs| && c < |specs| && Matches(job, specs[c]) && job.enable == EnableOf(specs[c])
    requires
      var w := Walk(specs, si, rem);
      w.updates == [] && w.creates != [] && w.creates[0] == Create(c)
    ensures
      var w, w' := Walk(specs, si, rem), Walk(specs, si, rem + [job]);
      w == Split(w'.updates, [Create(c)] + w'.creates, w'.rest)
    decreases |specs| - si
  {
    var spec := specs[si];
    if SpecIsUpdateJob(spec) {
      WalkAfterCreate(specs, si + 1, rem, c, job);
    } else {
      var k := FirstMatch(spec, rem);
      FirstMatchAppended(spec, rem, job);
      if k < |rem| {
        WithoutAppended(rem, k, job);
        WalkAfterCreate(specs, si + 1, Left(rem, k), c, job);
      } else {
        assert Left(rem + [job], k) == rem;
      }
      assert Walk(specs, si, rem + [job]) == Account(spec, si, rem + [job], k, Walk(specs, si + 1, Left(rem + [job], k)));
    }
  }

  /** Taking away the first job nothing declared wants changes only what is left over. */
  lemma {:induction false} WalkAfterDelete(specs: seq<JobSpec>, si: nat, rem: seq<Job>) returns (p: nat)
    requires si <= |specs| && Walk(specs, si, rem).rest != []
    ensures p < |rem|
    ensures
      var w, w' := Walk(specs, si, rem), Walk(specs, si, Without(rem, p));
      w == Split(w'.updates, w'.creates, [rem[p]] + w'.rest)
    decreases |specs| - si
  {
    if si == |specs| {
      p := 0;
    } else if SpecIsUpdateJob(specs[si]) {
      p := WalkAfterDelete(specs, si + 1, rem);
    } else {
      var k := FirstMatch(specs[si], rem);
      var q := WalkAfterDelete(specs, si + 1, Left(rem, k));
      p := if k == |rem| then q else Place(k, q);
      if k < |rem| {
        WithoutTwice(rem, k, q);
      }
      FirstMatchWithout(specs[si], rem, p);
      var rem', k' := Without(rem, p), if p < k then k - 1 else k;
      AccountPassesRest(specs[si], si, rem, k, rem', k', Walk(specs, si + 1, Left(rem', k')), rem[p]);
    }
  }

  /** What one declared job adds to the plan does not depend on what is left over in the end. */
  lemma AccountPassesRest(spec: JobSpec, si: nat, rem: seq<Job>, k: nat, rem': seq<Job>, k': nat, w: Split, x: Job)
    requires k <= |rem| && k' <= |rem'| && (k == |rem| <==> k' == |rem'|) && (k < |rem| ==> rem[k] == rem'[k'])
    ensures
      var a, a' := Account(spec, si, rem, k, Split(w.updates, w.creates, [x] + w.rest)), Account(spec, si, rem', k', w);
      a == Split(a'.updates, a'.creates, [x] + a'.rest)
  {
  }

  // ----- the device under the plan

  lemma {:induction false} SelectedKind(update: bool, jobs: seq<Job>, p: nat)
    requires p < |Select(update, jobs)|
    ensures IsUpdateJob(Select(update, jobs)[p]) == update
  {
    var head := Pick(update, jobs[0]);
    if p >= |head| {
      SelectedKind(update, jobs[1..], p - |head|);
    }
  }

  /** A planned create is of a declared job that is no update job. */
  lemma {:induction false} CreatesAreDeclared(specs: seq<JobSpec>, si: nat, rem: seq<Job>, i: nat)
    requires si <= |specs| && i < |Walk(specs, si, rem).creates|
    ensures
      var a := Walk(specs, si, rem).creates[i];
      a.Create? && si <= a.spec < |specs| && !SpecIsUpdateJob(specs[a.spec])
    decreases |specs| - si
  {
    if SpecIsUpdateJob(specs[si]) {
      CreatesAreDeclared(specs, si + 1, rem, i);
    } else {
      var k := FirstMatch(specs[si], rem);
      if k < |rem| {
        CreatesAreDeclared(specs, si + 1, Left(rem, k), i);
      } else if i > 0 {
        CreatesAreDeclared(specs, si + 1, rem, i - 1);
      }
    }
  }

  /** What a create stores is the declared job itself, and never an update job. */
  lemma CreatedMatches(spec: JobSpec, id: int)
    requires SpecCalls(spec).Some? && !SpecIsUpdateJob(spec)
    ensures
      var job := Job(id, EnableOf(spec), spec.timespec, SpecCalls(spec).value);
      Matches(job, spec) && !IsUpdateJob(job)
  {
    var calls := SpecCalls(spec).value;
    forall i | 0 <= i < |calls| ensures calls[i].rpc != UPDATE_METHOD {
      assert EqualFold(UPDATE_METHOD, UPDATE_METHOD);
    }
    NoUpdateCall(calls);
  }

  lemma {:induction false} NoUpdateCall(calls: seq<Call>)
    requires forall i :: 0 <= i < |calls| ==> calls[i].rpc != UPDATE_METHOD
    ensures !InvokesUpdate(calls)
  {
    if calls != [] {
      NoUpdateCall(calls[1..]);
    }
  }

  lemma PlanShortens(u: seq<Action>, c: seq<Action>, r: seq<Job>, a: Action, job: Job)
    ensures PlanOf(Split([a] + u, c, r)) == [a] + PlanOf(Split(u, c, r))
    ensures PlanOf(Split([], [a] + c, r)) == [a] + PlanOf(Split([], c, r))
    ensures PlanOf(Split([], [], [job] + r)) == [Delete(job)] + PlanOf(Split([], [], r))
  {
    assert ([job] + r)[1..] == r;
  }

  /** The first action, carried out: the device stays in order, its update jobs as they were, and the plan loses only its head. */
  ghost predicate Settled(specs: seq<JobSpec>, d: Device, a: Action, d': Device)
  {
    && d'.Valid() && Select(true, d'.jobs) == Select(true, d.jobs)
    && Plan(Some(specs), d.jobs) == [a] + Plan(Some(specs), d'.jobs)
  }

  lemma UpdateSettles(specs: seq<JobSpec>, d: Device)
    requires d.Valid() && Walk(specs, 0, Select(false, d.jobs)).updates != []
    ensures
      var a := Walk(specs, 0, Select(false, d.jobs)).updates[0];
      && a.Update? && (a.job.calls != [] <==> Execute(specs, d, a).Some?)
      && Updated(d, a.job).Some? && Settled(specs, d, a, Updated(d, a.job).value)
  {
    var rem := Select(false, d.jobs);
    var p := WalkAfterUpdate(specs, 0, rem);
    SelectedKind(false, d.jobs, p);
    UpdateSelected(false, d, p, Flipped(rem[p]));
    var w' := Walk(specs, 0, rem[p := Flipped(rem[p])]);
    PlanShortens(w'.updates, w'.creates, w'.rest, Update(Flipped(rem[p])), rem[p]);
  }

  lemma CreateSettles(specs: seq<JobSpec>, d: Device)
    requires d.Valid()
    requires
      var w := Walk(specs, 0, Select(false, d.jobs));
      w.updates == [] && w.creates != [] && Execute(specs, d, w.creates[0]).Some?
    ensures
      var a := Walk(specs, 0, Select(false, d.jobs)).creates[0];
      Settled(specs, d, a, Execute(specs, d, a).value)
  {
    var rem := Select(false, d.jobs);
    var a := Walk(specs, 0, rem).creates[0];
    CreatesAreDeclared(specs, 0, rem, 0);
    var spec := specs[a.spec];
    CreatedMatches(spec, d.nextId);
    var job := Job(d.nextId, EnableOf(spec), spec.timespec, SpecCalls(spec).value);
    WalkAfterCreate(specs, 0, rem, a.spec, job);
    CreateSelected(false, d, EnableOf(spec), spec.timespec, SpecCalls(spec).value);
    var w' := Walk(specs, 0, rem + [job]);
    PlanShortens([], w'.creates, w'.rest, a, job);
  }

  lemma DeleteSettles(specs: seq<JobSpec>, d: Device)
    requires d.Valid()
    requires
      var w := Walk(specs, 0, Select(false, d.jobs));
      w.updates == [] && w.creates == [] && w.rest != []
    ensures
      var a := Delete(Walk(specs, 0, Select(false, d.jobs)).rest[0]);
      Execute(specs, d, a).Some? && Settled(specs, d, a, Execute(specs, d, a).value)
  {
    var rem := Select(false, d.jobs);
    var p := WalkAfterDelete(specs, 0, rem);
    DeleteSelected(false, d, p);
    var w' := Walk(specs, 0, Without(rem, p));
    PlanShortens([], [], w'.rest, Delete(rem[p]), rem[p]);
  }

  /** Executing the first action leaves exactly the rest of the plan, and the update jobs as they were. */
  lemma FirstActionSettles(specs: seq<JobSpec>, d: Device)
    requires d.Valid() && Plan(Some(specs), d.jobs) != []
    ensures
      var a := Plan(Some(specs), d.jobs)[0];
      var r := Execute(specs, d, a);
      (r.Some? <==> Sendable(specs, a)) && (r.Some? ==> Settled(specs, d, a, r.value))
  {
    var w := Walk(specs, 0, Select(false, d.jobs));
    if w.updates != [] {
      UpdateSettles(specs, d);
    } else if w.creates != [] {
      CreatesAreDeclared(specs, 0, Select(false, d.jobs), 0);
      if Execute(specs, d, w.creates[0]).Some? {
        CreateSettles(specs, d);
      }
    } else {
      DeleteSettles(specs, d);
    }
  }

  /** Every action of the list carried out in order. */
  function RunAll(specs: seq<JobSpec>, d: Device, actions: seq<Action>): (r: Option<Device>)
    decreases |actions|
  {
    if actions == [] then Some(d)
    else
      var r := Execute(specs, d, actions[0]);
      if r.None? then None else RunAll(specs, r.value, actions[1..])
  }

  lemma Cancel<T>(x: T, s: seq<T>, t: seq<T>)
    requires [x] + s == [x] + t
    ensures s == t
  {
    assert ([x] + s)[1..] == s && ([x] + t)[1..] == t;
  }

  /**
   Wherever applySchedule stops, no progress is lost: once the first part of the plan
   has been carried out, planning again yields exactly the part still to do.
   */
  lemma {:induction false} ReplanYieldsRest(specs: seq<JobSpec>, d: Device, done: seq<Action>, todo: seq<Action>)
    requires d.Valid() && Plan(Some(specs), d.jobs) == done + todo
    requires RunAll(specs, d, done).Some?
    ensures
      var d' := RunAll(specs, d, done).value;
      d'.Valid() && Select(true, d'.jobs) == Select(true, d.jobs) && Plan(Some(specs), d'.jobs) == todo
    decreases |done|
  {
    if done != [] {
      FirstActionSettles(specs, d);
      var d1 := Execute(specs, d, done[0]).value;
      assert done + todo == [done[0]] + (done[1..] + todo);
      Cancel(done[0], Plan(Some(specs), d1.jobs), done[1..] + todo);
      ReplanYieldsRest(specs, d1, done[1..], todo);
    }
  }

  /** The client sends the action: what it carries has calls, and its declared params are objects. */
  predicate Sendable(specs: seq<JobSpec>, a: Action)
  {
    match a
    case Update(job) => job.calls != []
    case Create(si) => si < |specs| && SpecCalls(specs[si]).Some? && specs[si].calls != []
    case Delete(_) => true
  }

  /** On a device that answers, a full pass completes exactly when every planned action can be sent, and then leaves an empty plan. */
  lemma {:induction false} FullPassSettles(specs: seq<JobSpec>, d: Device)
    requires d.Valid()
    ensures
      var plan := Plan(Some(specs), d.jobs);
      var r := RunAll(specs, d, plan);
      && (r.Some? <==> forall i :: 0 <= i < |plan| ==> Sendable(specs, plan[i]))
      && (r.Some? ==> r.value.Valid() && Plan(Some(specs), r.value.jobs) == [] && Select(true, r.value.jobs) == Select(true, d.jobs))
    decreases |Plan(Some(specs), d.jobs)|
  {
    var plan := Plan(Some(specs), d.jobs);
    if plan != [] {
      FirstActionSettles(specs, d);
      if Execute(specs, d, plan[0]).Some? {
        var d1 := Execute(specs, d, plan[0]).value;
        var rest := Plan(Some(specs), d1.jobs);
        assert plan[1..] == rest;
        FullPassSettles(specs, d1);
        assert forall i :: 0 < i < |plan| ==> plan[i] == rest[i - 1];
      }
    }
  }

  // ----- what the plan creates and deletes, counted by content

  /** A job's content, with its enable value when that is being counted too. */
  datatype Key = Key(content: Content, enable: bool)

  function JobKey(exact: bool, job: Job): Key
  {
    Key(JobContent(job), exact && job.enable)
  }

  function SpecKey(exact: bool, spec: JobSpec): Key
  {
    Key(SpecContent(spec), exact && EnableOf(spec))
  }

  function One(b: bool): nat
  {
    if b then 1 else 0
  }

  /** How many of the jobs have the key. */
  function Present(exact: bool, rem: seq<Job>, x: Key): nat
  {
    if rem == [] then 0 else One(JobKey(exact, rem[0]) == x) + Present(exact, rem[1..], x)
  }

  /** How many of the declared jobs from si on, update jobs aside, have the key. */
  function Declared(exact: bool, specs: seq<JobSpec>, si: nat, x: Key): nat
    requires si <= |specs|
    decreases |specs| - si
  {
    if si == |specs| then 0
    else One(!SpecIsUpdateJob(specs[si]) && SpecKey(exact, specs[si]) == x) + Declared(exact, specs, si + 1, x)
  }

  /** How many of the planned creates are of declared jobs with the key. */
  function Wanted(exact: bool, specs: seq<JobSpec>, creates: seq<Action>, x: Key): nat
  {
    if creates == [] then 0
    else
      var a := creates[0];
      One(a.Create? && a.spec < |specs| && SpecKey(exact, specs[a.spec]) == x) + Wanted(exact, specs, creates[1..], x)
  }

  lemma {:induction false} PresentWithout(exact: bool, rem: seq<Job>, k: nat, x: Key)
    requires k < |rem|
    ensures Present(exact, rem, x) == One(JobKey(exact, rem[k]) == x) + Present(exact, Without(rem, k), x)
  {
    if k == 0 {
      assert Without(rem, 0) == rem[1..];
    } else {
      PresentWithout(exact, rem[1..], k - 1, x);
      assert Without(rem, k)[1..] == Without(rem[1..], k - 1);
    }
  }

  lemma WantedPrepend(exact: bool, specs: seq<JobSpec>, si: nat, creates: seq<Action>, x: Key)
    requires si < |specs|
    ensures Wanted(exact, specs, [Create(si)] + creates, x) == One(SpecKey(exact, specs[si]) == x) + Wanted(exact, specs, creates, x)
  {
    assert ([Create(si)] + creates)[1..] == creates;
  }

  /** Contents are conserved: what is present and what is created is what is declared and what is left over. */
  lemma {:induction false} Conservation(exact: bool, specs: seq<JobSpec>, si: nat, rem: seq<Job>, x: Key)
    requires si <= |specs| && (exact ==> Walk(specs, si, rem).updates == [])
    ensures
      var w := Walk(specs, si, rem);
      Present(exact, rem, x) + Wanted(exact, specs, w.creates, x) == Declared(exact, specs, si, x) + Present(exact, w.rest, x)
    decreases |specs| - si
  {
    if si == |specs| {
    } else if SpecIsUpdateJob(specs[si]) {
      Conservation(exact, specs, si + 1, rem, x);
    } else {
      var k := FirstMatch(specs[si], rem);
      FirstMatchIs(specs[si], rem, k);
      var w := Walk(specs, si + 1, Left(rem, k));
      Conservation(exact, specs, si + 1, Left(rem, k), x);
      if k == |rem| {
        WantedPrepend(exact, specs, si, w.creates, x);
      } else {
        PresentWithout(exact, rem, k, x);
        MatchesIsSameContent(rem[k], specs[si]);
      }
    }
  }

  /** What is left over was there to begin with. */
  lemma {:induction false} RestWasPresent(specs: seq<JobSpec>, si: nat, rem: seq<Job>, x: Key)
    requires si <= |specs|
    ensures Present(false, Walk(specs, si, rem).rest, x) <= Present(false, rem, x)
    decreases |specs| - si
  {
    if si < |specs| {
      if SpecIsUpdateJob(specs[si]) {
        RestWasPresent(specs, si + 1, rem, x);
      } else {
        var k := FirstMatch(specs[si], rem);
        RestWasPresent(specs, si + 1, Left(rem, k), x);
        if k < |rem| {
          PresentWithout(false, rem, k, x);
        }
      }
    }
  }

  lemma {:induction false} UnmatchedAbsent(spec: JobSpec, rem: seq<Job>)
    requires FirstMatch(spec, rem) == |rem|
    ensures Present(false, rem, SpecKey(false, spec)) == 0
  {
    if rem != [] {
      MatchesIsSameContent(rem[0], spec);
      UnmatchedAbsent(spec, rem[1..]);
    }
  }

  /** No content is both created and deleted. */
  lemma {:induction false} NothingReplacedByItself(specs: seq<JobSpec>, si: nat, rem: seq<Job>, x: Key)
    requires si <= |specs|
    ensures
      var w := Walk(specs, si, rem);
      Wanted(false, specs, w.creates, x) == 0 || Present(false, w.rest, x) == 0
    decreases |specs| - si
  {
    if si < |specs| {
      if SpecIsUpdateJob(specs[si]) {
        NothingReplacedByItself(specs, si + 1, rem, x);
      } else {
        var k := FirstMatch(specs[si], rem);
        var w := Walk(specs, si + 1, Left(rem, k));
        NothingReplacedByItself(specs, si + 1, Left(rem, k), x);
        if k == |rem| {
          WantedPrepend(false, specs, si, w.creates, x);
          UnmatchedAbsent(specs[si], rem);
          RestWasPresent(specs, si + 1, rem, x);
        }
      }
    }
  }

  /** The plan is minimal: of every content it creates exactly what is missing and deletes exactly what is surplus. */
  lemma PlanIsMinimal(specs: seq<JobSpec>, rem: seq<Job>, x: Key)
    ensures
      var w := Walk(specs, 0, rem);
      var declared, present := Declared(false, specs, 0, x), Present(false, rem, x);
      && Wanted(false, specs, w.creates, x) == (if declared > present then declared - present else 0)
      && Present(false, w.rest, x) == (if present > declared then present - declared else 0)
  {
    Conservation(false, specs, 0, rem, x);
    NothingReplacedByItself(specs, 0, rem, x);
  }

  /** An empty plan means the section's jobs are the declared ones, each as often, enable values included. */
  lemma EmptyPlanIsConverged(specs: seq<JobSpec>, jobs: seq<Job>, x: Key)
    requires Plan(Some(specs), jobs) == []
    ensures Present(true, Select(false, jobs), x) == Declared(true, specs, 0, x)
  {
    var w := Walk(specs, 0, Select(false, jobs));
    assert |PlanOf(w)| == |w.updates| + |w.creates| + |Deletes(w.rest)|;
    assert w.rest == [];
    Conservation(true, specs, 0, Select(false, jobs), x);
  }

  // ----- every intermediate state

  lemma {:induction false} UpdatesAreUpdates(specs: seq<JobSpec>, si: nat, rem: seq<Job>, i: nat)
    requires si <= |specs| && i < |Walk(specs, si, rem).updates|
    ensures Walk(specs, si, rem).updates[i].Update?
    decreases |specs| - si
  {
    if SpecIsUpdateJob(specs[si]) {
      UpdatesAreUpdates(specs, si + 1, rem, i);
    } else {
      var k := FirstMatch(specs[si], rem);
      if k == |rem| || rem[k].enable == EnableOf(specs[si]) {
        UpdatesAreUpdates(specs, si + 1, Left(rem, k), i);
      } else if i > 0 {
        UpdatesAreUpdates(specs, si + 1, Left(rem, k), i - 1);
      }
    }
  }

  lemma {:induction false} DeletesAreDeletes(rest: seq<Job>, i: nat)
    ensures |Deletes(rest)| == |rest|
    ensures i < |rest| ==> Deletes(rest)[i] == Delete(rest[i])
  {
    if rest != [] {
      DeletesAreDeletes(rest[1..], if i == 0 then 0 else i - 1);
    }
  }

  /** Updates, then creates, then deletes: from a delete on there are only deletes. */
  lemma PlanOrder(specs: seq<JobSpec>, jobs: seq<Job>, i: nat)
    requires i < |Plan(Some(specs), jobs)|
    ensures
      var w := Walk(specs, 0, Select(false, jobs));
      var a := Plan(Some(specs), jobs)[i];
      && (a.Update? <==> i < |w.updates|)
      && (a.Create? <==> |w.updates| <= i < |w.updates| + |w.creates|)
  {
    var rem := Select(false, jobs);
    var w := Walk(specs, 0, rem);
    if i < |w.updates| {
      UpdatesAreUpdates(specs, 0, rem, i);
    } else if i < |w.updates| + |w.creates| {
      CreatesAreDeclared(specs, 0, rem, i - |w.updates|);
    } else {
      DeletesAreDeletes(w.rest, i - |w.updates| - |w.creates|);
    }
  }

  /** Once any job has been deleted, every declared job is on the device, as often as declared and with its enable value. */
  lemma ReplacementsComeFirst(specs: seq<JobSpec>, d: Device, done: seq<Action>, todo: seq<Action>, i: nat, x: Key)
    requires d.Valid() && Plan(Some(specs), d.jobs) == done + todo && RunAll(specs, d, done).Some?
    requires i < |done| && done[i].Delete?
    ensures Declared(true, specs, 0, x) <= Present(true, Select(false, RunAll(specs, d, done).value.jobs), x)
  {
    ReplanYieldsRest(specs, d, done, todo);
    var rem := Select(false, RunAll(specs, d, done).value.jobs);
    var w := Walk(specs, 0, rem);
    PlanOrder(specs, d.jobs, i);
    if |w.updates| + |w.creates| > 0 {
      PlanOrder(specs, RunAll(specs, d, done).value.jobs, 0);
      PlanOrder(specs, d.jobs, |done|);
    }
    Conservation(true, specs, 0, rem, x);
  }

  /** The job is still there: same id, same content. */
  ghost predicate Has(jobs: seq<Job>, job: Job)
  {
    exists i :: 0 <= i < |jobs| && jobs[i].id == job.id && JobContent(jobs[i]) == JobContent(job)
  }

  /** An update that keeps id and content keeps every job. */
  lemma KeptByUpdate(d: Device, j: nat, updated: Job, job: Job)
    requires d.Valid() && j < |d.jobs| && updated.id == d.jobs[j].id && JobContent(updated) == JobContent(d.jobs[j]) && Has(d.jobs, job)
    ensures Updated(d, updated).Some? && Has(Updated(d, updated).value.jobs, job)
  {
    FindIsIndex(d, j);
    var i :| 0 <= i < |d.jobs| && d.jobs[i].id == job.id && JobContent(d.jobs[i]) == JobContent(job);
    var jobs' := d.jobs[j := updated];
    assert jobs'[i].id == job.id && JobContent(jobs'[i]) == JobContent(job);
  }

  lemma KeptByCreate(jobs: seq<Job>, created: Job, job: Job)
    requires Has(jobs, job)
    ensures Has(jobs + [created], job)
  {
    var i :| 0 <= i < |jobs| && jobs[i].id == job.id && JobContent(jobs[i]) == JobContent(job);
    assert (jobs + [created])[i] == jobs[i];
  }

  /** A delete keeps every job but the one it names. */
  lemma KeptByDelete(d: Device, id: int, job: Job)
    requires Has(d.jobs, job) && id != job.id && Deleted(d, id).Some?
    ensures Has(Deleted(d, id).value.jobs, job)
  {
    var i :| 0 <= i < |d.jobs| && d.jobs[i].id == job.id && JobContent(d.jobs[i]) == JobContent(job);
    var j := Find(d.jobs, id);
    assert Without(d.jobs, j)[if i < j then i else i - 1] == d.jobs[i];
  }

  /** The job a planned first update names is on the device, with the same content. */
  lemma FirstUpdateNames(specs: seq<JobSpec>, d: Device) returns (j: nat)
    requires Walk(specs, 0, Select(false, d.jobs)).updates != []
    ensures
      var a := Walk(specs, 0, Select(false, d.jobs)).updates[0];
      a.Update? && j < |d.jobs| && a.job.id == d.jobs[j].id && JobContent(a.job) == JobContent(d.jobs[j])
  {
    var p := WalkAfterUpdate(specs, 0, Select(false, d.jobs));
    j := SelectSplit(false, d.jobs, p);
    SelectAt(false, d.jobs, j);
  }

  lemma FirstActionKeeps(specs: seq<JobSpec>, d: Device, job: Job)
    requires d.Valid() && Plan(Some(specs), d.jobs) != [] && Has(d.jobs, job)
    requires Execute(specs, d, Plan(Some(specs), d.jobs)[0]).Some?
    ensures
      var a := Plan(Some(specs), d.jobs)[0];
      Has(Execute(specs, d, a).value.jobs, job) || (a.Delete? && a.job.id == job.id)
  {
    var a := Plan(Some(specs), d.jobs)[0];
    PlanOrder(specs, d.jobs, 0);
    match a
    case Update(updated) =>
      var j := FirstUpdateNames(specs, d);
      KeptByUpdate(d, j, updated, job);
    case Create(si) =>
      KeptByCreate(d.jobs, Job(d.nextId, EnableOf(specs[si]), specs[si].timespec, SpecCalls(specs[si]).value), job);
    case Delete(gone) =>
      if gone.id != job.id {
        KeptByDelete(d, gone.id, job);
      }
  }

  /** No job goes but by its own planned delete. */
  lemma {:induction false} OnlyPlannedJobsGo(specs: seq<JobSpec>, d: Device, done: seq<Action>, todo: seq<Action>, job: Job)
    requires d.Valid() && Plan(Some(specs), d.jobs) == done + todo && RunAll(specs, d, done).Some?
    requires Has(d.jobs, job) && forall i :: 0 <= i < |done| && done[i].Delete? ==> done[i].job.id != job.id
    ensures Has(RunAll(specs, d, done).value.jobs, job)
    decreases |done|
  {
    if done != [] {
      FirstActionSettles(specs, d);
      FirstActionKeeps(specs, d, job);
      var d1 := Execute(specs, d, done[0]).value;
      assert done + todo == [done[0]] + (done[1..] + todo);
      Cancel(done[0], Plan(Some(specs), d1.jobs), done[1..] + todo);
      OnlyPlannedJobsGo(specs, d1, done[1..], todo, job);
    }
  }

  // ----- the matched jobs

  /** The device jobs the walk matches, in the order it matches them. */
  function Taken(specs: seq<JobSpec>, si: nat, rem: seq<Job>): seq<Job>
    requires si <= |specs|
    decreases |specs| - si
  {
    if si == |specs| then []
    else if SpecIsUpdateJob(specs[si]) then Taken(specs, si + 1, rem)
    else
      var k := FirstMatch(specs[si], rem);
      if k == |rem| then Taken(specs, si + 1, rem) else [rem[k]] + Taken(specs, si + 1, Without(rem, k))
  }

  lemma WithoutCounts<T>(s: seq<T>, k: nat)
    requires k < |s|
    ensures multiset(s) == multiset{s[k]} + multiset(Without(s, k))
  {
    assert s == s[..k] + [s[k]] + s[k + 1..];
  }

  /** Every owned job is matched or left over, and never both. */
  lemma {:induction false} TakenPartition(specs: seq<JobSpec>, si: nat, rem: seq<Job>)
    requires si <= |specs|
    ensures multiset(Taken(specs, si, rem)) + multiset(Walk(specs, si, rem).rest) == multiset(rem)
    decreases |specs| - si
  {
    if si < |specs| {
      if SpecIsUpdateJob(specs[si]) {
        TakenPartition(specs, si + 1, rem);
      } else {
        var k := FirstMatch(specs[si], rem);
        TakenPartition(specs, si + 1, Left(rem, k));
        if k < |rem| {
          WithoutCounts(rem, k);
          assert multiset(Taken(specs, si, rem)) == multiset{rem[k]} + multiset(Taken(specs, si + 1, Without(rem, k)));
        }
      }
    }
  }

  ghost predicate DistinctIds(jobs: seq<Job>)
  {
    forall i, j :: 0 <= i < j < |jobs| ==> jobs[i].id != jobs[j].id
  }

  lemma DistinctCount(jobs: seq<Job>, a: Job, b: Job)
    requires DistinctIds(jobs) && multiset{a, b} <= multiset(jobs)
    ensures a.id != b.id
  {
    assert a in multiset(jobs) && b in multiset(jobs);
    var i :| 0 <= i < |jobs| && jobs[i] == a;
    WithoutCounts(jobs, i);
    assert b in multiset(Without(jobs, i));
    var j :| 0 <= j < |Without(jobs, i)| && Without(jobs, i)[j] == b;
    assert jobs[Place(i, j)] == b;
  }

  lemma {:induction false} SelectedAreThere(update: bool, jobs: seq<Job>, job: Job)
    ensures job in Select(update, jobs) <==> job in jobs && IsUpdateJob(job) == update
  {
    if jobs != [] {
      SelectedAreThere(update, jobs[1..], job);
      assert job in jobs <==> job == jobs[0] || job in jobs[1..];
    }
  }

  lemma {:induction false} SelectedDistinct(update: bool, jobs: seq<Job>)
    requires DistinctIds(jobs)
    ensures DistinctIds(Select(update, jobs))
  {
    if jobs != [] {
      SelectedDistinct(update, jobs[1..]);
      forall j | 0 <= j < |Select(update, jobs[1..])| ensures Select(update, jobs[1..])[j].id != jobs[0].id {
        SelectedAreThere(update, jobs[1..], Select(update, jobs[1..])[j]);
      }
    }
  }

  /** No planned delete names a matched job, whatever else on the device has the same content. */
  lemma MatchedAreNotDeleted(specs: seq<JobSpec>, d: Device, t: nat, i: nat)
    requires d.Valid() && t < |Taken(specs, 0, Select(false, d.jobs))|
    requires i < |Plan(Some(specs), d.jobs)| && Plan(Some(specs), d.jobs)[i].Delete?
    ensures Plan(Some(specs), d.jobs)[i].job.id != Taken(specs, 0, Select(false, d.jobs))[t].id
  {
    var rem := Select(false, d.jobs);
    var w, taken := Walk(specs, 0, rem), Taken(specs, 0, rem);
    PlanOrder(specs, d.jobs, i);
    var k := i - |w.updates| - |w.creates|;
    DeletesAreDeletes(w.rest, k);
    TakenPartition(specs, 0, rem);
    SelectedDistinct(false, d.jobs);
    assert taken[t] in multiset(taken) && w.rest[k] in multiset(w.rest);
    DistinctCount(rem, taken[t], w.rest[k]);
  }

  /** Wherever execution stops, every job the matcher took is still on the device: same id, same content. */
  lemma MatchedJobsStay(specs: seq<JobSpec>, d: Device, done: seq<Action>, todo: seq<Action>, t: nat)
    requires d.Valid() && Plan(Some(specs), d.jobs) == done + todo && RunAll(specs, d, done).Some?
    requires t < |Taken(specs, 0, Select(false, d.jobs))|
    ensures Has(RunAll(specs, d, done).value.jobs, Taken(specs, 0, Select(false, d.jobs))[t])
  {
    var rem := Select(false, d.jobs);
    var job := Taken(specs, 0, rem)[t];
    forall i | 0 <= i < |done| && done[i].Delete? ensures done[i].job.id != job.id {
      assert Plan(Some(specs), d.jobs)[i] == done[i];
      MatchedAreNotDeleted(specs, d, t, i);
    }
    TakenPartition(specs, 0, rem);
    assert job in multiset(rem);
    SelectedAreThere(false, d.jobs, job);
    OnlyPlannedJobsGo(specs, d, done, todo, job);
  }
}
