/**
 Schedule jobs: what a device stores, what a profile declares, and the device's own
 Schedule.Create, Schedule.Update and Schedule.Delete.
 */
module Jobs {
  import opened Wrappers
  import opened Json

  datatype Call = Call(rpc: string, params: Object)

  datatype Job = Job(id: int, enable: bool, timespec: string, calls: seq<Call>)

  /** Raw declared params: absent or null, a JSON object, or some other JSON value. */
  datatype ParamSpec = NoParams | Params(fields: Object) | NotAnObject

  datatype CallSpec = CallSpec(rpc: string, params: ParamSpec)

  datatype JobSpec = JobSpec(enable: Option<bool>, timespec: string, calls: seq<CallSpec>)

  const UPDATE_METHOD := "Shelly.Update"

  // ----- classification

  predicate InvokesUpdate(calls: seq<Call>)
  {
    calls != [] && (calls[0].rpc == UPDATE_METHOD || InvokesUpdate(calls[1..]))
  }

  predicate IsUpdateJob(j: Job)
  {
    InvokesUpdate(j.calls)
  }

  /** Simple case folding, exact against an ASCII word: two letters outside ASCII fold into it. */
  function FoldChar(c: char): char
  {
    if 'A' <= c <= 'Z' then c - 'A' + 'a'
    else if c == '\U{017F}' then 's'
    else if c == '\U{212A}' then 'k'
    else c
  }

  predicate EqualFold(s: string, word: string)
  {
    |s| == |word| && forall i :: 0 <= i < |s| ==> FoldChar(s[i]) == FoldChar(word[i])
  }

  predicate SpecIsUpdateJob(spec: JobSpec)
  {
    exists i :: 0 <= i < |spec.calls| && EqualFold(spec.calls[i].rpc, UPDATE_METHOD)
  }

  function EnableOf(spec: JobSpec): bool
  {
    if spec.enable.None? then true else spec.enable.value
  }

  function Pick(update: bool, j: Job): seq<Job>
  {
    if IsUpdateJob(j) == update then [j] else []
  }

  /** The jobs that do, or do not, invoke Shelly.Update, in device order. */
  function Select(update: bool, jobs: seq<Job>): seq<Job>
  {
    if jobs == [] then [] else Pick(update, jobs[0]) + Select(update, jobs[1..])
  }

  // ----- the device

  datatype Device = Device(jobs: seq<Job>, nextId: int)
  {
    /** Ids are the device's own: distinct, and never handed out twice. */
    predicate Valid()
    {
      && (forall i, j :: 0 <= i < j < |jobs| ==> jobs[i].id != jobs[j].id)
      && (forall i :: 0 <= i < |jobs| ==> jobs[i].id < nextId)
    }
  }

  /** Position of the first job with the id, or the length when there is none. */
  function Find(jobs: seq<Job>, id: int): (i: nat)
    ensures i <= |jobs|
    ensures i < |jobs| ==> jobs[i].id == id
    ensures forall k :: 0 <= k < i ==> jobs[k].id != id
  {
    if jobs == [] then 0 else if jobs[0].id == id then 0 else 1 + Find(jobs[1..], id)
  }

  function Without<T>(s: seq<T>, k: nat): seq<T>
    requires k < |s|
  {
    s[..k] + s[k + 1..]
  }

  function Created(d: Device, enable: bool, timespec: string, calls: seq<Call>): Device
  {
    Device(d.jobs + [Job(d.nextId, enable, timespec, calls)], d.nextId + 1)
  }

  function Deleted(d: Device, id: int): (r: Option<Device>)
  {
    var i := Find(d.jobs, id);
    if i == |d.jobs| then None else Some(d.(jobs := Without(d.jobs, i)))
  }

  function Updated(d: Device, job: Job): (r: Option<Device>)
  {
    var i := Find(d.jobs, job.id);
    if i == |d.jobs| then None else Some(d.(jobs := d.jobs[i := job]))
  }

  /** The schedule half of the device, changed in place by its RPC handlers. */
  class ScheduleStore {
    var jobs: seq<Job>
    var nextId: int

    constructor (d: Device)
      ensures State() == d
    {
      jobs, nextId := d.jobs, d.nextId;
    }

    function State(): Device
      reads this
    {
      Device(jobs, nextId)
    }

    method IndexOf(id: int) returns (idx: int)
      ensures idx == if Find(jobs, id) == |jobs| then -1 else Find(jobs, id)
    {
      idx := -1;
      for i := 0 to |jobs|
        invariant idx == -1
        invariant forall k :: 0 <= k < i ==> jobs[k].id != id
      {
        if jobs[i].id == id {
          idx := i;
          break;
        }
      }
    }

    method HandleCreate(enable: bool, timespec: string, calls: seq<Call>) returns (id: int)
      modifies this
      ensures id == old(nextId) && State() == Created(old(State()), enable, timespec, calls)
    {
      id := nextId;
      jobs := jobs + [Job(id, enable, timespec, calls)];
      nextId := nextId + 1;
    }

    method HandleUpdate(job: Job) returns (ok: bool)
      modifies this
      ensures ok <==> Updated(old(State()), job).Some?
      ensures State() == if ok then Updated(old(State()), job).value else old(State())
    {
      var idx := IndexOf(job.id);
      if idx < 0 {
        return false;
      }
      jobs := jobs[idx := job];
      return true;
    }

    method HandleDelete(id: int) returns (ok: bool)
      modifies this
      ensures ok <==> Deleted(old(State()), id).Some?
      ensures State() == if ok then Deleted(old(State()), id).value else old(State())
    {
      var idx := IndexOf(id);
      if idx < 0 {
        return false;
      }
      jobs := jobs[..idx] + jobs[idx + 1..];
      return true;
    }
  }

  // ----- the two kinds of jobs under the device's operations

  lemma {:induction false} SelectAppend(update: bool, a: seq<Job>, b: seq<Job>)
    ensures Select(update, a + b) == Select(update, a) + Select(update, b)
  {
    if a == [] {
      assert a + b == b;
    } else {
      assert (a + b)[1..] == a[1..] + b;
      calc {
        Select(update, a + b);
        Pick(update, a[0]) + Select(update, a[1..] + b);
        { SelectAppend(update, a[1..], b); }
        Pick(update, a[0]) + (Select(update, a[1..]) + Select(update, b));
        Select(update, a) + Select(update, b);
      }
    }
  }

  lemma SelectOne(update: bool, x: Job)
    ensures Select(update, [x]) == Pick(update, x)
  {
    assert [x][1..] == [];
  }

  lemma SelectAround(update: bool, a: seq<Job>, mid: seq<Job>, b: seq<Job>)
    ensures Select(update, a + mid + b) == Select(update, a) + Select(update, mid) + Select(update, b)
  {
    SelectAppend(update, a + mid, b);
    SelectAppend(update, a, mid);
  }

  /** Replacing one job by some of the same kind leaves the other kind alone. */
  lemma SelectOther(update: bool, jobs: seq<Job>, i: nat, mid: seq<Job>)
    requires i < |jobs| && IsUpdateJob(jobs[i]) == update && Select(!update, mid) == []
    ensures Select(!update, jobs[..i] + mid + jobs[i + 1..]) == Select(!update, jobs)
  {
    SelectAround(!update, jobs[..i], mid, jobs[i + 1..]);
    SelectAround(!update, jobs[..i], [jobs[i]], jobs[i + 1..]);
    SelectOne(!update, jobs[i]);
    Around(jobs, i);
  }

  lemma Around<T>(s: seq<T>, i: nat)
    requires i < |s|
    ensures s == s[..i] + [s[i]] + s[i + 1..]
  {
  }

  /** The position of the p-th selected job: p of its kind come before it. */
  lemma {:induction false} SelectSplit(update: bool, jobs: seq<Job>, p: nat) returns (i: nat)
    requires p < |Select(update, jobs)|
    ensures i < |jobs| && IsUpdateJob(jobs[i]) == update && |Select(update, jobs[..i])| == p
  {
    var head := Pick(update, jobs[0]);
    if p < |head| {
      i := 0;
    } else {
      var k := SelectSplit(update, jobs[1..], p - |head|);
      i := k + 1;
      assert jobs[..i][1..] == jobs[1..][..k];
    }
  }

  lemma SelectAt(update: bool, jobs: seq<Job>, i: nat)
    requires i < |jobs| && IsUpdateJob(jobs[i]) == update
    ensures Select(update, jobs) == Select(update, jobs[..i]) + [jobs[i]] + Select(update, jobs[i + 1..])
  {
    SelectAround(update, jobs[..i], [jobs[i]], jobs[i + 1..]);
    SelectOne(update, jobs[i]);
    Around(jobs, i);
  }

  lemma Middle<T>(a: seq<T>, x: T, y: T, b: seq<T>)
    ensures (a + [x] + b)[|a|] == x
    ensures (a + [x] + b)[|a| := y] == a + [y] + b
    ensures Without(a + [x] + b, |a|) == a + [] + b
  {
  }

  lemma FindIsIndex(d: Device, i: nat)
    requires d.Valid() && i < |d.jobs|
    ensures Find(d.jobs, d.jobs[i].id) == i
  {
  }

  lemma DeleteValid(d: Device, i: nat)
    requires d.Valid() && i < |d.jobs|
    ensures Deleted(d, d.jobs[i].id) == Some(d.(jobs := d.jobs[..i] + [] + d.jobs[i + 1..]))
    ensures Deleted(d, d.jobs[i].id).value.Valid()
  {
    FindIsIndex(d, i);
    assert d.jobs[..i] + [] + d.jobs[i + 1..] == Without(d.jobs, i);
  }

  lemma UpdateValid(d: Device, i: nat, job: Job)
    requires d.Valid() && i < |d.jobs| && job.id == d.jobs[i].id
    ensures Updated(d, job) == Some(d.(jobs := d.jobs[..i] + [job] + d.jobs[i + 1..]))
    ensures Updated(d, job).value.Valid()
  {
    FindIsIndex(d, i);
    assert d.jobs[..i] + [job] + d.jobs[i + 1..] == d.jobs[i := job];
  }

  /** Deleting the p-th selected job by id takes exactly it out of its own kind, and nothing from the other. */
  lemma DeleteSelected(update: bool, d: Device, p: nat)
    requires d.Valid() && p < |Select(update, d.jobs)|
    ensures
      var r := Deleted(d, Select(update, d.jobs)[p].id);
      && r.Some? && r.value.Valid()
      && Select(update, r.value.jobs) == Without(Select(update, d.jobs), p)
      && Select(!update, r.value.jobs) == Select(!update, d.jobs)
  {
    var i := SelectSplit(update, d.jobs, p);
    SelectAt(update, d.jobs, i);
    Middle(Select(update, d.jobs[..i]), d.jobs[i], d.jobs[i], Select(update, d.jobs[i + 1..]));
    DeleteValid(d, i);
    SelectAround(update, d.jobs[..i], [], d.jobs[i + 1..]);
    SelectOther(update, d.jobs, i, []);
  }

  /** Updating the p-th selected job in place, without changing its kind, changes only it. */
  lemma UpdateSelected(update: bool, d: Device, p: nat, job: Job)
    requires d.Valid() && p < |Select(update, d.jobs)|
    requires job.id == Select(update, d.jobs)[p].id && IsUpdateJob(job) == update
    ensures
      var r := Updated(d, job);
      && r.Some? && r.value.Valid()
      && Select(update, r.value.jobs) == Select(update, d.jobs)[p := job]
      && Select(!update, r.value.jobs) == Select(!update, d.jobs)
  {
    var i := SelectSplit(update, d.jobs, p);
    SelectAt(update, d.jobs, i);
    Middle(Select(update, d.jobs[..i]), d.jobs[i], job, Select(update, d.jobs[i + 1..]));
    UpdateValid(d, i, job);
    SelectOne(update, job);
    SelectOne(!update, job);
    SelectAround(update, d.jobs[..i], [job], d.jobs[i + 1..]);
    SelectOther(update, d.jobs, i, [job]);
  }

  /** A created job comes last among its kind and leaves the other kind alone. */
  lemma CreateSelected(update: bool, d: Device, enable: bool, timespec: string, calls: seq<Call>)
    requires d.Valid() && IsUpdateJob(Job(d.nextId, enable, timespec, calls)) == update
    ensures
      var r := Created(d, enable, timespec, calls);
      && r.Valid()
      && Select(update, r.jobs) == Select(update, d.jobs) + [Job(d.nextId, enable, timespec, calls)]
      && Select(!update, r.jobs) == Select(!update, d.jobs)
  {
    var x := Job(d.nextId, enable, timespec, calls);
    SelectAppend(update, d.jobs, [x]);
    SelectAppend(!update, d.jobs, [x]);
    SelectOne(update, x);
    SelectOne(!update, x);
  }
}
