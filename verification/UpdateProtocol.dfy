/**
 Operator-driven firmware updates as a protocol: any number of workers, one shared
 in-memory slot, a status object per device that discovery and the controller both
 write, answers that may be lost, and processes that crash and restart.
 */
module UpdateProtocol {
  import opened Wrappers
  import opened Times
  import opened FirmwareUpdate

  type Device = string

  /** A ShellyDevice as the API server holds it; `published` is every firmware it has shown since `last` was written. */
  datatype Obj = Obj(version: nat, firmware: string, last: Option<Attempt>, published: set<string>)

  /** What one reconcile knows: its device, when it began, and the status it read. */
  datatype Cycle = Cycle(dev: Device, begun: nat, firmware: string, last: Option<Attempt>, seen: set<Option<Attempt>>)

  datatype Phase =
    | Working
    | Listed(target: string, list: seq<Option<Attempt>>)
    | Claimed(target: string, slot: nat)
    | Recording(want: Attempt, slot: nat, written: bool, sent: bool)
    | Ready(want: Attempt, slot: nat)
    | Sending(want: Attempt, slot: nat)
    | Quiet(slot: nat)
    | After

  datatype Worker = Worker(cycle: Cycle, phase: Phase)

  /** An in-progress read-then-conditional-write by discovery. */
  datatype Snapshot = Snapshot(dev: Device, obj: Obj)

  datatype Slot = Slot(epoch: nat, at: nat, dev: Device)

  datatype Event =
    | Begun(dev: Device, at: nat, firmware: string)
    | Touched(dev: Device, at: nat)
    | Sent(dev: Device, at: nat, slot: nat, request: Attempt)
    | Persist(dev: Device, slot: nat, request: Attempt, prev: Option<Attempt>, read: string)
  {
    /** An RPC the reconciler sent to the device. */
    predicate IsRpc() { Touched? || Sent? }
  }

  datatype State = State(
    clock: nat,
    spacing: nat,
    epoch: nat,
    lastStart: Option<nat>,
    objs: map<Device, Obj>,
    boot: map<Device, Obj>,
    workers: map<nat, Worker>,
    probes: map<nat, Snapshot>,
    slots: seq<Slot>,
    persisted: set<nat>,
    sent: set<nat>,
    acted: set<nat>,
    refused: set<nat>,
    log: seq<Event>)

  datatype Answer = Accepted | Refused | Lost

  datatype Step =
    | Tick(dt: nat)
    | Crash
    | Create(d: Device, fw: string)
    | ProbeRead(p: nat, d: Device)
    | ProbeWrite(p: nat, fw: string)
    | StaleWrite(p: nat)
    | OtherPatch(d: Device)
    | Begin(w: nat, d: Device, fw: string)
    | End(w: nat)
    | Touch(w: nat)
    | List(w: nat, target: string, list: seq<Option<Attempt>>)
    | Claim(w: nat)
    | Denied(w: nat)
    | Stamp(w: nat, from: string)
    | Patch(w: nat, base: Option<Attempt>)
    | RecordEnd(w: nat, acked: bool)
    | Send(w: nat)
    | Act(slot: nat)
    | Receive(w: nat, answer: Answer, error: string)

  // ----- the steps

  ghost predicate Init(s: State)
  {
    && s.spacing > 0
    && s == State(s.clock, s.spacing, 0, None, map[], map[], map[], map[], [], {}, {}, {}, {}, [])
  }

  /** Some live worker holds the device's key. */
  ghost predicate Busy(s: State, d: Device)
  {
    exists w :: w in s.workers && s.workers[w].cycle.dev == d
  }

  /** The device's listed attempt is at least as new as the one the process found when it started. */
  ghost predicate ListCovers(boot: map<Device, Obj>, list: seq<Option<Attempt>>)
  {
    forall d :: d in boot && boot[d].last.Some? ==>
      exists i :: 0 <= i < |list| && list[i].Some? && list[i].value.time >= boot[d].last.value.time
  }

  function Advance(s: State, w: nat, phase: Phase): State
    requires w in s.workers
  {
    s.(workers := s.workers[w := s.workers[w].(phase := phase)])
  }

  /** The phase a recording ends in: a sent and not refused update leaves the device alone. */
  function Recorded(ph: Phase, acked: bool): Phase
    requires ph.Recording?
  {
    if !ph.sent then (if acked then Ready(ph.want, ph.slot) else After)
    else if ph.want.refused then After
    else Quiet(ph.slot)
  }

  function ApplyPatch(s: State, w: nat, base: Option<Attempt>): State
    requires w in s.workers && s.workers[w].phase.Recording? && s.workers[w].cycle.dev in s.objs
  {
    var Worker(c, ph) := s.workers[w];
    var o := s.objs[c.dev];
    var stored := Patched(o.last, base, ph.want);
    var first := !ph.sent && !ph.written;
    s.(objs := s.objs[c.dev := Obj(o.version + 1, o.firmware, Some(stored), {o.firmware})],
       workers := s.workers[w := Worker(c.(seen := c.seen + {Some(stored)}), ph.(written := true))],
       persisted := if first then s.persisted + {ph.slot} else s.persisted,
       log := if first then s.log + [Persist(c.dev, ph.slot, stored, o.last, c.firmware)] else s.log)
  }

  ghost predicate TickStep(s: State, s': State, dt: nat)
  {
    s' == s.(clock := s.clock + dt)
  }

  /** The process dies, or hands over its lease, and its successor starts from the stored objects. */
  ghost predicate CrashStep(s: State, s': State)
  {
    s' == s.(workers := map[], probes := map[], lastStart := None, epoch := s.epoch + 1, boot := s.objs)
  }

  ghost predicate CreateStep(s: State, s': State, d: Device, fw: string)
  {
    d !in s.objs && s' == s.(objs := s.objs[d := Obj(0, fw, None, {fw})])
  }

  ghost predicate ProbeReadStep(s: State, s': State, p: nat, d: Device)
  {
    d in s.objs && s' == s.(probes := s.probes[p := Snapshot(d, s.objs[d])])
  }

  /** applyDevice's Status().Update: the whole status it read, with the probed firmware, if nobody wrote since. */
  ghost predicate ProbeWriteStep(s: State, s': State, p: nat, fw: string)
  {
    && p in s.probes
    && var Snapshot(d, o) := s.probes[p];
    && d in s.objs
    && s' == if s.objs[d].version != o.version then s
             else s.(objs := s.objs[d := Obj(o.version + 1, fw, o.last, s.objs[d].published + {fw})])
  }

  /** markStale's Status().Update: the listed status, again only if nobody wrote since. */
  ghost predicate StaleWriteStep(s: State, s': State, p: nat)
  {
    && p in s.probes
    && var Snapshot(d, o) := s.probes[p];
    && d in s.objs
    && s' == if s.objs[d].version != o.version then s
             else s.(objs := s.objs[d := Obj(o.version + 1, o.firmware, o.last, s.objs[d].published)])
  }

  /** A patch that does not carry lastFirmwareUpdate, or a label update. */
  ghost predicate OtherPatchStep(s: State, s': State, d: Device)
  {
    d in s.objs && s' == s.(objs := s.objs[d := s.objs[d].(version := s.objs[d].version + 1)])
  }

  /** A reconcile reads a status carrying the device's last attempt, and is not held back by it. */
  ghost predicate BeginStep(s: State, s': State, w: nat, d: Device, fw: string)
  {
    && w !in s.workers && d in s.objs && !Busy(s, d)
    && fw in s.objs[d].published
    && UpdateInFlight(fw, s.objs[d].last, s.clock) == 0
    && s' == s.(workers := s.workers[w := Worker(Cycle(d, s.clock, fw, s.objs[d].last, {s.objs[d].last}), Working)],
                log := s.log + [Begun(d, s.clock, fw)])
  }

  ghost predicate EndStep(s: State, s': State, w: nat)
  {
    w in s.workers && s' == s.(workers := s.workers - {w})
  }

  /** Any RPC of the reconcile other than Shelly.Update. */
  ghost predicate TouchStep(s: State, s': State, w: nat)
  {
    && w in s.workers && (s.workers[w].phase.Working? || s.workers[w].phase.After?)
    && s' == s.(log := s.log + [Touched(s.workers[w].cycle.dev, s.clock)])
  }

  ghost predicate ListStep(s: State, s': State, w: nat, target: string, list: seq<Option<Attempt>>)
  {
    && w in s.workers && s.workers[w].phase.Working?
    && !AskedRecently(s.workers[w].cycle.last, target, s.clock)
    && ListCovers(s.boot, list)
    && s' == Advance(s, w, Listed(target, list))
  }

  ghost predicate ClaimStep(s: State, s': State, w: nat)
  {
    && w in s.workers && s.workers[w].phase.Listed?
    && FleetQuiet(s.lastStart, s.workers[w].phase.list, s.spacing, s.clock)
    && s' == Advance(s, w, Claimed(s.workers[w].phase.target, |s.slots|))
             .(lastStart := Some(s.clock), slots := s.slots + [Slot(s.epoch, s.clock, s.workers[w].cycle.dev)])
  }

  ghost predicate DeniedStep(s: State, s': State, w: nat)
  {
    && w in s.workers && s.workers[w].phase.Listed?
    && !FleetQuiet(s.lastStart, s.workers[w].phase.list, s.spacing, s.clock)
    && s' == Advance(s, w, After)
  }

  /** The attempt is made out from the firmware the held object shows: as first read, or as an earlier patch's answer refreshed it. */
  ghost predicate StampStep(s: State, s': State, w: nat, from: string)
  {
    && w in s.workers && s.workers[w].phase.Claimed? && s.workers[w].cycle.dev in s.objs
    && var Worker(c, ph) := s.workers[w];
    && from in s.objs[c.dev].published
    && s' == Advance(s, w, Recording(Attempt(Persisted(s.clock), from, ph.target, "", false), ph.slot, false, false))
  }

  /** One status patch reaches the server, from any version of the object this reconcile can have read. */
  ghost predicate PatchStep(s: State, s': State, w: nat, base: Option<Attempt>)
  {
    && w in s.workers && s.workers[w].phase.Recording? && s.workers[w].cycle.dev in s.objs
    && base in s.workers[w].cycle.seen
    && s' == ApplyPatch(s, w, base)
  }

  /** The worker leaves recordUpdateAttempt: acknowledged, if a patch got through, or given up. */
  ghost predicate RecordedStep(s: State, s': State, w: nat, acked: bool)
  {
    && w in s.workers && s.workers[w].phase.Recording?
    && (acked ==> s.workers[w].phase.written)
    && s' == Advance(s, w, Recorded(s.workers[w].phase, acked))
  }

  ghost predicate SendStep(s: State, s': State, w: nat)
  {
    && w in s.workers && s.workers[w].phase.Ready?
    && var Worker(c, ph) := s.workers[w];
    && s' == Advance(s, w, Sending(ph.want, ph.slot))
             .(sent := s.sent + {ph.slot}, log := s.log + [Sent(c.dev, s.clock, ph.slot, ph.want)])
  }

  /** The device acts on a request it has been sent and has not refused, at any later time. */
  ghost predicate ActStep(s: State, s': State, slot: nat)
  {
    slot in s.sent && slot !in s.refused && s' == s.(acted := s.acted + {slot})
  }

  /** The call returns; an acceptance is of something done, and a refusal of something not done. */
  ghost predicate ReceiveStep(s: State, s': State, w: nat, answer: Answer, error: string)
  {
    && w in s.workers && s.workers[w].phase.Sending?
    && var ph := s.workers[w].phase;
    && (answer.Accepted? ==> ph.slot in s.acted)
    && (answer.Refused? ==> ph.slot !in s.acted)
    && s' == if answer.Accepted? then Advance(s, w, Quiet(ph.slot))
             else Advance(s, w, Recording(ph.want.(error := error, refused := answer.Refused?), ph.slot, false, true))
                  .(refused := if answer.Refused? then s.refused + {ph.slot} else s.refused)
  }

  /** Steps in which a worker only moves on to its next phase, and perhaps a slot or a refusal is noted. */
  predicate MovesOn(step: Step)
  {
    step.List? || step.Claim? || step.Denied? || step.Stamp? || step.RecordEnd? || step.Receive?
  }

  /** Steps that make history. */
  predicate IsLogged(step: Step)
  {
    step.Begin? || step.Touch? || step.Patch? || step.Send?
  }

  ghost predicate MoveNext(s: State, s': State, step: Step)
    requires MovesOn(step)
  {
    if step.List? then ListStep(s, s', step.w, step.target, step.list)
    else if step.Claim? then ClaimStep(s, s', step.w)
    else if step.Denied? then DeniedStep(s, s', step.w)
    else if step.Stamp? then StampStep(s, s', step.w, step.from)
    else if step.RecordEnd? then RecordedStep(s, s', step.w, step.acked)
    else ReceiveStep(s, s', step.w, step.answer, step.error)
  }

  ghost predicate LogNext(s: State, s': State, step: Step)
    requires IsLogged(step)
  {
    if step.Begin? then BeginStep(s, s', step.w, step.d, step.fw)
    else if step.Touch? then TouchStep(s, s', step.w)
    else if step.Patch? then PatchStep(s, s', step.w, step.base)
    else SendStep(s, s', step.w)
  }

  ghost predicate StoreNext(s: State, s': State, step: Step)
    requires !MovesOn(step) && !IsLogged(step)
  {
    if step.Tick? then TickStep(s, s', step.dt)
    else if step.Crash? then CrashStep(s, s')
    else if step.Create? then CreateStep(s, s', step.d, step.fw)
    else if step.ProbeRead? then ProbeReadStep(s, s', step.p, step.d)
    else if step.ProbeWrite? then ProbeWriteStep(s, s', step.p, step.fw)
    else if step.StaleWrite? then StaleWriteStep(s, s', step.p)
    else if step.OtherPatch? then OtherPatchStep(s, s', step.d)
    else if step.End? then EndStep(s, s', step.w)
    else ActStep(s, s', step.slot)
  }

  ghost predicate Next(s: State, s': State, step: Step)
  {
    if MovesOn(step) then MoveNext(s, s', step) else if IsLogged(step) then LogNext(s, s', step) else StoreNext(s, s', step)
  }
}
