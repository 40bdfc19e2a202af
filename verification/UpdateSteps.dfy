/**
 One reconcile's part in the update protocol: the steps it takes, judged only by what the
 reconcile itself can see.
 */
module UpdateSteps {
  import opened Wrappers
  import opened Times
  import opened FirmwareUpdate
  import opened UpdateProtocol

  /**
   What one reconcile sees of the protocol: what stays fixed while it lasts (the firmware it
   holds, the fleet as it would list it, the number the next slot gets), the time, this
   process's last start, its device's stored attempt, its own phase, whether the device
   has acted on its request, whether it is over, and the calls it has made.
   */
  datatype Local = Local(
    dev: Device, worker: nat, spacing: nat, firmware: string, fleet: Option<seq<Option<Attempt>>>, number: nat,
    clock: nat, start: Option<nat>, last: Option<Attempt>, ph: Option<Phase>, acted: bool, over: bool, calls: nat)

  function In(l: Local, ph: Phase): Local
  {
    l.(ph := Some(ph))
  }

  /** A step of this reconcile, of its device on its request, or of the clock. */
  ghost predicate LocalStep(l: Local, l': Local, step: Step)
  {
    if step.Tick? then l' == l.(clock := l.clock + step.dt)
    else if step.Begin? then
      && step.w == l.worker && step.d == l.dev && step.fw == l.firmware && l.ph.None? && !l.over
      && UpdateInFlight(step.fw, l.last, l.clock) == 0 && l' == In(l, Working)
    else l.ph.Some? && (if IsUpdate(step) then UpdateStep(l, l.ph.value, l', step) else CallStep(l, l.ph.value, l', step))
  }

  /** The steps up to the stored attempt, and those that store its answer. */
  predicate IsUpdate(step: Step)
  {
    step.List? || step.Claim? || step.Denied? || step.Stamp? || step.Patch? || step.RecordEnd?
  }

  ghost predicate UpdateStep(l: Local, ph: Phase, l': Local, step: Step)
    requires IsUpdate(step)
  {
    && step.w == l.worker
    && if step.List? then
         && ph.Working? && l.fleet == Some(step.list) && !AskedRecently(l.last, step.target, l.clock)
         && l' == In(l, Listed(step.target, step.list))
       else if step.Claim? then
         && ph.Listed? && FleetQuiet(l.start, ph.list, l.spacing, l.clock)
         && l' == In(l, Claimed(ph.target, l.number)).(start := Some(l.clock))
       else if step.Denied? then ph.Listed? && !FleetQuiet(l.start, ph.list, l.spacing, l.clock) && l' == In(l, After)
       else if step.Stamp? then
         && ph.Claimed? && step.from == l.firmware
         && l' == In(l, Recording(Attempt(Persisted(l.clock), step.from, ph.target, "", false), ph.slot, false, false))
       else if step.Patch? then
         ph.Recording? && step.base == l.last && l' == In(l, Recording(ph.want, ph.slot, true, ph.sent)).(last := Some(ph.want))
       else ph.Recording? && (step.acked ==> ph.written) && l' == In(l, Recorded(ph, step.acked))
  }

  ghost predicate CallStep(l: Local, ph: Phase, l': Local, step: Step)
  {
    if step.End? then step.w == l.worker && l' == l.(ph := None, over := true)
    else if step.Touch? then step.w == l.worker && (ph.Working? || ph.After?) && l' == l.(calls := l.calls + 1)
    else if step.Send? then step.w == l.worker && ph.Ready? && l' == In(l, Sending(ph.want, ph.slot)).(acted := false, calls := l.calls + 1)
    else if step.Act? then ph.Sending? && step.slot == ph.slot && l' == l.(acted := true)
    else
      && step.Receive? && step.w == l.worker && ph.Sending? && (step.answer.Accepted? ==> l.acted) && (step.answer.Refused? ==> !l.acted)
      && l' == In(l, Heard(ph.want, ph.slot, step.answer, step.error))
  }

  /** The phase an answered request leads to. */
  function Heard(want: Attempt, slot: nat, answer: Answer, error: string): Phase
  {
    if answer.Accepted? then Quiet(slot) else Recording(want.(error := error, refused := answer.Refused?), slot, false, true)
  }

  /** What has been done so far, step by step. */
  datatype Deed = Deed(states: seq<Local>, steps: seq<Step>, first: Local, now: Local)
  {
    ghost predicate StepsBy(i: nat)
      requires i < |steps| && |states| == |steps| + 1
    {
      LocalStep(states[i], states[i + 1], steps[i])
    }

    ghost predicate Valid()
    {
      && |states| == |steps| + 1 && states[0] == first && states[|steps|] == now
      && forall i :: 0 <= i < |steps| ==> StepsBy(i)
    }
  }

  function Nothing(l: Local): (d: Deed)
    ensures d.Valid() && d.first == d.now == l
  {
    Deed([l], [], l, l)
  }

  lemma Do(d: Deed, step: Step, l: Local) returns (d': Deed)
    requires d.Valid() && LocalStep(d.now, l, step)
    ensures d'.Valid() && d'.first == d.first && d'.now == l
  {
    d' := Deed(d.states + [l], d.steps + [step], d.first, l);
    forall i | 0 <= i < |d'.steps| ensures d'.StepsBy(i) {
      if i < |d.steps| {
        assert d.StepsBy(i);
      }
    }
  }

  lemma Ticks(d: Deed, clock: nat) returns (d': Deed)
    requires d.Valid() && d.now.clock <= clock
    ensures d'.Valid() && d'.first == d.first && d'.now == d.now.(clock := clock)
  {
    d' := Do(d, Tick(clock - d.now.clock), d.now.(clock := clock));
  }

  /** A reconcile that is not held back begins. */
  lemma Begins(d: Deed) returns (d': Deed)
    requires d.Valid() && d.now.ph.None? && !d.now.over && UpdateInFlight(d.now.firmware, d.now.last, d.now.clock) == 0
    ensures d'.Valid() && d'.first == d.first && d'.now == In(d.now, Working)
  {
    d' := Do(d, Begin(d.now.worker, d.now.dev, d.now.firmware), In(d.now, Working));
  }

  lemma Ends(d: Deed) returns (d': Deed)
    requires d.Valid() && d.now.ph.Some?
    ensures d'.Valid() && d'.first == d.first && d'.now == d.now.(ph := None, over := true)
  {
    d' := Do(d, End(d.now.worker), d.now.(ph := None, over := true));
  }

  /** The fleet is listed, for a version not asked for recently. */
  lemma Lists(d: Deed, target: string, list: seq<Option<Attempt>>) returns (d': Deed)
    requires d.Valid() && d.now.ph == Some(Working) && d.now.fleet == Some(list) && !AskedRecently(d.now.last, target, d.now.clock)
    ensures d'.Valid() && d'.first == d.first && d'.now == In(d.now, Listed(target, list))
  {
    d' := Do(d, List(d.now.worker, target, list), In(d.now, Listed(target, list)));
  }

  /** The slot is claimed, or not to be had. */
  lemma Claims(d: Deed, target: string, list: seq<Option<Attempt>>, ok: bool) returns (d': Deed)
    requires d.Valid() && d.now.ph == Some(Listed(target, list)) && (ok <==> FleetQuiet(d.now.start, list, d.now.spacing, d.now.clock))
    ensures d'.Valid() && d'.first == d.first
    ensures d'.now == if ok then In(d.now, Claimed(target, d.now.number)).(start := Some(d.now.clock)) else In(d.now, After)
  {
    if ok {
      d' := Do(d, Claim(d.now.worker), In(d.now, Claimed(target, d.now.number)).(start := Some(d.now.clock)));
    } else {
      d' := Do(d, Denied(d.now.worker), In(d.now, After));
    }
  }

  /** The attempt is made out. */
  lemma Stamps(d: Deed, target: string, slot: nat) returns (d': Deed)
    requires d.Valid() && d.now.ph == Some(Claimed(target, slot))
    ensures d'.Valid() && d'.first == d.first
    ensures d'.now == In(d.now, Recording(Attempt(Persisted(d.now.clock), d.now.firmware, target, "", false), slot, false, false))
  {
    d' := Do(d, Stamp(d.now.worker, d.now.firmware),
             In(d.now, Recording(Attempt(Persisted(d.now.clock), d.now.firmware, target, "", false), slot, false, false)));
  }

  /** Calls other than Shelly.Update. */
  lemma {:induction false} Touches(d: Deed, n: nat) returns (d': Deed)
    requires d.Valid() && d.now.ph.Some? && (d.now.ph.value.Working? || d.now.ph.value.After?)
    ensures d'.Valid() && d'.first == d.first && d'.now == d.now.(calls := d.now.calls + n)
    decreases n
  {
    d' := d;
    if n > 0 {
      var before := Touches(d, n - 1);
      d' := Do(before, Touch(d.now.worker), d.now.(calls := d.now.calls + n));
    }
  }

  /** One try at storing the attempt: a patch if it is now stored, and otherwise nothing. */
  lemma Patches(d: Deed, want: Attempt, slot: nat, written: bool, sent: bool, last: Option<Attempt>) returns (d': Deed, written': bool)
    requires d.Valid() && d.now.ph == Some(Recording(want, slot, written, sent)) && (last == d.now.last || last == Some(want))
    ensures d'.Valid() && d'.first == d.first && d'.now == In(d.now, Recording(want, slot, written', sent)).(last := last)
    ensures last == Some(want) ==> written'
  {
    d', written' := d, written;
    if last == Some(want) {
      d' := Do(d, Patch(d.now.worker, d.now.last), In(d.now, Recording(want, slot, true, sent)).(last := last));
      written' := true;
    }
  }

  /** Recording ends, acknowledged or not. */
  lemma Stops(d: Deed, want: Attempt, slot: nat, written: bool, sent: bool, acked: bool) returns (d': Deed)
    requires d.Valid() && d.now.ph == Some(Recording(want, slot, written, sent)) && (acked ==> written)
    ensures d'.Valid() && d'.first == d.first && d'.now == In(d.now, Recorded(Recording(want, slot, false, sent), acked))
  {
    d' := Do(d, RecordEnd(d.now.worker, acked), In(d.now, Recorded(Recording(want, slot, written, sent), acked)));
  }

  /** The request goes out, the device acts on it or does not, and the call returns. */
  lemma Exchange(d: Deed, want: Attempt, slot: nat, acts: nat, answer: Answer, error: string) returns (d': Deed)
    requires d.Valid() && d.now.ph == Some(Ready(want, slot))
    requires (answer.Accepted? ==> acts > 0) && (answer.Refused? ==> acts == 0)
    ensures d'.Valid() && d'.first == d.first
    ensures d'.now == In(d.now, Heard(want, slot, answer, error)).(acted := acts > 0, calls := d.now.calls + 1)
  {
    d' := Sends(d, want, slot);
    if acts > 0 {
      d' := Acts(d', want, slot);
    }
    d' := Do(d', Receive(d.now.worker, answer, error), In(d'.now, Heard(want, slot, answer, error)));
  }

  lemma Sends(d: Deed, want: Attempt, slot: nat) returns (d': Deed)
    requires d.Valid() && d.now.ph == Some(Ready(want, slot))
    ensures d'.Valid() && d'.first == d.first
    ensures d'.now == In(d.now, Sending(want, slot)).(acted := false, calls := d.now.calls + 1)
  {
    d' := Do(d, Send(d.now.worker), In(d.now, Sending(want, slot)).(acted := false, calls := d.now.calls + 1));
  }

  lemma Acts(d: Deed, want: Attempt, slot: nat) returns (d': Deed)
    requires d.Valid() && d.now.ph == Some(Sending(want, slot))
    ensures d'.Valid() && d'.first == d.first && d'.now == d.now.(acted := true)
  {
    d' := Do(d, Act(slot), d.now.(acted := true));
  }
}
