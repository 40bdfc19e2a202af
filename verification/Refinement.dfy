/**
 Every reconcile is a path of the update protocol: whatever steps it takes by its own view
 are steps the protocol allows, from any state in which it may begin.
 */
module Refinement {
  import opened Wrappers
  import opened Times
  import opened FirmwareUpdate
  import opened UpdateProtocol
  import opened UpdateSafety
  import opened UpdateSteps

  /** How many calls to devices the log has. */
  function Rpcs(log: seq<Event>): nat
  {
    if log == [] then 0 else Rpcs(log[..|log| - 1]) + if log[|log| - 1].IsRpc() then 1 else 0
  }

  lemma RpcsGrow(log: seq<Event>, e: Event)
    ensures Rpcs(log + [e]) == Rpcs(log) + if e.IsRpc() then 1 else 0
  {
    assert (log + [e])[..|log|] == log;
  }

  /** Before the attempt is made out. */
  predicate Early(ph: Phase)
  {
    ph.Working? || ph.Listed? || ph.Claimed?
  }

  /** What the reconcile sees is so, its phase apart. */
  ghost predicate Sees(s: State, l: Local)
  {
    && l.dev in s.objs && s.objs[l.dev].last == l.last
    && s.clock == l.clock && s.lastStart == l.start && s.spacing == l.spacing
    && (l.fleet.Some? ==> ListCovers(s.boot, l.fleet.value))
  }

  /** It may begin: nobody has its key, and the firmware it holds is one its object has shown since the last attempt. */
  ghost predicate Waits(s: State, l: Local)
  {
    l.worker !in s.workers && !Busy(s, l.dev) && l.dev in s.objs && l.firmware in s.objs[l.dev].published && l.number == |s.slots|
  }

  /** Its worker is in the phase, has seen what is stored, and knows what became of its request. */
  ghost predicate Works(s: State, l: Local, ph: Phase)
  {
    && l.worker in s.workers && s.workers[l.worker].phase == ph
    && s.workers[l.worker].cycle.dev == l.dev && l.last in s.workers[l.worker].cycle.seen
    && (Early(ph) ==> l.dev in s.objs && l.firmware in s.objs[l.dev].published)
    && (ph.Working? || ph.Listed? ==> l.number == |s.slots|)
    && (ph.Sending? ==> ph.slot in s.sent && ph.slot !in s.refused && (ph.slot in s.acted <==> l.acted))
  }

  ghost predicate Projects(s: State, l: Local)
  {
    Sees(s, l) && match l.ph
                  case Some(ph) => Works(s, l, ph)
                  case None => if l.over then l.worker !in s.workers else Waits(s, l)
  }

  /** The step is the protocol's too, the reconcile still sees what is so, and its calls are those logged. */
  ghost predicate Lifts(s: State, l: Local, s': State, l': Local, step: Step)
  {
    Next(s, s', step) && Projects(s', l') && Rpcs(s'.log) + l.calls == Rpcs(s.log) + l'.calls
  }

  // ----- one lemma per kind of step

  lemma LiftTick(s: State, l: Local, l': Local, step: Step) returns (s': State)
    requires Projects(s, l) && LocalStep(l, l', step) && step.Tick?
    ensures Lifts(s, l, s', l', step)
  {
    s' := s.(clock := s.clock + step.dt);
  }

  lemma LiftBegin(s: State, l: Local, l': Local, step: Step) returns (s': State)
    requires Projects(s, l) && LocalStep(l, l', step) && step.Begin?
    ensures Lifts(s, l, s', l', step)
  {
    var e := Begun(l.dev, s.clock, l.firmware);
    RpcsGrow(s.log, e);
    s' := s.(workers := s.workers[l.worker := Worker(Cycle(l.dev, s.clock, l.firmware, l.last, {l.last}), Working)], log := s.log + [e]);
    assert BeginStep(s, s', l.worker, l.dev, l.firmware);
  }

  lemma LiftEnd(s: State, l: Local, l': Local, step: Step) returns (s': State)
    requires Projects(s, l) && LocalStep(l, l', step) && step.End?
    ensures Lifts(s, l, s', l', step)
  {
    s' := s.(workers := s.workers - {l.worker});
  }

  lemma LiftTouch(s: State, l: Local, l': Local, step: Step) returns (s': State)
    requires Projects(s, l) && LocalStep(l, l', step) && step.Touch?
    ensures Lifts(s, l, s', l', step)
  {
    var e := Touched(l.dev, s.clock);
    RpcsGrow(s.log, e);
    s' := s.(log := s.log + [e]);
  }

  lemma LiftList(s: State, l: Local, l': Local, step: Step) returns (s': State)
    requires WorkersOk(s) && Projects(s, l) && LocalStep(l, l', step) && step.List?
    ensures Lifts(s, l, s', l', step)
  {
    assert PhaseOk(s, s.workers[l.worker].cycle, Working);
    s' := Advance(s, l.worker, Listed(step.target, step.list));
  }

  lemma LiftClaim(s: State, l: Local, l': Local, step: Step) returns (s': State)
    requires Projects(s, l) && LocalStep(l, l', step) && step.Claim?
    ensures Lifts(s, l, s', l', step)
  {
    s' := Advance(s, l.worker, Claimed(l.ph.value.target, |s.slots|)).(lastStart := Some(s.clock), slots := s.slots + [Slot(s.epoch, s.clock, l.dev)]);
    assert ClaimStep(s, s', l.worker);
  }

  lemma LiftDenied(s: State, l: Local, l': Local, step: Step) returns (s': State)
    requires Projects(s, l) && LocalStep(l, l', step) && step.Denied?
    ensures Lifts(s, l, s', l', step)
  {
    s' := Advance(s, l.worker, After);
  }

  lemma LiftStamp(s: State, l: Local, l': Local, step: Step) returns (s': State)
    requires Projects(s, l) && LocalStep(l, l', step) && step.Stamp?
    ensures Lifts(s, l, s', l', step)
  {
    s' := Advance(s, l.worker, l'.ph.value);
  }

  lemma LiftPatch(s: State, l: Local, l': Local, step: Step) returns (s': State)
    requires Projects(s, l) && LocalStep(l, l', step) && step.Patch?
    ensures Lifts(s, l, s', l', step)
  {
    var ph := l.ph.value;
    PatchedFromCurrent(l.last, ph.want);
    RpcsGrow(s.log, Persist(l.dev, ph.slot, ph.want, l.last, s.workers[l.worker].cycle.firmware));
    s' := ApplyPatch(s, l.worker, l.last);
  }

  lemma LiftRecordEnd(s: State, l: Local, l': Local, step: Step) returns (s': State)
    requires Projects(s, l) && LocalStep(l, l', step) && step.RecordEnd?
    ensures Lifts(s, l, s', l', step)
  {
    s' := Advance(s, l.worker, l'.ph.value);
  }

  lemma LiftSend(s: State, l: Local, l': Local, step: Step) returns (s': State)
    requires WorkersOk(s) && SetsOk(s) && Projects(s, l) && LocalStep(l, l', step) && step.Send?
    ensures Lifts(s, l, s', l', step)
  {
    var ph := l.ph.value;
    assert PhaseOk(s, s.workers[l.worker].cycle, ph);
    var e := Sent(l.dev, s.clock, ph.slot, ph.want);
    RpcsGrow(s.log, e);
    s' := Advance(s, l.worker, l'.ph.value).(sent := s.sent + {ph.slot}, log := s.log + [e]);
  }

  lemma LiftAct(s: State, l: Local, l': Local, step: Step) returns (s': State)
    requires Projects(s, l) && LocalStep(l, l', step) && step.Act?
    ensures Lifts(s, l, s', l', step)
  {
    s' := s.(acted := s.acted + {step.slot});
  }

  lemma LiftReceive(s: State, l: Local, l': Local, step: Step) returns (s': State)
    requires Projects(s, l) && LocalStep(l, l', step) && step.Receive?
    ensures Lifts(s, l, s', l', step)
  {
    s' := Advance(s, l.worker, l'.ph.value);
    if step.answer.Refused? {
      s' := s'.(refused := s.refused + {l.ph.value.slot});
    }
  }

  lemma LiftUpdate(s: State, l: Local, l': Local, step: Step) returns (s': State)
    requires Inv(s) && Projects(s, l) && LocalStep(l, l', step) && IsUpdate(step)
    ensures Lifts(s, l, s', l', step)
  {
    if step.List? {
      s' := LiftList(s, l, l', step);
    } else if step.Claim? {
      s' := LiftClaim(s, l, l', step);
    } else if step.Denied? {
      s' := LiftDenied(s, l, l', step);
    } else if step.Stamp? {
      s' := LiftStamp(s, l, l', step);
    } else if step.Patch? {
      s' := LiftPatch(s, l, l', step);
    } else {
      s' := LiftRecordEnd(s, l, l', step);
    }
  }

  lemma LiftStep(s: State, l: Local, l': Local, step: Step) returns (s': State)
    requires Inv(s) && Projects(s, l) && LocalStep(l, l', step)
    ensures Lifts(s, l, s', l', step)
  {
    if IsUpdate(step) {
      s' := LiftUpdate(s, l, l', step);
    } else if step.Tick? {
      s' := LiftTick(s, l, l', step);
    } else if step.Begin? {
      s' := LiftBegin(s, l, l', step);
    } else if step.End? {
      s' := LiftEnd(s, l, l', step);
    } else if step.Touch? {
      s' := LiftTouch(s, l, l', step);
    } else if step.Send? {
      s' := LiftSend(s, l, l', step);
    } else if step.Act? {
      s' := LiftAct(s, l, l', step);
    } else {
      s' := LiftReceive(s, l, l', step);
    }
  }

  // ----- whole reconciles

  ghost predicate StepsBy(states: seq<State>, steps: seq<Step>, i: nat)
    requires i < |steps| && i + 1 < |states|
  {
    Next(states[i], states[i + 1], steps[i])
  }

  /** The states are linked by the first n steps. */
  ghost predicate Along(states: seq<State>, steps: seq<Step>, n: nat)
  {
    n <= |steps| && |states| == n + 1 && forall i :: 0 <= i < n ==> StepsBy(states, steps, i)
  }

  ghost predicate Path(states: seq<State>, steps: seq<Step>)
  {
    Along(states, steps, |steps|)
  }

  /** The states follow the first n steps of what a reconcile did, and it still sees what is so. */
  ghost predicate Follows(d: Deed, s: State, states: seq<State>, n: nat)
    requires d.Valid() && n <= |d.steps|
  {
    && Along(states, d.steps, n) && states[0] == s && Inv(states[n]) && Projects(states[n], d.states[n])
    && Rpcs(states[n].log) + d.first.calls == Rpcs(s.log) + d.states[n].calls
  }

  lemma AlongGrows(states: seq<State>, steps: seq<Step>, n: nat, s: State)
    requires Along(states, steps, n) && n < |steps| && Next(states[n], s, steps[n])
    ensures Along(states + [s], steps, n + 1)
  {
    forall i | 0 <= i < n + 1 ensures StepsBy(states + [s], steps, i) {
      if i < n {
        assert StepsBy(states, steps, i);
      }
    }
  }

  lemma FollowsOn(d: Deed, s: State, before: seq<State>, n: nat) returns (states: seq<State>)
    requires d.Valid() && n < |d.steps| && Follows(d, s, before, n)
    ensures Follows(d, s, states, n + 1)
  {
    assert d.StepsBy(n);
    var s' := LiftStep(before[n], d.states[n], d.states[n + 1], d.steps[n]);
    InvKept(before[n], s', d.steps[n]);
    AlongGrows(before, d.steps, n, s');
    states := before + [s'];
  }

  /** The first n steps of what a reconcile did, from a state in which it may begin. */
  lemma {:induction false} PrefixIsPath(d: Deed, s: State, n: nat) returns (states: seq<State>)
    requires Inv(s) && d.Valid() && Projects(s, d.first) && n <= |d.steps|
    ensures Follows(d, s, states, n)
  {
    if n == 0 {
      states := [s];
    } else {
      var before := PrefixIsPath(d, s, n - 1);
      states := FollowsOn(d, s, before, n - 1);
    }
  }

  /**
   What a reconcile does is a path of the protocol, from any state of the invariant in which
   it may begin: it ends with the protocol agreeing on time, slot and stored attempt, the
   key given back, and exactly its calls added to the log.
   */
  lemma ReconcileIsPath(d: Deed, s: State) returns (states: seq<State>)
    requires Inv(s) && d.Valid() && Projects(s, d.first)
    ensures Path(states, d.steps) && states[0] == s && Inv(states[|d.steps|]) && Projects(states[|d.steps|], d.now)
    ensures Rpcs(states[|d.steps|].log) + d.first.calls == Rpcs(s.log) + d.now.calls
  {
    states := PrefixIsPath(d, s, |d.steps|);
  }

  /** A run can go on with any path from where it stands: what holds of every run holds of reconciles in it. */
  lemma RunGoesOn(run: seq<State>, states: seq<State>, steps: seq<Step>)
    requires Run(run) && Path(states, steps) && states[0] == run[|run| - 1]
    ensures Run(run + states[1..])
  {
    var whole := run + states[1..];
    forall i | 0 <= i < |whole| - 1 ensures StepsAt(whole, i) {
      if i < |run| - 1 {
        assert StepsAt(run, i);
      } else {
        assert StepsBy(states, steps, i - |run| + 1);
      }
    }
  }
}
