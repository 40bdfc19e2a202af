/** What every step of the update protocol keeps, and what follows for every run. */
module UpdateSafety {
  import opened Wrappers
  import opened Times
  import opened FirmwareUpdate
  import opened UpdateProtocol

  // ----- vocabulary

  predicate Whole(t: nat, clock: nat)
  {
    t % SECOND == 0 && t <= clock
  }

  /** A reconcile that read this status at this instant was not held back. */
  predicate GatePassed(last: Option<Attempt>, firmware: string, at: nat)
  {
    last.Some? && !last.value.refused ==> firmware != last.value.from || UPDATE_SETTLE <= at - last.value.time
  }

  /** When one request may follow another on the same device, by a reconcile that read this firmware. */
  predicate Follows(prev: Option<Attempt>, next: Attempt, read: string)
  {
    prev.Some? && !prev.value.refused ==>
      || UPDATE_SETTLE <= next.time - prev.value.time
      || (read != prev.value.from && next.target != prev.value.target)
  }

  predicate NotOlder(a: Option<Attempt>, b: Option<Attempt>)
  {
    a.Some? ==> b.Some? && a.value.time <= b.value.time
  }

  /** The slot was claimed for this device by the running process. */
  predicate Owns(s: State, d: Device, slot: nat)
  {
    slot < |s.slots| && s.slots[slot].dev == d && s.slots[slot].epoch == s.epoch
  }

  predicate RequestOk(s: State, c: Cycle, want: Attempt, slot: nat)
  {
    && Owns(s, c.dev, slot)
    && !want.refused
    && Whole(want.time, s.clock)
    && Persisted(s.slots[slot].at) <= want.time
    && NotOlder(c.last, Some(want))
    && Follows(c.last, want, c.firmware)
  }

  /** A version of the attempt that only its own recordings can have produced. */
  predicate VersionOf(v: Option<Attempt>, want: Attempt)
  {
    v.Some? && SameRequest(v.value, want) && (v.value.refused ==> want.refused)
  }

  ghost predicate PhaseOk(s: State, c: Cycle, ph: Phase)
    requires c.dev in s.objs
  {
    var now := s.objs[c.dev].last;
    match ph
    case Working => now == c.last && c.seen == {c.last}
    case Listed(target, list) =>
      now == c.last && c.seen == {c.last} && !AskedRecently(c.last, target, s.clock) && ListCovers(s.boot, list)
    case Claimed(target, slot) =>
      && now == c.last && c.seen == {c.last} && !AskedRecently(c.last, target, s.clock)
      && Owns(s, c.dev, slot) && slot !in s.persisted
    case Recording(want, slot, written, sent) =>
      if sent then
        && VersionOf(now, want) && slot in s.sent && slot < |s.slots| && s.slots[slot].dev == c.dev
        && (forall v :: v in c.seen ==> v == c.last || VersionOf(v, want))
        && (want.refused <==> slot in s.refused)
      else
        && RequestOk(s, c, want, slot)
        && now == (if written then Some(want) else c.last)
        && (written <==> slot in s.persisted) && slot !in s.sent
        && c.seen <= (if written then {c.last, Some(want)} else {c.last})
    case Ready(want, slot) =>
      RequestOk(s, c, want, slot) && now == Some(want) && slot in s.persisted && slot !in s.sent && c.seen <= {c.last, Some(want)}
    case Sending(want, slot) =>
      && Owns(s, c.dev, slot) && !want.refused && now == Some(want)
      && slot in s.sent && slot !in s.refused && c.seen <= {c.last, Some(want)}
    case Quiet(slot) => slot in s.sent && slot !in s.refused && slot < |s.slots| && s.slots[slot].dev == c.dev
    case After => true
  }

  ghost predicate WorkersOk(s: State)
  {
    && (forall w :: w in s.workers ==>
          var c := s.workers[w].cycle;
          && c.dev in s.objs && c.begun <= s.clock
          && GatePassed(c.last, c.firmware, c.begun)
          && (c.last.Some? ==> Whole(c.last.value.time, s.clock))
          && PhaseOk(s, c, s.workers[w].phase))
    && (forall v, w :: v in s.workers && w in s.workers && v != w ==> s.workers[v].cycle.dev != s.workers[w].cycle.dev)
  }

  ghost predicate FleetOk(s: State)
  {
    && (forall d :: d in s.objs && s.objs[d].last.Some? ==> Whole(s.objs[d].last.value.time, s.clock))
    && (forall d :: d in s.boot ==> d in s.objs && NotOlder(s.boot[d].last, s.objs[d].last))
    && (forall p :: p in s.probes ==>
          var Snapshot(d, o) := s.probes[p];
          && d in s.objs && o.version <= s.objs[d].version
          && (o.version == s.objs[d].version ==> o.last == s.objs[d].last))
  }

  ghost predicate SetsOk(s: State)
  {
    && s.refused <= s.sent <= s.persisted && s.acted <= s.sent && s.acted !! s.refused
    && forall i :: i in s.persisted ==> i < |s.slots|
  }

  ghost predicate SlotsOk(s: State)
  {
    && s.spacing > 0
    && (forall i :: 0 <= i < |s.slots| ==> s.slots[i].at <= s.clock && s.slots[i].epoch <= s.epoch)
    && (forall i :: 0 <= i < |s.slots| && s.slots[i].epoch == s.epoch ==> s.lastStart.Some? && s.slots[i].at <= s.lastStart.value)
    && (forall i, j :: 0 <= i < j < |s.slots| ==> Spaced(s.slots[i], s.slots[j], i in s.persisted, s.spacing))
  }

  ghost predicate RecallOk(s: State)
  {
    forall i :: i in s.persisted && i < |s.slots| ==>
      && s.slots[i].dev in s.objs && Recalls(s.objs, s.slots[i])
      && (s.slots[i].epoch < s.epoch ==> s.slots[i].dev in s.boot && Recalls(s.boot, s.slots[i]))
  }

  /** The device's own record is no older than the slot behind it. */
  predicate Recalls(objs: map<Device, Obj>, slot: Slot)
    requires slot.dev in objs
  {
    objs[slot.dev].last.Some? && Persisted(slot.at) <= objs[slot.dev].last.value.time
  }

  /** Two claims, earlier then later: spaced within a process; across a restart, spaced from what was persisted. */
  predicate Spaced(a: Slot, b: Slot, persisted: bool, spacing: nat)
  {
    && a.epoch <= b.epoch
    && (a.epoch == b.epoch ==> spacing <= b.at - a.at)
    && (a.epoch < b.epoch && persisted ==> spacing <= b.at - Persisted(a.at))
  }

  /** Between the send at i and position j, some reconcile of the device began free to touch it. */
  ghost predicate Lifted(log: seq<Event>, i: nat, j: nat)
    requires i < j <= |log| && log[i].Sent?
  {
    exists k :: i < k < j && log[k].Begun? && log[k].dev == log[i].dev
      && (log[k].firmware != log[i].request.from || UPDATE_SETTLE <= log[k].at - log[i].request.time)
  }

  /** Nothing can reach the device: its record still holds the request, and no worker past it is free. */
  ghost predicate Held(s: State, d: Device, slot: nat, request: Attempt)
  {
    && d in s.objs && VersionOf(s.objs[d].last, request) && !request.refused
    && forall w :: w in s.workers && s.workers[w].cycle.dev == d ==> Holds(s.workers[w].phase, slot)
  }

  /** The worker sent the request of this slot and will touch its device no more. */
  predicate Holds(ph: Phase, slot: nat)
  {
    (ph.Sending? || (ph.Recording? && ph.sent) || ph.Quiet?) && ph.slot == slot
  }

  ghost predicate SendOk(s: State, i: nat)
    requires i < |s.log| && s.log[i].Sent?
  {
    && s.log[i].slot in s.sent && s.log[i].slot < |s.slots|
    && s.slots[s.log[i].slot].dev == s.log[i].dev && s.slots[s.log[i].slot].at <= s.log[i].at
    && (s.log[i].slot !in s.refused ==>
          Lifted(s.log, i, |s.log|) || Held(s, s.log[i].dev, s.log[i].slot, s.log[i].request))
  }

  /** An RPC after a send to the same device: the send was refused, or its hold was lifted in between. */
  ghost predicate RpcOk(log: seq<Event>, refused: set<nat>, i: nat, j: nat)
    requires i < j < |log|
  {
    log[i].Sent? && log[j].IsRpc() && log[i].dev == log[j].dev ==> log[i].slot in refused || Lifted(log, i, j)
  }

  ghost predicate SendsOk(s: State)
  {
    && (forall i :: 0 <= i < |s.log| && s.log[i].Sent? ==> SendOk(s, i))
    && (forall i, j :: 0 <= i < j < |s.log| && s.log[i].Sent? && s.log[j].Sent? ==> s.log[i].slot != s.log[j].slot)
    && (forall i, j :: 0 <= i < j < |s.log| ==> RpcOk(s.log, s.refused, i, j))
  }

  /** The record at i is still the device's newest one. */
  ghost predicate Newest(log: seq<Event>, i: nat)
    requires i < |log| && log[i].Persist?
  {
    forall j :: i < j < |log| && log[j].Persist? ==> log[j].dev != log[i].dev
  }

  /** The records at i and j are on one device, with none of that device between them. */
  ghost predicate Consecutive(log: seq<Event>, i: nat, j: nat)
    requires i < j < |log|
  {
    && log[i].Persist? && log[j].Persist? && log[i].dev == log[j].dev
    && forall k :: i < k < j && log[k].Persist? ==> log[k].dev != log[i].dev
  }

  /** The worker's request has been persisted, and is not yet settled. */
  predicate Carries(ph: Phase)
  {
    (ph.Recording? && (ph.written || ph.sent)) || ph.Ready? || ph.Sending?
  }

  /** The device's status and its worker, if it carries a request, are both about the record at i. */
  ghost predicate Current(s: State, i: nat)
    requires i < |s.log| && s.log[i].Persist?
  {
    && s.log[i].dev in s.objs
    && Became(s, s.objs[s.log[i].dev].last, s.log[i])
    && forall w :: w in s.workers && s.workers[w].cycle.dev == s.log[i].dev && Carries(s.workers[w].phase) ==>
         s.workers[w].phase.slot == s.log[i].slot
  }

  ghost predicate RecordsOk(s: State)
  {
    && (forall i :: 0 <= i < |s.log| && s.log[i].Persist? ==>
          s.log[i].slot in s.persisted && Follows(s.log[i].prev, s.log[i].request, s.log[i].read) && (Newest(s.log, i) ==> Current(s, i)))
    && (forall i, j :: 0 <= i < j < |s.log| && Consecutive(s.log, i, j) ==> Became(s, s.log[j].prev, s.log[i]))
  }

  /** stored is what became of the request persisted by event e; a refusal on it is true. */
  ghost predicate Became(s: State, stored: Option<Attempt>, e: Event)
    requires e.Persist?
  {
    && stored.Some? && SameRequest(stored.value, e.request)
    && (stored.value.refused ==> e.slot in s.refused)
  }

  ghost predicate Inv(s: State)
  {
    FleetOk(s) && SetsOk(s) && SlotsOk(s) && RecallOk(s) && WorkersOk(s) && SendsOk(s) && RecordsOk(s)
  }

  // ----- frames

  /** Nothing a worker on this device relies on has changed. */
  ghost predicate Undisturbed(s: State, s': State, d: Device)
  {
    && d in s.objs && d in s'.objs && s.objs[d].last == s'.objs[d].last
    && s.clock <= s'.clock && s.boot == s'.boot && s.epoch == s'.epoch && s.slots <= s'.slots
    && forall i :: 0 <= i < |s.slots| && s.slots[i].dev == d ==>
         && (i in s.persisted <==> i in s'.persisted)
         && (i in s.sent <==> i in s'.sent)
         && (i in s.refused <==> i in s'.refused)
  }

  lemma PhaseStable(s: State, s': State, c: Cycle, ph: Phase)
    requires Undisturbed(s, s', c.dev) && PhaseOk(s, c, ph)
    ensures PhaseOk(s', c, ph)
  {
  }

  lemma WorkersStable(s: State, s': State)
    requires WorkersOk(s) && s.clock <= s'.clock
    requires forall w :: w in s'.workers ==> w in s.workers && s'.workers[w] == s.workers[w] && Undisturbed(s, s', s.workers[w].cycle.dev)
    ensures WorkersOk(s')
  {
    forall w | w in s'.workers
      ensures s'.workers[w].cycle.dev in s'.objs && PhaseOk(s', s'.workers[w].cycle, s'.workers[w].phase)
    {
      PhaseStable(s, s', s.workers[w].cycle, s.workers[w].phase);
    }
  }

  /** A step of worker w that leaves it in order and the others undisturbed. */
  ghost predicate OwnMove(s: State, s': State, w: nat)
    requires w in s.workers
  {
    && s'.workers.Keys == s.workers.Keys && s.clock <= s'.clock
    && (forall v :: v in s.workers && v != w ==> s'.workers[v] == s.workers[v] && Undisturbed(s, s', s.workers[v].cycle.dev))
    && var c, c' := s.workers[w].cycle, s'.workers[w].cycle;
    && c' == c.(seen := c'.seen)
    && c.dev in s'.objs && PhaseOk(s', c', s'.workers[w].phase)
  }

  lemma OthersStable(s: State, s': State, w: nat)
    requires WorkersOk(s) && w in s.workers && OwnMove(s, s', w)
    ensures WorkersOk(s')
  {
    forall v | v in s'.workers && v != w
      ensures s'.workers[v].cycle.dev in s'.objs && PhaseOk(s', s'.workers[v].cycle, s'.workers[v].phase)
    {
      PhaseStable(s, s', s.workers[v].cycle, s.workers[v].phase);
    }
  }

  /** No history is made, no attempt changes, and at most some workers leave. */
  ghost predicate Calm(s: State, s': State)
  {
    && s' == s.(clock := s'.clock, objs := s'.objs, workers := s'.workers, probes := s'.probes, acted := s'.acted)
    && s.clock <= s'.clock
    && (forall d :: d in s.objs ==> d in s'.objs && s'.objs[d].last == s.objs[d].last)
    && (forall w :: w in s'.workers ==> w in s.workers && s'.workers[w] == s.workers[w])
  }

  lemma HeldStable(s: State, s': State, i: nat)
    requires Calm(s, s') && i < |s.log| && s.log[i].Sent? && SendOk(s, i)
    ensures SendOk(s', i)
  {
  }

  lemma CurrentStable(s: State, s': State, i: nat)
    requires Calm(s, s') && i < |s.log| && s.log[i].Persist? && Current(s, i)
    ensures Current(s', i)
  {
  }

  lemma CalmSends(s: State, s': State)
    requires SendsOk(s) && Calm(s, s')
    ensures SendsOk(s')
  {
    forall i | 0 <= i < |s'.log| && s'.log[i].Sent? ensures SendOk(s', i) {
      HeldStable(s, s', i);
    }
  }

  lemma CalmRecords(s: State, s': State)
    requires RecordsOk(s) && Calm(s, s')
    ensures RecordsOk(s')
  {
    forall i | 0 <= i < |s'.log| && s'.log[i].Persist? && Newest(s'.log, i) ensures Current(s', i) {
      CurrentStable(s, s', i);
    }
    assert forall i, j :: 0 <= i < j < |s'.log| && Consecutive(s.log, i, j) ==> Became(s, s.log[j].prev, s.log[i]);
  }

  lemma CalmKept(s: State, s': State)
    requires Inv(s) && Calm(s, s') && FleetOk(s') && SetsOk(s')
    ensures Inv(s')
  {
    WorkersStable(s, s');
    CalmSends(s, s');
    CalmRecords(s, s');
  }

  /** A worker changes phase: it gives up no hold except on a refusal, and starts carrying nothing new. */
  ghost predicate PhaseMove(s: State, s': State, w: nat)
    requires w in s.workers
  {
    && s' == s.(workers := s'.workers, lastStart := s'.lastStart, slots := s'.slots, refused := s'.refused)
    && s.slots <= s'.slots && s.refused <= s'.refused
    && OwnMove(s, s', w)
    && var ph, ph' := s.workers[w].phase, s'.workers[w].phase;
    && (forall slot :: Holds(ph, slot) ==> Holds(ph', slot) || slot in s'.refused)
    && (Carries(ph') ==> Carries(ph) && ph.slot == ph'.slot)
  }

  lemma MoveSends(s: State, s': State, w: nat)
    requires SendsOk(s) && WorkersOk(s) && w in s.workers && PhaseMove(s, s', w)
    ensures SendsOk(s')
  {
    forall i | 0 <= i < |s'.log| && s'.log[i].Sent? ensures SendOk(s', i) {
      assert SendOk(s, i);
    }
    forall i, j | 0 <= i < j < |s'.log| ensures RpcOk(s'.log, s'.refused, i, j) {
      assert RpcOk(s.log, s.refused, i, j);
    }
  }

  lemma MoveRecords(s: State, s': State, w: nat)
    requires RecordsOk(s) && w in s.workers && PhaseMove(s, s', w)
    ensures RecordsOk(s')
  {
    forall i | 0 <= i < |s'.log| && s'.log[i].Persist? && Newest(s'.log, i) ensures Current(s', i) {
      assert Current(s, i);
    }
    assert forall i, j :: 0 <= i < j < |s'.log| && Consecutive(s.log, i, j) ==> Became(s, s.log[j].prev, s.log[i]);
  }

  lemma AdvanceMoves(s: State, w: nat, ph': Phase)
    requires WorkersOk(s) && w in s.workers && PhaseOk(s, s.workers[w].cycle, ph')
    requires forall slot :: Holds(s.workers[w].phase, slot) ==> Holds(ph', slot) || slot in s.refused
    requires Carries(ph') ==> Carries(s.workers[w].phase) && s.workers[w].phase.slot == ph'.slot
    ensures PhaseMove(s, Advance(s, w, ph'), w)
  {
    PhaseStable(s, Advance(s, w, ph'), s.workers[w].cycle, ph');
  }

  lemma MoveStore(s: State, s': State, w: nat)
    requires FleetOk(s) && RecallOk(s) && SetsOk(s) && w in s.workers && PhaseMove(s, s', w)
    ensures FleetOk(s') && RecallOk(s')
  {
  }

  lemma MoveKept(s: State, s': State, w: nat)
    requires Inv(s) && w in s.workers && PhaseMove(s, s', w) && SetsOk(s') && SlotsOk(s')
    ensures Inv(s')
  {
    MoveStore(s, s', w);
    OthersStable(s, s', w);
    MoveSends(s, s', w);
    MoveRecords(s, s', w);
  }

  // ----- steps that only pass time, write the store, or end a reconcile

  lemma TickKept(s: State, s': State, dt: nat)
    requires Inv(s) && TickStep(s, s', dt)
    ensures Inv(s')
  {
    CalmKept(s, s');
  }

  lemma CreateKept(s: State, s': State, d: Device, fw: string)
    requires Inv(s) && CreateStep(s, s', d, fw)
    ensures Inv(s')
  {
    CalmKept(s, s');
  }

  lemma ProbeReadKept(s: State, s': State, p: nat, d: Device)
    requires Inv(s) && ProbeReadStep(s, s', p, d)
    ensures Inv(s')
  {
    CalmKept(s, s');
  }

  lemma ProbeWriteKept(s: State, s': State, p: nat, fw: string)
    requires Inv(s) && ProbeWriteStep(s, s', p, fw)
    ensures Inv(s')
  {
    CalmKept(s, s');
  }

  lemma StaleWriteKept(s: State, s': State, p: nat)
    requires Inv(s) && StaleWriteStep(s, s', p)
    ensures Inv(s')
  {
    CalmKept(s, s');
  }

  lemma OtherPatchKept(s: State, s': State, d: Device)
    requires Inv(s) && OtherPatchStep(s, s', d)
    ensures Inv(s')
  {
    CalmKept(s, s');
  }

  lemma EndKept(s: State, s': State, w: nat)
    requires Inv(s) && EndStep(s, s', w)
    ensures Inv(s')
  {
    CalmKept(s, s');
  }

  lemma ActKept(s: State, s': State, slot: nat)
    requires Inv(s) && ActStep(s, s', slot)
    ensures Inv(s')
  {
    CalmKept(s, s');
  }

  lemma CrashKept(s: State, s': State)
    requires Inv(s) && CrashStep(s, s')
    ensures Inv(s')
  {
    forall i | 0 <= i < |s'.log| && s'.log[i].Sent? ensures SendOk(s', i) {
      assert SendOk(s, i);
    }
    forall i | 0 <= i < |s'.log| && s'.log[i].Persist? && Newest(s'.log, i) ensures Current(s', i) {
      assert Current(s, i);
    }
    assert forall i, j :: 0 <= i < j < |s'.log| && Consecutive(s.log, i, j) ==> Became(s, s.log[j].prev, s.log[i]);
  }

  // ----- steps that change one worker's phase

  lemma ListKept(s: State, s': State, w: nat, target: string, list: seq<Option<Attempt>>)
    requires Inv(s) && ListStep(s, s', w, target, list)
    ensures Inv(s')
  {
    assert PhaseOk(s, s.workers[w].cycle, s.workers[w].phase);
    AdvanceMoves(s, w, Listed(target, list));
    MoveKept(s, s', w);
  }

  lemma DeniedKept(s: State, s': State, w: nat)
    requires Inv(s) && DeniedStep(s, s', w)
    ensures Inv(s')
  {
    AdvanceMoves(s, w, After);
    MoveKept(s, s', w);
  }

  /** A granted claim is spaced from every earlier one. */
  lemma ClaimSpaced(s: State, w: nat)
    requires SlotsOk(s) && SetsOk(s) && RecallOk(s) && WorkersOk(s) && w in s.workers && s.workers[w].phase.Listed?
    requires FleetQuiet(s.lastStart, s.workers[w].phase.list, s.spacing, s.clock)
    ensures forall i :: 0 <= i < |s.slots| ==>
              Spaced(s.slots[i], Slot(s.epoch, s.clock, s.workers[w].cycle.dev), i in s.persisted, s.spacing)
  {
    var Worker(c, ph) := s.workers[w];
    assert PhaseOk(s, c, ph);
    forall i | 0 <= i < |s.slots|
      ensures Spaced(s.slots[i], Slot(s.epoch, s.clock, c.dev), i in s.persisted, s.spacing)
    {
      if s.slots[i].epoch < s.epoch && i in s.persisted {
        var d := s.slots[i].dev;
        assert Recalls(s.boot, s.slots[i]);
        var k :| 0 <= k < |ph.list| && ph.list[k].Some? && ph.list[k].value.time >= s.boot[d].last.value.time;
      }
    }
  }

  lemma ClaimSlots(s: State, s': State, w: nat)
    requires SlotsOk(s) && SetsOk(s) && RecallOk(s) && WorkersOk(s) && ClaimStep(s, s', w)
    ensures SlotsOk(s')
  {
    ClaimSpaced(s, w);
    forall i, j | 0 <= i < j < |s'.slots|
      ensures Spaced(s'.slots[i], s'.slots[j], i in s'.persisted, s'.spacing)
    {
      if j < |s.slots| {
        assert Spaced(s.slots[i], s.slots[j], i in s.persisted, s.spacing);
      }
    }
  }

  lemma ClaimMoves(s: State, s': State, w: nat)
    requires WorkersOk(s) && SetsOk(s) && ClaimStep(s, s', w)
    ensures PhaseMove(s, s', w)
  {
    assert PhaseOk(s, s.workers[w].cycle, s.workers[w].phase);
  }

  lemma ClaimKept(s: State, s': State, w: nat)
    requires Inv(s) && ClaimStep(s, s', w)
    ensures Inv(s')
  {
    ClaimSlots(s, s', w);
    ClaimMoves(s, s', w);
    MoveKept(s, s', w);
  }

  /** The stamped request is no older than its slot and follows the device's last one properly. */
  lemma StampFollows(last: Option<Attempt>, read: string, from: string, target: string, slotAt: nat, begun: nat, clock: nat)
    requires slotAt <= clock && begun <= clock
    requires last.Some? ==> Whole(last.value.time, clock)
    requires GatePassed(last, read, begun) && !AskedRecently(last, target, clock)
    ensures
      var want := Attempt(Persisted(clock), from, target, "", false);
      Whole(want.time, clock) && Persisted(slotAt) <= want.time && NotOlder(last, Some(want)) && Follows(last, want, read)
  {
    PersistedBounds(clock);
    PersistedMonotone(slotAt, clock);
    if last.Some? {
      PersistedMonotone(last.value.time, clock);
      if UPDATE_SETTLE <= clock - last.value.time {
        PersistedMonotone(last.value.time + UPDATE_SETTLE, clock);
      }
    }
  }

  lemma StampMoves(s: State, s': State, w: nat, from: string)
    requires WorkersOk(s) && SetsOk(s) && SlotsOk(s) && StampStep(s, s', w, from)
    ensures PhaseMove(s, s', w)
  {
    var Worker(c, ph) := s.workers[w];
    assert PhaseOk(s, c, ph);
    StampFollows(c.last, c.firmware, from, ph.target, s.slots[ph.slot].at, c.begun, s.clock);
    AdvanceMoves(s, w, s'.workers[w].phase);
  }

  lemma StampKept(s: State, s': State, w: nat, from: string)
    requires Inv(s) && StampStep(s, s', w, from)
    ensures Inv(s')
  {
    StampMoves(s, s', w, from);
    MoveKept(s, s', w);
  }

  lemma RecordedKept(s: State, s': State, w: nat, acked: bool)
    requires Inv(s) && RecordedStep(s, s', w, acked)
    ensures Inv(s')
  {
    assert PhaseOk(s, s.workers[w].cycle, s.workers[w].phase);
    AdvanceMoves(s, w, Recorded(s.workers[w].phase, acked));
    MoveKept(s, s', w);
  }

  lemma ReceivePhase(s: State, s': State, w: nat, answer: Answer, error: string)
    requires WorkersOk(s) && SetsOk(s) && ReceiveStep(s, s', w, answer, error)
    ensures PhaseOk(s', s'.workers[w].cycle, s'.workers[w].phase) && SetsOk(s')
  {
    assert PhaseOk(s, s.workers[w].cycle, s.workers[w].phase);
  }

  lemma ReceiveUndisturbs(s: State, s': State, w: nat, answer: Answer, error: string, v: nat)
    requires WorkersOk(s) && ReceiveStep(s, s', w, answer, error) && v in s.workers && v != w
    ensures Undisturbed(s, s', s.workers[v].cycle.dev)
  {
    assert PhaseOk(s, s.workers[w].cycle, s.workers[w].phase);
  }

  lemma ReceiveMoves(s: State, s': State, w: nat, answer: Answer, error: string)
    requires WorkersOk(s) && SetsOk(s) && ReceiveStep(s, s', w, answer, error)
    ensures PhaseMove(s, s', w) && SetsOk(s')
  {
    ReceivePhase(s, s', w, answer, error);
    forall v | v in s.workers && v != w ensures Undisturbed(s, s', s.workers[v].cycle.dev) {
      ReceiveUndisturbs(s, s', w, answer, error, v);
    }
  }

  lemma ReceiveKept(s: State, s': State, w: nat, answer: Answer, error: string)
    requires Inv(s) && ReceiveStep(s, s', w, answer, error)
    ensures Inv(s')
  {
    ReceiveMoves(s, s', w, answer, error);
    MoveKept(s, s', w);
  }

  // ----- the growing log

  lemma LiftedGrows(log: seq<Event>, e: Event, i: nat, j: nat)
    requires i < j <= |log| && log[i].Sent? && Lifted(log, i, j)
    ensures Lifted(log + [e], i, j) && Lifted(log + [e], i, |log| + 1)
  {
    var k :| i < k < j && log[k].Begun? && log[k].dev == log[i].dev
      && (log[k].firmware != log[i].request.from || UPDATE_SETTLE <= log[k].at - log[i].request.time);
    assert (log + [e])[k] == log[k];
  }

  /** An event that is no RPC, or an RPC past every hold, keeps the order of sends and RPCs. */
  lemma RpcGrows(log: seq<Event>, e: Event, refused: set<nat>)
    requires forall i, j :: 0 <= i < j < |log| ==> RpcOk(log, refused, i, j)
    requires e.IsRpc() ==> forall i :: 0 <= i < |log| && log[i].Sent? && log[i].dev == e.dev ==> log[i].slot in refused || Lifted(log, i, |log|)
    ensures forall i, j :: 0 <= i < j < |log + [e]| ==> RpcOk(log + [e], refused, i, j)
  {
    forall i, j | 0 <= i < j < |log + [e]|
      ensures RpcOk(log + [e], refused, i, j)
    {
      if log[i].Sent? && j < |log| {
        assert RpcOk(log, refused, i, j);
        if Lifted(log, i, j) {
          LiftedGrows(log, e, i, j);
        }
      } else if log[i].Sent? && e.IsRpc() && e.dev == log[i].dev && log[i].slot !in refused {
        LiftedGrows(log, e, i, |log|);
      }
    }
  }

  lemma NewestGrows(log: seq<Event>, e: Event, i: nat)
    requires i < |log| && log[i].Persist? && Newest(log + [e], i)
    ensures Newest(log, i) && (e.Persist? ==> e.dev != log[i].dev)
  {
    assert forall j :: 0 <= j < |log| ==> (log + [e])[j] == log[j];
    assert (log + [e])[|log|] == e;
  }

  lemma ConsecutiveGrows(log: seq<Event>, e: Event, i: nat, j: nat)
    requires i < j <= |log| && Consecutive(log + [e], i, j)
    ensures j < |log| ==> Consecutive(log, i, j)
    ensures j == |log| ==> e.Persist? && log[i].Persist? && log[i].dev == e.dev && Newest(log, i)
  {
    assert forall k :: 0 <= k < |log| ==> (log + [e])[k] == log[k];
  }

  /** Records survive an event: those still newest stay current, and a new one follows the newest. */
  lemma RecordsGrow(s: State, s': State, e: Event)
    requires RecordsOk(s) && s'.log == s.log + [e] && s.persisted <= s'.persisted && s'.refused == s.refused
    requires forall i :: 0 <= i < |s.log| && s.log[i].Persist? && Current(s, i) && (e.Persist? ==> e.dev != s.log[i].dev) ==> Current(s', i)
    requires e.Persist? ==>
      && e.slot in s'.persisted && Follows(e.prev, e.request, e.read) && Current(s', |s.log|)
      && e.dev in s.objs && e.prev == s.objs[e.dev].last
    ensures RecordsOk(s')
  {
    forall i | 0 <= i < |s'.log| && s'.log[i].Persist? && Newest(s'.log, i) ensures Current(s', i) {
      if i < |s.log| {
        NewestGrows(s.log, e, i);
      }
    }
    forall i, j | 0 <= i < j < |s'.log| && Consecutive(s'.log, i, j) ensures Became(s', s'.log[j].prev, s'.log[i]) {
      ConsecutiveGrows(s.log, e, i, j);
      assert j == |s.log| ==> Current(s, i);
      assert j < |s.log| ==> Became(s, s.log[j].prev, s.log[i]);
    }
  }

  // ----- steps that write the log

  /** A worker free to talk to the device is past every hold on it. */
  lemma FreeWorkerLifted(s: State, w: nat)
    requires SendsOk(s) && w in s.workers
    requires s.workers[w].phase.Working? || s.workers[w].phase.After? || s.workers[w].phase.Ready?
    ensures forall i :: 0 <= i < |s.log| && s.log[i].Sent? && s.log[i].dev == s.workers[w].cycle.dev ==>
              s.log[i].slot in s.refused || Lifted(s.log, i, |s.log|)
  {
    forall i | 0 <= i < |s.log| && s.log[i].Sent? && s.log[i].dev == s.workers[w].cycle.dev
      ensures s.log[i].slot in s.refused || Lifted(s.log, i, |s.log|)
    {
      assert SendOk(s, i);
    }
  }

  lemma TouchSends(s: State, s': State, w: nat)
    requires SendsOk(s) && TouchStep(s, s', w)
    ensures SendsOk(s')
  {
    var e := Touched(s.workers[w].cycle.dev, s.clock);
    FreeWorkerLifted(s, w);
    RpcGrows(s.log, e, s.refused);
    forall i | 0 <= i < |s'.log| && s'.log[i].Sent? ensures SendOk(s', i) {
      assert SendOk(s, i);
      if Lifted(s.log, i, |s.log|) {
        LiftedGrows(s.log, e, i, |s.log|);
      }
    }
  }

  lemma TouchKept(s: State, s': State, w: nat)
    requires Inv(s) && TouchStep(s, s', w)
    ensures Inv(s')
  {
    WorkersStable(s, s');
    TouchSends(s, s', w);
    RecordsGrow(s, s', Touched(s.workers[w].cycle.dev, s.clock));
  }

  /** A device being held when its next reconcile begins: that reconcile found the hold lifted. */
  lemma BeginLifts(s: State, s': State, w: nat, d: Device, fw: string, i: nat)
    requires BeginStep(s, s', w, d, fw) && i < |s.log| && s.log[i].Sent? && s.log[i].dev == d
    requires Held(s, d, s.log[i].slot, s.log[i].request)
    ensures Lifted(s'.log, i, |s'.log|)
  {
    assert s'.log[|s.log|] == Begun(d, s.clock, fw);
    assert s'.log[i] == s.log[i];
  }

  lemma BeginSends(s: State, s': State, w: nat, d: Device, fw: string)
    requires SendsOk(s) && BeginStep(s, s', w, d, fw)
    ensures SendsOk(s')
  {
    var e := Begun(d, s.clock, fw);
    RpcGrows(s.log, e, s.refused);
    forall i | 0 <= i < |s'.log| && s'.log[i].Sent? ensures SendOk(s', i) {
      assert SendOk(s, i);
      if Lifted(s.log, i, |s.log|) {
        LiftedGrows(s.log, e, i, |s.log|);
      } else if s.log[i].dev == d && s.log[i].slot !in s.refused {
        BeginLifts(s, s', w, d, fw, i);
      }
    }
  }

  lemma BeginWorkers(s: State, s': State, w: nat, d: Device, fw: string)
    requires WorkersOk(s) && FleetOk(s) && BeginStep(s, s', w, d, fw)
    ensures WorkersOk(s')
  {
    forall v | v in s.workers
      ensures PhaseOk(s', s.workers[v].cycle, s.workers[v].phase) && s.workers[v].cycle.dev != d
    {
      PhaseStable(s, s', s.workers[v].cycle, s.workers[v].phase);
    }
    assert PhaseOk(s', s'.workers[w].cycle, Working);
  }

  lemma BeginKept(s: State, s': State, w: nat, d: Device, fw: string)
    requires Inv(s) && BeginStep(s, s', w, d, fw)
    ensures Inv(s')
  {
    BeginWorkers(s, s', w, d, fw);
    BeginSends(s, s', w, d, fw);
    RecordsGrow(s, s', Begun(d, s.clock, fw));
  }

  lemma SendWorkers(s: State, s': State, w: nat)
    requires WorkersOk(s) && SetsOk(s) && SendStep(s, s', w)
    ensures WorkersOk(s') && SetsOk(s')
  {
    SendPhase(s, s', w);
    forall v | v in s.workers && v != w ensures Undisturbed(s, s', s.workers[v].cycle.dev) {
      SendUndisturbs(s, s', w, v);
    }
    OthersStable(s, s', w);
  }

  lemma SendPhase(s: State, s': State, w: nat)
    requires WorkersOk(s) && SetsOk(s) && SendStep(s, s', w)
    ensures s'.workers[w].cycle.dev in s'.objs && PhaseOk(s', s'.workers[w].cycle, s'.workers[w].phase) && SetsOk(s')
  {
    assert PhaseOk(s, s.workers[w].cycle, s.workers[w].phase);
  }

  lemma SendUndisturbs(s: State, s': State, w: nat, v: nat)
    requires WorkersOk(s) && SendStep(s, s', w) && v in s.workers && v != w
    ensures Undisturbed(s, s', s.workers[v].cycle.dev)
  {
    assert PhaseOk(s, s.workers[w].cycle, s.workers[w].phase);
  }

  /** The new send holds its device from the start, and owns a slot no send had before. */
  lemma SendStarts(s: State, s': State, w: nat)
    requires SendsOk(s) && WorkersOk(s) && SetsOk(s) && SlotsOk(s) && SendStep(s, s', w)
    ensures SendOk(s', |s.log|)
    ensures forall i :: 0 <= i < |s.log| && s.log[i].Sent? ==> s.log[i].slot != s'.log[|s.log|].slot
  {
    var Worker(c, ph) := s.workers[w];
    assert PhaseOk(s, c, ph);
    assert s'.log[|s.log|] == Sent(c.dev, s.clock, ph.slot, ph.want);
    assert Held(s', c.dev, ph.slot, ph.want);
    forall i | 0 <= i < |s.log| && s.log[i].Sent? ensures s.log[i].slot != ph.slot {
      assert SendOk(s, i);
    }
  }

  lemma SendSends(s: State, s': State, w: nat)
    requires SendsOk(s) && WorkersOk(s) && SetsOk(s) && SlotsOk(s) && SendStep(s, s', w)
    ensures SendsOk(s')
  {
    var Worker(c, ph) := s.workers[w];
    var e := Sent(c.dev, s.clock, ph.slot, ph.want);
    SendStarts(s, s', w);
    FreeWorkerLifted(s, w);
    RpcGrows(s.log, e, s.refused);
    forall i | 0 <= i < |s'.log| && s'.log[i].Sent? ensures SendOk(s', i) {
      if i < |s.log| {
        assert SendOk(s, i);
        if Lifted(s.log, i, |s.log|) {
          LiftedGrows(s.log, e, i, |s.log|);
        }
      }
    }
  }

  lemma SendKept(s: State, s': State, w: nat)
    requires Inv(s) && SendStep(s, s', w)
    ensures Inv(s')
  {
    var Worker(c, ph) := s.workers[w];
    SendWorkers(s, s', w);
    SendSends(s, s', w);
    RecordsGrow(s, s', Sent(c.dev, s.clock, ph.slot, ph.want));
  }

  // ----- recording an attempt

  /** A recording stores its own request and never a refusal the device did not give. */
  lemma PatchStores(s: State, w: nat, base: Option<Attempt>)
    requires WorkersOk(s) && w in s.workers && s.workers[w].phase.Recording? && base in s.workers[w].cycle.seen
    ensures
      var Worker(c, ph) := s.workers[w];
      var stored := Patched(s.objs[c.dev].last, base, ph.want);
      && (!ph.sent ==> stored == ph.want)
      && VersionOf(Some(stored), ph.want)
      && NotOlder(s.objs[c.dev].last, Some(stored))
  {
    var Worker(c, ph) := s.workers[w];
    assert PhaseOk(s, c, ph);
    PatchedFromCurrent(c.last, ph.want);
    PatchedFromCurrent(Some(ph.want), ph.want);
  }

  lemma PatchPhase(s: State, s': State, w: nat, base: Option<Attempt>)
    requires WorkersOk(s) && SetsOk(s) && PatchStep(s, s', w, base)
    ensures PhaseOk(s', s'.workers[w].cycle, s'.workers[w].phase) && SetsOk(s')
  {
    assert PhaseOk(s, s.workers[w].cycle, s.workers[w].phase);
    PatchStores(s, w, base);
  }

  lemma PatchUndisturbs(s: State, s': State, w: nat, base: Option<Attempt>, v: nat)
    requires WorkersOk(s) && PatchStep(s, s', w, base) && v in s.workers && v != w
    ensures Undisturbed(s, s', s.workers[v].cycle.dev)
  {
    assert PhaseOk(s, s.workers[w].cycle, s.workers[w].phase);
  }

  lemma PatchWorkers(s: State, s': State, w: nat, base: Option<Attempt>)
    requires WorkersOk(s) && SetsOk(s) && PatchStep(s, s', w, base)
    ensures WorkersOk(s') && SetsOk(s')
  {
    PatchPhase(s, s', w, base);
    forall v | v in s.workers && v != w ensures Undisturbed(s, s', s.workers[v].cycle.dev) {
      PatchUndisturbs(s, s', w, base, v);
    }
    OthersStable(s, s', w);
  }

  lemma PatchStoreOk(s: State, s': State, w: nat, base: Option<Attempt>)
    requires FleetOk(s) && RecallOk(s) && WorkersOk(s) && PatchStep(s, s', w, base)
    ensures FleetOk(s') && RecallOk(s')
  {
    assert PhaseOk(s, s.workers[w].cycle, s.workers[w].phase);
    PatchStores(s, w, base);
  }

  /** Persisting a slot of the running process takes nothing from any spacing. */
  lemma PatchSlots(s: State, s': State, w: nat, base: Option<Attempt>)
    requires SlotsOk(s) && WorkersOk(s) && PatchStep(s, s', w, base)
    ensures SlotsOk(s')
  {
    assert PhaseOk(s, s.workers[w].cycle, s.workers[w].phase);
    forall i, j | 0 <= i < j < |s.slots|
      ensures Spaced(s.slots[i], s.slots[j], i in s'.persisted, s.spacing)
    {
      assert Spaced(s.slots[i], s.slots[j], i in s.persisted, s.spacing);
    }
  }

  /** A hold outlives the recording of its own answer, and every recording on another device. */
  lemma PatchHeld(s: State, s': State, w: nat, base: Option<Attempt>, d: Device, slot: nat, request: Attempt)
    requires WorkersOk(s) && PatchStep(s, s', w, base) && Held(s, d, slot, request) && slot !in s.refused
    ensures Held(s', d, slot, request)
  {
    assert PhaseOk(s, s.workers[w].cycle, s.workers[w].phase);
    PatchStores(s, w, base);
  }

  lemma PatchSends(s: State, s': State, w: nat, base: Option<Attempt>)
    requires SendsOk(s) && WorkersOk(s) && PatchStep(s, s', w, base)
    ensures SendsOk(s')
  {
    if s'.log != s.log {
      RpcGrows(s.log, s'.log[|s.log|], s.refused);
    }
    forall i | 0 <= i < |s'.log| && s'.log[i].Sent? ensures SendOk(s', i) {
      assert SendOk(s, i);
      if Lifted(s.log, i, |s.log|) {
        if s'.log != s.log {
          LiftedGrows(s.log, s'.log[|s.log|], i, |s.log|);
        }
      } else if s.log[i].slot !in s.refused {
        PatchHeld(s, s', w, base, s.log[i].dev, s.log[i].slot, s.log[i].request);
      }
    }
  }

  /** A patch of the request already on record, or on another device, keeps a record current. */
  lemma PatchCurrent(s: State, s': State, w: nat, base: Option<Attempt>, i: nat)
    requires WorkersOk(s) && PatchStep(s, s', w, base)
    requires i < |s.log| && s.log[i].Persist? && Current(s, i)
    requires s.workers[w].cycle.dev == s.log[i].dev ==> Carries(s.workers[w].phase)
    ensures Current(s', i)
  {
    assert PhaseOk(s, s.workers[w].cycle, s.workers[w].phase);
    PatchStores(s, w, base);
  }

  /** The record that a first patch adds: current at once, and following what it replaced. */
  lemma RecordStarts(s: State, s': State, w: nat, base: Option<Attempt>)
    requires WorkersOk(s) && PatchStep(s, s', w, base) && !Carries(s.workers[w].phase)
    ensures
      var Worker(c, ph) := s.workers[w];
      && s'.log == s.log + [Persist(c.dev, ph.slot, ph.want, s.objs[c.dev].last, c.firmware)] && ph.slot in s'.persisted
      && Follows(s.objs[c.dev].last, ph.want, c.firmware) && Current(s', |s.log|)
  {
    assert PhaseOk(s, s.workers[w].cycle, s.workers[w].phase);
    PatchStores(s, w, base);
  }

  lemma PatchRecords(s: State, s': State, w: nat, base: Option<Attempt>)
    requires RecordsOk(s) && WorkersOk(s) && PatchStep(s, s', w, base)
    ensures RecordsOk(s')
  {
    var Worker(c, ph) := s.workers[w];
    forall i | 0 <= i < |s.log| && s.log[i].Persist? && Current(s, i) && (c.dev == s.log[i].dev ==> Carries(ph))
      ensures Current(s', i)
    {
      PatchCurrent(s, s', w, base, i);
    }
    if !Carries(ph) {
      RecordStarts(s, s', w, base);
      RecordsGrow(s, s', Persist(c.dev, ph.slot, ph.want, s.objs[c.dev].last, c.firmware));
    } else {
      assert forall i, j :: 0 <= i < j < |s.log| && Consecutive(s.log, i, j) ==> Became(s, s.log[j].prev, s.log[i]);
    }
  }

  lemma PatchKept(s: State, s': State, w: nat, base: Option<Attempt>)
    requires Inv(s) && PatchStep(s, s', w, base)
    ensures Inv(s')
  {
    PatchWorkers(s, s', w, base);
    PatchStoreOk(s, s', w, base);
    PatchSlots(s, s', w, base);
    PatchSends(s, s', w, base);
    PatchRecords(s, s', w, base);
  }

  // ----- every run

  lemma StoreStepKept(s: State, s': State, step: Step)
    requires Inv(s) && !MovesOn(step) && !IsLogged(step) && StoreNext(s, s', step)
    ensures Inv(s')
  {
    if step.Tick? {
      TickKept(s, s', step.dt);
    } else if step.Crash? {
      CrashKept(s, s');
    } else if step.End? {
      EndKept(s, s', step.w);
    } else if step.Act? {
      ActKept(s, s', step.slot);
    } else {
      ObjectStepKept(s, s', step);
    }
  }

  /** Steps of discovery and of other writers. */
  lemma ObjectStepKept(s: State, s': State, step: Step)
    requires step.Create? || step.ProbeRead? || step.ProbeWrite? || step.StaleWrite? || step.OtherPatch?
    requires Inv(s) && StoreNext(s, s', step)
    ensures Inv(s')
  {
    if step.Create? {
      CreateKept(s, s', step.d, step.fw);
    } else if step.ProbeRead? {
      ProbeReadKept(s, s', step.p, step.d);
    } else if step.ProbeWrite? {
      ProbeWriteKept(s, s', step.p, step.fw);
    } else if step.StaleWrite? {
      StaleWriteKept(s, s', step.p);
    } else {
      OtherPatchKept(s, s', step.d);
    }
  }

  lemma MoveStepKept(s: State, s': State, step: Step)
    requires Inv(s) && MovesOn(step) && MoveNext(s, s', step)
    ensures Inv(s')
  {
    if step.List? {
      ListKept(s, s', step.w, step.target, step.list);
    } else if step.Claim? {
      ClaimKept(s, s', step.w);
    } else if step.Denied? {
      DeniedKept(s, s', step.w);
    } else {
      RecordStepKept(s, s', step);
    }
  }

  /** Steps that make out an attempt, end recording it, or hear of it. */
  lemma RecordStepKept(s: State, s': State, step: Step)
    requires step.Stamp? || step.RecordEnd? || step.Receive?
    requires Inv(s) && MoveNext(s, s', step)
    ensures Inv(s')
  {
    if step.Stamp? {
      StampKept(s, s', step.w, step.from);
    } else if step.RecordEnd? {
      RecordedKept(s, s', step.w, step.acked);
    } else {
      ReceiveKept(s, s', step.w, step.answer, step.error);
    }
  }

  lemma LogStepKept(s: State, s': State, step: Step)
    requires Inv(s) && IsLogged(step) && LogNext(s, s', step)
    ensures Inv(s')
  {
    if step.Begin? {
      BeginKept(s, s', step.w, step.d, step.fw);
    } else if step.Touch? {
      TouchKept(s, s', step.w);
    } else if step.Patch? {
      PatchKept(s, s', step.w, step.base);
    } else {
      SendKept(s, s', step.w);
    }
  }

  lemma InvKept(s: State, s': State, step: Step)
    requires Inv(s) && Next(s, s', step)
    ensures Inv(s')
  {
    if MovesOn(step) {
      MoveStepKept(s, s', step);
    } else if IsLogged(step) {
      LogStepKept(s, s', step);
    } else {
      StoreStepKept(s, s', step);
    }
  }

  ghost predicate Steps(s: State, s': State)
  {
    exists step :: Next(s, s', step)
  }

  /** The state after position i is reached by a step. */
  ghost predicate StepsAt(run: seq<State>, i: nat)
    requires i + 1 < |run|
  {
    Steps(run[i], run[i + 1])
  }

  ghost predicate Run(run: seq<State>)
  {
    |run| > 0 && Init(run[0]) && forall i :: 0 <= i < |run| - 1 ==> StepsAt(run, i)
  }

  lemma {:induction false} RunsKeepInv(run: seq<State>, n: nat)
    requires Run(run) && n < |run|
    ensures Inv(run[n])
  {
    if n > 0 {
      RunsKeepInv(run, n - 1);
      assert StepsAt(run, n - 1);
      StepsKeepInv(run[n - 1], run[n]);
    }
  }

  lemma StepsKeepInv(s: State, s': State)
    requires Inv(s) && Steps(s, s')
    ensures Inv(s')
  {
    var step :| Next(s, s', step);
    InvKept(s, s', step);
  }

  /**
   In every run each Shelly.Update owns its own claimed slot, granted to its device no
   later than the send; two slots of one process are at least the spacing apart; and a
   slot claimed after a restart is more than the spacing less one second after the slot
   behind any earlier send.
   */
  lemma SendsAreSpaced(run: seq<State>, n: nat)
    requires Run(run) && n < |run|
    ensures
      var s := run[n];
      && (forall i :: 0 <= i < |s.log| && s.log[i].Sent? ==>
            s.log[i].slot < |s.slots| && s.slots[s.log[i].slot].dev == s.log[i].dev && s.slots[s.log[i].slot].at <= s.log[i].at)
      && (forall i, j :: 0 <= i < j < |s.log| && s.log[i].Sent? && s.log[j].Sent? ==> s.log[i].slot != s.log[j].slot)
      && (forall a, b :: 0 <= a < b < |s.slots| && s.slots[a].epoch == s.slots[b].epoch ==> s.spacing <= s.slots[b].at - s.slots[a].at)
      && (forall a, b :: 0 <= a < b < |s.slots| && a in s.sent ==> s.spacing - SECOND < s.slots[b].at - s.slots[a].at)
  {
    RunsKeepInv(run, n);
    var s := run[n];
    forall i | 0 <= i < |s.log| && s.log[i].Sent?
      ensures s.log[i].slot < |s.slots| && s.slots[s.log[i].slot].dev == s.log[i].dev && s.slots[s.log[i].slot].at <= s.log[i].at
    {
      assert SendOk(s, i);
    }
    forall a, b | 0 <= a < b < |s.slots| && a in s.sent
      ensures s.spacing - SECOND < s.slots[b].at - s.slots[a].at
    {
      assert Spaced(s.slots[a], s.slots[b], a in s.persisted, s.spacing);
      PersistedBounds(s.slots[a].at);
    }
  }

  /**
   In every run, once a Shelly.Update the device was not heard to refuse has been sent,
   no RPC goes to that device until a reconcile has begun that read a firmware other
   than the one the update was asked from, or began after the settle time.
   */
  lemma UpdatingDevicesAreLeftAlone(run: seq<State>, n: nat, i: nat, j: nat)
    requires Run(run) && n < |run| && i < j < |run[n].log|
    requires run[n].log[i].Sent? && run[n].log[j].IsRpc() && run[n].log[i].dev == run[n].log[j].dev
    ensures run[n].log[i].slot in run[n].refused || Lifted(run[n].log, i, j)
    ensures run[n].log[i].slot in run[n].acted ==> Lifted(run[n].log, i, j)
  {
    RunsKeepInv(run, n);
    assert RpcOk(run[n].log, run[n].refused, i, j);
  }

  /**
   In every run, of two consecutive requests to one device whose first is on record as
   not refused, the second is at least the settle time later, or was made by a reconcile
   that read another firmware and asked for another version; and a first on record as refused was never acted on.
   */
  lemma RepeatedRequests(run: seq<State>, n: nat, i: nat, j: nat)
    requires Run(run) && n < |run| && i < j < |run[n].log| && Consecutive(run[n].log, i, j)
    ensures
      var a, b := run[n].log[i], run[n].log[j];
      && b.prev.Some? && SameRequest(b.prev.value, a.request)
      && (if b.prev.value.refused then a.slot !in run[n].acted
          else
            || UPDATE_SETTLE <= b.request.time - a.request.time
            || (b.read != a.request.from && b.request.target != a.request.target))
  {
    RunsKeepInv(run, n);
    assert Became(run[n], run[n].log[j].prev, run[n].log[i]);
  }

  /**
   In every state of every run a device's status.lastFirmwareUpdate is what became of
   the newest record made for it: no interleaving of discovery's conditional writes,
   the controller's patches and restarts brings back an older one or drops it, and a
   refusal it shows is one the device gave.
   */
  lemma NewestRecordSurvives(run: seq<State>, n: nat, i: nat)
    requires Run(run) && n < |run| && i < |run[n].log| && run[n].log[i].Persist? && Newest(run[n].log, i)
    ensures
      var s, e := run[n], run[n].log[i];
      && e.dev in s.objs && s.objs[e.dev].last.Some?
      && SameRequest(s.objs[e.dev].last.value, e.request)
      && (s.objs[e.dev].last.value.refused ==> e.slot !in s.acted)
  {
    RunsKeepInv(run, n);
    assert Current(run[n], i);
  }

  /** Every device is still there, its attempt no older than before. */
  ghost predicate NoneOlder(before: map<Device, Obj>, after: map<Device, Obj>)
  {
    forall d :: d in before ==> d in after && NotOlder(before[d].last, after[d].last)
  }

  lemma PatchNoneOlder(s: State, s': State, w: nat, base: Option<Attempt>)
    requires WorkersOk(s) && PatchStep(s, s', w, base)
    ensures NoneOlder(s.objs, s'.objs)
  {
    PatchStores(s, w, base);
  }

  predicate WritesStore(step: Step)
  {
    step.Create? || step.ProbeWrite? || step.StaleWrite? || step.OtherPatch?
  }

  lemma StoreNoneOlder(s: State, s': State, step: Step)
    requires FleetOk(s) && Next(s, s', step) && WritesStore(step)
    ensures NoneOlder(s.objs, s'.objs)
  {
  }

  lemma OtherStepsKeepStore(s: State, s': State, step: Step)
    requires Next(s, s', step) && !step.Patch? && !WritesStore(step)
    ensures s'.objs == s.objs
  {
  }

  lemma StepNoneOlder(s: State, s': State, step: Step)
    requires FleetOk(s) && WorkersOk(s) && Next(s, s', step)
    ensures NoneOlder(s.objs, s'.objs)
  {
    if step.Patch? {
      PatchNoneOlder(s, s', step.w, step.base);
    } else if WritesStore(step) {
      StoreNoneOlder(s, s', step);
    } else {
      OtherStepsKeepStore(s, s', step);
    }
  }

  lemma StepsNoneOlder(s: State, s': State)
    requires Inv(s) && Steps(s, s')
    ensures NoneOlder(s.objs, s'.objs)
  {
    var step :| Next(s, s', step);
    StepNoneOlder(s, s', step);
  }

  lemma NextNoneOlder(run: seq<State>, n: nat)
    requires Run(run) && n + 1 < |run|
    ensures NoneOlder(run[n].objs, run[n + 1].objs)
  {
    RunsKeepInv(run, n);
    assert StepsAt(run, n);
    StepsNoneOlder(run[n], run[n + 1]);
  }

  lemma NoneOlderTransitive(a: map<Device, Obj>, b: map<Device, Obj>, c: map<Device, Obj>)
    requires NoneOlder(a, b) && NoneOlder(b, c)
    ensures NoneOlder(a, c)
  {
  }

  lemma {:induction false} RunNoneOlder(run: seq<State>, m: nat, n: nat)
    requires Run(run) && m <= n < |run|
    ensures NoneOlder(run[m].objs, run[n].objs)
  {
    if m < n {
      RunNoneOlder(run, m, n - 1);
      NextNoneOlder(run, n - 1);
      NoneOlderTransitive(run[m].objs, run[n - 1].objs, run[n].objs);
    }
  }

  /** Some device's persisted attempt is at least this new. */
  ghost predicate FleetNewest(s: State, t: nat)
  {
    exists d :: d in s.objs && s.objs[d].last.Some? && t <= s.objs[d].last.value.time
  }

  /** Along every run no device's persisted attempt time goes back, nor does the fleet's newest. */
  lemma FleetNewestNeverDecreases(run: seq<State>, m: nat, n: nat, t: nat)
    requires Run(run) && m <= n < |run|
    ensures NoneOlder(run[m].objs, run[n].objs)
    ensures FleetNewest(run[m], t) ==> FleetNewest(run[n], t)
  {
    RunNoneOlder(run, m, n);
  }

  /**
   The gate lifts: a reconcile of a device nobody works on can begin exactly when the last
   attempt is absent, refused, from another firmware, or a settle time old.
   */
  lemma FreeDeviceCanBegin(s: State, w: nat, d: Device, fw: string)
    requires w !in s.workers && d in s.objs && !Busy(s, d) && fw in s.objs[d].published
    ensures
      var last := s.objs[d].last;
      (exists s' :: Next(s, s', Begin(w, d, fw))) <==>
      last.None? || last.value.refused || last.value.from != fw || 20 * 60 * SECOND <= s.clock - last.value.time
  {
    var last := s.objs[d].last;
    InFlightExactly(fw, last, s.clock);
    if UpdateInFlight(fw, last, s.clock) == 0 {
      var s' := s.(workers := s.workers[w := Worker(Cycle(d, s.clock, fw, last, {last}), Working)], log := s.log + [Begun(d, s.clock, fw)]);
      assert Next(s, s', Begin(w, d, fw));
    }
  }

  /**
   And it lifts at once when the install is seen: however young the attempt, discovery can
   publish another firmware, and a reconcile that reads it can begin.
   */
  lemma NewFirmwareLifts(s: State, p: nat, w: nat, d: Device, fw: string)
    requires w !in s.workers && d in s.objs && !Busy(s, d) && s.objs[d].last.Some? && s.objs[d].last.value.from != fw
    ensures exists s1, s2, s3 ::
              && Next(s, s1, ProbeRead(p, d)) && Next(s1, s2, ProbeWrite(p, fw)) && Next(s2, s3, Begin(w, d, fw))
              && s2.objs[d].firmware == fw && s2.objs[d].last == s.objs[d].last
  {
    var o := s.objs[d];
    var s1 := s.(probes := s.probes[p := Snapshot(d, o)]);
    var s2 := s1.(objs := s1.objs[d := Obj(o.version + 1, fw, o.last, o.published + {fw})]);
    assert Next(s, s1, ProbeRead(p, d)) && Next(s1, s2, ProbeWrite(p, fw));
    FreeDeviceCanBegin(s2, w, d, fw);
    var s3 :| Next(s2, s3, Begin(w, d, fw));
  }

  /** Whatever copy discovery holds, it can try to write from it. */
  lemma DiscoveryCanWrite(s: State, p: nat, fw: string)
    requires p in s.probes && s.probes[p].dev in s.objs
    ensures (exists s' :: Next(s, s', StaleWrite(p))) && (exists s' :: Next(s, s', ProbeWrite(p, fw)))
  {
    var Snapshot(d, o) := s.probes[p];
    var current := s.objs[d].version == o.version;
    var s1 := if !current then s else s.(objs := s.objs[d := Obj(o.version + 1, o.firmware, o.last, s.objs[d].published)]);
    var s2 := if !current then s else s.(objs := s.objs[d := Obj(o.version + 1, fw, o.last, s.objs[d].published + {fw})]);
    assert Next(s, s1, StaleWrite(p)) && Next(s, s2, ProbeWrite(p, fw));
  }

  /** Any other patch of the object makes the copies discovery holds of it old: their writes change nothing. */
  lemma OtherPatchesConflict(s: State, s1: State, s2: State, step: Step, p: nat)
    requires p in s.probes && s.probes[p].dev in s.objs && s.probes[p].obj == s.objs[s.probes[p].dev]
    requires Next(s, s1, OtherPatch(s.probes[p].dev))
    requires (step.StaleWrite? || step.ProbeWrite?) && step.p == p && Next(s1, s2, step)
    ensures s2 == s1 && s1.objs[s.probes[p].dev].last == s.objs[s.probes[p].dev].last
  {
  }

  /** A discovery write from a copy somebody has written over since changes nothing; from a current one it keeps the attempt. */
  lemma DiscoveryKeepsAttempts(s: State, s': State, step: Step, p: nat)
    requires p in s.probes && (step.StaleWrite? || step.ProbeWrite?) && step.p == p && Next(s, s', step)
    ensures
      var Snapshot(d, o) := s.probes[p];
      && d in s.objs && d in s'.objs
      && (o.version != s.objs[d].version ==> s' == s)
      && (o.version == s.objs[d].version ==>
          s'.objs[d].version == o.version + 1 && s'.objs[d].last == o.last && s'.objs[d].firmware == if step.ProbeWrite? then step.fw else o.firmware)
      && forall e :: e in s.objs && e != d ==> e in s'.objs && s'.objs[e] == s.objs[e]
  {
  }
}
