/**
 The reconcile cycle as it runs (internal/controller/shellydevice_controller.go,
 internal/controller/apply.go, internal/controller/firmwareupdate.go): the object as
 stored and as held, the device behind its calls, and every call made, in order.
 */
module Reconciler {
  import opened Wrappers
  import opened Times
  import opened Json
  import opened Strings
  import opened Findings
  import opened Order
  import opened Sorting
  import opened Drift
  import opened Desired
  import opened Fixpoint
  import opened Window
  import opened FirmwareUpdate
  import opened Cycle
  import opened Trace
  import Jobs
  import Schedule
  import ScheduleApply
  import Firmware
  import Sections
  import Client
  import UpdateProtocol
  import opened UpdateSteps

  /** What a reconcile reports: the condition, the generation it is about and since when its verdict stands, the drifted sections, the profile. */
  datatype Report = Report(condition: Option<Condition>, observed: int, since: nat, drifted: seq<string>, matched: string)

  /** The report with a new condition; since when it stands changes only with its verdict. */
  function Renewed(r: Report, c: Condition, generation: int, now: nat, drifted: seq<string>, matched: string): Report
  {
    var stands := r.condition.Some? && VerdictOf(r.condition.value.reason) == VerdictOf(c.reason);
    Report(Some(c), generation, if stands then r.since else Persisted(now), drifted, matched)
  }

  /** In sync, drifted, or not known: what two reasons must share for their condition to be the same one still. */
  predicate SameVerdict(a: Reason, b: Reason)
  {
    (a.InSync? <==> b.InSync?) && (a in {Drifted, ApplyFailed, NotConverging} <==> b in {Drifted, ApplyFailed, NotConverging})
  }

  /** The condition is new from this second on exactly if there was none or its verdict has changed. */
  lemma SinceMarksChanges(r: Report, c: Condition, generation: int, now: nat, drifted: seq<string>, matched: string)
    ensures
      var r' := Renewed(r, c, generation, now, drifted, matched);
      && r'.condition == Some(c) && r'.observed == generation && r'.drifted == drifted && r'.matched == matched
      && (r.condition.Some? && SameVerdict(r.condition.value.reason, c.reason) ==> r'.since == r.since)
      && (r.condition.None? || !SameVerdict(r.condition.value.reason, c.reason) ==> r'.since <= now < r'.since + SECOND && r'.since % SECOND == 0)
  {
    PersistedBounds(now);
  }

  /** The part of the object's status a reconcile reads or writes. */
  datatype Status = Status(
    online: bool, firmware: string, authEnabled: bool, availableFirmware: string, restartRequired: bool,
    last: Option<Attempt>, report: Report)

  function PatchedLast(server: Option<Attempt>, base: Option<Attempt>, want: Option<Attempt>): Option<Attempt>
  {
    if base == want then server else if want.None? then None else Some(Patched(server, base, want.value))
  }

  /** The stored status after the merge patch that leads from base to want (section 2 of RFC 7396). */
  function PatchedStatus(server: Status, base: Status, want: Status): Status
  {
    Status(
      PatchField(server.online, base.online, want.online),
      PatchField(server.firmware, base.firmware, want.firmware),
      PatchField(server.authEnabled, base.authEnabled, want.authEnabled),
      PatchField(server.availableFirmware, base.availableFirmware, want.availableFirmware),
      PatchField(server.restartRequired, base.restartRequired, want.restartRequired),
      PatchedLast(server.last, base.last, want.last),
      PatchedReport(server.report, base.report, want.report))
  }

  /** The condition goes as one entry of a list, which a merge patch replaces as a whole. */
  function PatchedReport(server: Report, base: Report, want: Report): Report
  {
    var kept := base.condition == want.condition && base.observed == want.observed && base.since == want.since;
    var entry := if kept then server else want;
    Report(entry.condition, entry.observed, entry.since,
           PatchField(server.drifted, base.drifted, want.drifted), PatchField(server.matched, base.matched, want.matched))
  }

  /** A patch from what the server holds stores what is wanted, and one from a base to itself changes nothing. */
  lemma StatusPatches(server: Status, base: Status, want: Status)
    ensures PatchedStatus(base, base, want) == want && PatchedStatus(server, base, base) == server
  {
    if want.last.Some? {
      PatchedFromCurrent(base.last, want.last.value);
    }
  }

  lemma PatchOfAttempt(server: Status, base: Status, attempt: Attempt)
    requires base.last == server.last
    ensures PatchedStatus(server, base, base.(last := Some(attempt))) == server.(last := Some(attempt))
  {
    PatchedFromCurrent(base.last, attempt);
  }

  lemma PatchOfReport(server: Status, base: Status, report: Report)
    requires base.report == server.report
    ensures PatchedStatus(server, base, base.(report := report)) == server.(report := report)
  {
  }

  lemma PatchOfSysStatus(server: Status, base: Status, available: string, restart: bool)
    requires base.availableFirmware == server.availableFirmware && base.restartRequired == server.restartRequired
    ensures PatchedStatus(server, base, base.(availableFirmware := available, restartRequired := restart))
         == server.(availableFirmware := available, restartRequired := restart)
  {
  }

  lemma PatchOfRestart(server: Status, base: Status)
    ensures PatchedStatus(server, base, base.(restartRequired := false))
         == server.(restartRequired := base.restartRequired == false && server.restartRequired)
  {
  }

  /** The whole order written, nothing else altered, and the findings of the look that followed. */
  ghost predicate Passed(inp: Inputs, before: View, after: View, authEnabled: bool, findings: seq<Finding>, applied: seq<string>, r: Pass)
    requires r.Rechecked?
  {
    && applied == WriteOrder(findings) && SameOutside(Reached(SectionsOf(findings)), before, after)
    && r.authNow == AuthAfter(inp.profile, findings, authEnabled)
    && Observed(inp.profile, inp.name, after, r.authNow, r.left)
  }

  /** A pass after which nothing just written is still drifted. */
  ghost predicate Through(inp: Inputs, s: Snapshot, v: View, findings: seq<Finding>, out: Outcome)
    requires out.Enforced?
  {
    && out.found == findings && SectionsOf(findings) !! SectionsOf(out.left)
    && !inp.IsDamped(s.condition, findings) && SameOutside(Reached(SectionsOf(findings)), s.view, v)
    && Observed(inp.profile, inp.name, v, AuthAfter(inp.profile, findings, s.authEnabled), out.left)
  }

  lemma PassThrough(inp: Inputs, s: Snapshot, v: View, findings: seq<Finding>, applied: seq<string>, r: Pass)
    requires !inp.IsDamped(s.condition, findings) && r.Rechecked? && SectionsOf(findings) !! SectionsOf(r.left)
    requires Passed(inp, s.view, v, s.authEnabled, findings, applied, r)
    ensures Through(inp, s, v, findings, Enforced(findings, r.left))
  {
  }

  lemma FailedStep(inp: Inputs, s: Snapshot, s': Snapshot)
    requires s'.authEnabled == s.authEnabled
    ensures CycleStep(inp, s, s', Failed)
  {
  }

  lemma ThroughStep(inp: Inputs, s: Snapshot, s': Snapshot, out: Outcome)
    requires out.Enforced? && inp.profile.enforce && out.found != [] && s.Finds(inp, out.found) && Through(inp, s, s'.view, out.found, out)
    requires s'.authEnabled == s.authEnabled && s'.condition == Some(inp.Outlook(out.left)) && s'.drifted == SortedSeq(ByName, SectionsOf(out.left))
    ensures CycleStep(inp, s, s', out)
  {
  }

  /** A pass after which something just written is still drifted ends the cycle not converging. */
  lemma StuckStep(inp: Inputs, s: Snapshot, s': Snapshot, findings: seq<Finding>, applied: seq<string>, r: Pass)
    requires findings != [] && inp.profile.enforce && s.Finds(inp, findings) && !inp.IsDamped(s.condition, findings)
    requires r.Rechecked? && Passed(inp, s.view, s'.view, s.authEnabled, findings, applied, r) && s'.authEnabled == s.authEnabled
    requires !(SectionsOf(findings) !! SectionsOf(r.left)) && s'.condition == Some(Condition(NotConverging, inp.Message(r.left)))
    requires s'.drifted == SortedSeq(ByName, SectionsOf(r.left))
    ensures CycleStep(inp, s, s', Enforced(findings, r.left))
  {
  }

  /** One cycle's Sys.GetStatus; the rest is not to be acted on unless current. */
  datatype SysRead = SysRead(restartRequired: bool, available: string, current: bool)

  /** What is known before the device is called: nothing, why it is not to be called, or what to bring it to. */
  datatype Resolution =
    | ListFailed
    | Unresolved(reason: Reason, message: string, matched: string)
    | Resolved(inp: Inputs, password: string, pw: WifiPasswords)

  /** The local minute of the day in each window's zone, when it is asked about. */
  datatype Minutes = Minutes(update: nat, reboot: nat)

  /** A request to the API server while an attempt is recorded: a patch of the status, or a read of the object. */
  datatype Try = Stored(ok: bool) | Reread(ok: bool)

  /** A patch that is not acknowledged is tried once more, on the object as it then stands if that can be read. */
  predicate TriedTwice(tried: seq<Try>, ok: bool)
  {
    || (ok && tried == [Stored(true)])
    || (!ok && tried == [Stored(false), Reread(false)])
    || tried == [Stored(false), Reread(true), Stored(ok)]
  }

  /** What came of a pass over the drifted sections. */
  datatype Pass =
    | ApplyError
    | RecheckError
    | Rechecked(left: seq<Finding>, authNow: bool)

  class Reconciler {
    // The device.
    var config: Config
    var jobs: seq<Jobs.Job>
    // Its object: what the API server stores, and what this reconcile holds.
    var stored: Status
    var dev: Status
    // The calls of this reconcile, and the time.
    var trace: seq<Event>
    var clock: nat
    // Nothing went wrong in this reconcile: every patch and call was answered, everything shown could be read and every section addressed.
    ghost var smooth: bool
    // The fleet-wide update slot of this process.
    const slot: UpdateSlot
    const spacing: int
    // The device's key, and the generation of its object.
    const name: string
    const generation: int

    constructor (d: View, s: Status, now: nat, sl: UpdateSlot, sp: int, key: string, gen: int)
      ensures TheView() == d && stored == dev == s && trace == [] && clock == now && slot == sl && spacing == sp && name == key && generation == gen
    {
      config, jobs, stored, dev, trace, clock, slot, spacing, name, generation := d.config, d.jobs, s, s, [], now, sl, sp, key, gen;
      smooth := true;
    }

    function TheView(): View
      reads this`config, this`jobs
    {
      View(config, jobs)
    }

    function Now(): Snapshot
      reads this`config, this`jobs, this`stored
    {
      Snapshot(TheView(), stored.authEnabled, stored.report.condition, stored.report.drifted)
    }

    /** Why the stored condition is what it is. */
    function Reason(): Option<Reason>
      reads this`stored
    {
      if stored.report.condition.Some? then Some(stored.report.condition.value.reason) else None
    }

    /** The cycle was not cut short: nothing to enforce, or a pass that went through. */
    predicate Unhindered(out: Outcome)
      reads this`stored
    {
      out.Reported? || (out.Enforced? && Reason() != Some(NotConverging))
    }

    /** More calls perhaps, and the stored attempt as it was. */
    twostate predicate Onward()
      reads this`trace, this`stored
    {
      && |old(trace)| <= |trace| && (|old(trace)| > 1 ==> trace[1] == old(trace)[1]) && (|old(trace)| > 2 ==> trace[2] == old(trace)[2]) && (|old(trace)| > 3 ==> trace[3] == old(trace)[3])
      && stored.last == old(stored.last)
    }

    /** In the update protocol, what has been done has led to where this reconcile is, in this phase. */
    ghost predicate At(d: Deed, ph: Option<UpdateProtocol.Phase>)
      reads this`clock, this`stored, slot
    {
      && d.Valid() && d.first.dev == name && d.first.spacing == EffectiveSpacing(spacing)
      && d.now == d.first.(clock := clock, start := slot.lastUpdateStart, last := stored.last, ph := ph, acted := d.now.acted, over := d.now.over, calls := d.now.calls)
    }

    /** Where a reconcile stands in the update protocol before it begins. */
    ghost function Fresh(worker: nat, fleet: Option<seq<Option<Attempt>>>, number: nat): Local
      reads this`clock, this`stored, slot
    {
      Local(name, worker, EffectiveSpacing(spacing), stored.firmware, fleet, number, clock, slot.lastUpdateStart, stored.last, None, false, false, 0)
    }

    /** The held object has the fields a cycle's last patch is about as they are stored. */
    predicate InStep()
      reads this`stored, this`dev
    {
      && dev.report == stored.report
      && dev.authEnabled == stored.authEnabled && dev.firmware == stored.firmware
    }

    method Elapse()
      modifies this`clock
      ensures clock >= old(clock)
    {
      var dt: int := *;
      if dt > 0 {
        clock := clock + dt;
      }
    }

    // ----- the API server

    /** Status().Patch of the held object; an error may still have reached the server. */
    method Patch(base: Status) returns (ok: bool)
      modifies this`stored, this`dev, this`smooth
      ensures ok ==> stored == dev == PatchedStatus(old(stored), base, old(dev))
      ensures !ok ==> dev == old(dev) && stored in {old(stored), PatchedStatus(old(stored), base, old(dev))}
      ensures smooth <==> old(smooth) && ok
    {
      var arrived: bool := *;
      ok := *;
      if arrived || ok {
        stored := PatchedStatus(stored, base, dev);
      }
      if ok {
        dev := stored;
      } else {
        smooth := false;
      }
    }

    /** finish: the report, and nothing else, becomes what the cycle found. */
    method Finish(condition: Condition, findings: seq<Finding>, matched: string) returns (ok: bool)
      requires dev.report == stored.report
      modifies this`stored, this`dev, this`smooth
      ensures ok ==> stored.report == Renewed(old(stored.report), condition, generation, clock, SortedSeq(ByName, SectionsOf(findings)), matched)
      ensures stored == old(stored).(report := stored.report)
      ensures smooth <==> old(smooth) && ok
      ensures Onward()
    {
      var base := dev;
      var sections := Sections.Sections(findings);
      var report := Renewed(dev.report, condition, generation, clock, sections, matched);
      PatchOfReport(stored, base, report);
      dev := dev.(report := report);
      ok := Patch(base);
    }

    /** stampSysStatus: read the device's own status, and store what changed if that works. */
    method StampSysStatus(ghost ctx: Context) returns (sys: SysRead)
      requires Shape(ctx, trace) && ctx.start.Free() && trace == [ReadConfig(true)] && dev == stored
      modifies this`trace, this`stored, this`dev, this`smooth
      ensures Shape(ctx, trace) && |trace| == 2 && trace[0] == ReadConfig(true)
      ensures trace[1] == ReadStatus(sys.current, sys.restartRequired, sys.available)
      ensures dev.(restartRequired := false, availableFirmware := "") == stored.(restartRequired := false, availableFirmware := "")
      ensures dev.(restartRequired := false, availableFirmware := "") == old(dev).(restartRequired := false, availableFirmware := "")
      ensures (dev == stored && dev.availableFirmware == sys.available && dev.restartRequired == sys.restartRequired) || dev == old(dev)
      ensures smooth && sys.current ==> stored.availableFirmware == sys.available && stored.restartRequired == sys.restartRequired && dev == stored
      ensures !sys.current ==> stored == old(stored) && !sys.restartRequired && sys.available == ""
      ensures smooth ==> old(smooth)
    {
      var ok: bool := *;
      if !ok {
        sys := SysRead(false, "", false);
        ShapeGrows(ctx, trace, ReadStatus(false, false, ""));
        trace := trace + [ReadStatus(false, false, "")];
        return;
      }
      sys := *;
      sys := sys.(current := true);
      ShapeGrows(ctx, trace, ReadStatus(true, sys.restartRequired, sys.available));
      trace := trace + [ReadStatus(true, sys.restartRequired, sys.available)];
      if dev.availableFirmware == sys.available && dev.restartRequired == sys.restartRequired {
        return;
      }
      var base := dev;
      PatchOfSysStatus(stored, base, sys.available, sys.restartRequired);
      dev := dev.(availableFirmware := sys.available, restartRequired := sys.restartRequired);
      var patched := Patch(base);
      if !patched {
        dev := dev.(availableFirmware := base.availableFirmware, restartRequired := base.restartRequired);
      }
    }

    // ----- firmware updates

    /** The second try: the object as it now stands, with nothing but the attempt changed. */
    method RecordOnCurrent(attempt: Attempt) returns (ok: bool)
      modifies this`stored
      ensures stored.(last := None) == old(stored).(last := None) && (stored.last == old(stored.last) || stored.last == Some(attempt))
      ensures ok ==> stored.last == Some(attempt)
    {
      var arrived: bool := *;
      ok := *;
      if arrived || ok {
        PatchOfAttempt(stored, stored, attempt);
        stored := PatchedStatus(stored, stored, stored.(last := Some(attempt)));
      }
    }

    /** The first try: from the held object. */
    method RecordFromHeld(attempt: Attempt) returns (ok: bool)
      requires dev.last == stored.last && InStep()
      modifies this`stored, this`dev, this`smooth
      ensures stored.(last := None) == old(stored).(last := None) && (stored.last == old(stored.last) || stored.last == Some(attempt))
      ensures (ok ==> stored.last == Some(attempt)) && (!ok ==> !smooth) && Now() == old(Now())
      ensures InStep() && dev.firmware == old(dev.firmware) && dev.last == Some(attempt) && (smooth ==> old(smooth))
    {
      var base := dev;
      PatchOfAttempt(stored, base, attempt);
      dev := dev.(last := Some(attempt));
      ok := Patch(base);
    }

    /** recordUpdateAttempt: once from the held object, once more from a current one, or roll back. */
    method RecordUpdateAttempt(attempt: Attempt, ghost d: Deed, ghost number: nat, ghost sent: bool)
      returns (ok: bool, tried: seq<Try>, ghost d': Deed)
      requires dev.last == stored.last && InStep()
      requires At(d, Some(UpdateProtocol.Recording(attempt, number, false, sent)))
      modifies this`stored, this`dev, this`smooth
      ensures InStep() && Now() == old(Now()) && dev.firmware == old(dev.firmware)
      ensures ok ==> stored.last == dev.last == Some(attempt)
      ensures !ok ==> dev.last == old(dev.last) && stored.last in {old(dev.last), Some(attempt)}
      ensures TriedTwice(tried, ok)
      ensures (smooth ==> old(smooth)) && (!ok ==> !smooth)
      ensures At(d', Some(UpdateProtocol.Recorded(UpdateProtocol.Recording(attempt, number, false, sent), ok)))
      ensures d'.first == d.first && d'.now.calls == d.now.calls
    {
      var held := dev.last;
      ghost var written;
      ok, tried, d', written := RecordTwice(attempt, d, number, sent);
      if !ok {
        dev := dev.(last := held);
      }
      d' := Stops(d', attempt, number, written, sent, ok);
    }

    /** Both tries, the second if the first is not acknowledged. */
    method RecordTwice(attempt: Attempt, ghost d: Deed, ghost number: nat, ghost sent: bool)
      returns (ok: bool, tried: seq<Try>, ghost d': Deed, ghost written: bool)
      requires dev.last == stored.last && InStep()
      requires At(d, Some(UpdateProtocol.Recording(attempt, number, false, sent)))
      modifies this`stored, this`dev, this`smooth
      ensures InStep() && Now() == old(Now()) && dev.firmware == old(dev.firmware) && dev.last == Some(attempt) && (smooth ==> old(smooth)) && (!ok ==> !smooth)
      ensures (stored.last == old(stored.last) || stored.last == Some(attempt)) && (ok ==> stored.last == Some(attempt) && written)
      ensures TriedTwice(tried, ok)
      ensures At(d', Some(UpdateProtocol.Recording(attempt, number, written, sent))) && d'.first == d.first && d'.now.calls == d.now.calls
    {
      ok := RecordFromHeld(attempt);
      tried := [Stored(ok)];
      d', written := Patches(d, attempt, number, false, sent, stored.last);
      if !ok {
        var again;
        ok, again, d', written := RecordAgain(attempt, d', number, written, sent);
        tried := tried + again;
      }
    }

    /** The second try, if the object can be read again. */
    method RecordAgain(attempt: Attempt, ghost d: Deed, ghost number: nat, ghost written: bool, ghost sent: bool)
      returns (ok: bool, tried: seq<Try>, ghost d': Deed, ghost written': bool)
      requires At(d, Some(UpdateProtocol.Recording(attempt, number, written, sent)))
      modifies this`stored
      ensures stored.(last := None) == old(stored).(last := None) && (stored.last == old(stored.last) || stored.last == Some(attempt))
      ensures ok ==> stored.last == Some(attempt) && written'
      ensures tried == if |tried| == 1 then [Reread(false)] else [Reread(true), Stored(ok)]
      ensures |tried| == 1 ==> !ok
      ensures At(d', Some(UpdateProtocol.Recording(attempt, number, written', sent))) && d'.first == d.first && d'.now.calls == d.now.calls
    {
      var got: bool := *;
      if !got {
        return false, [Reread(false)], d, written;
      }
      ok := RecordOnCurrent(attempt);
      tried := [Reread(true), Stored(ok)];
      d', written' := Patches(d, attempt, number, written, sent, stored.last);
    }

    /** What a cycle's trace and status say once an update was requested. */
    ghost predicate Requested(start: Option<nat>, last: Option<Attempt>)
      reads this`trace, this`clock, this`stored, this`smooth, slot
    {
      && |trace| == 4 && trace[1].ReadStatus? && trace[2].Noted? && trace[3].SendUpdate?
      && slot.lastUpdateStart.Some? && (start.Some? ==> EffectiveSpacing(spacing) <= slot.lastUpdateStart.value - start.value)
      && Persisted(slot.lastUpdateStart.value) <= trace[2].attempt.time
      && !AskedRecently(last, trace[1].available, clock)
      && stored.last.Some? && SameRequest(stored.last.value, trace[2].attempt)
      && (stored.last.value.refused ==> trace[3].refused) && (smooth && trace[3].refused ==> stored.last.value.refused)
    }

    /**
     updateIfAvailable: nothing, or the attempt stored and then the request sent, in a
     claimed slot. A request that was not refused is the last call.
     */
    method UpdateIfAvailable(ghost ctx: Context, p: Profile, sys: SysRead, fleet: Option<seq<Option<Attempt>>>, at: Minutes, ghost d: Deed)
      returns (sent: bool, ghost d': Deed, ghost ph: UpdateProtocol.Phase)
      requires Shape(ctx, trace) && ctx.start.Free() && p == ctx.inp.profile
      requires trace == [ReadConfig(true), ReadStatus(sys.current, sys.restartRequired, sys.available)]
      requires dev.firmware == ctx.start.firmware && dev.last == stored.last && InStep()
      requires At(d, Some(UpdateProtocol.Working)) && d.first.firmware == dev.firmware && d.first.fleet == fleet
      modifies this`trace, this`stored, this`dev, this`clock, slot, this`smooth
      ensures Shape(ctx, trace) && Now() == old(Now()) && InStep()
      ensures NoWrites(trace) && (!sent ==> NoFinal(trace)) && |trace| >= 2 && trace[0] == old(trace)[0] && trace[1] == old(trace)[1]
      ensures trace == old(trace) ==> !sent
      ensures trace != old(trace) ==> Requested(old(slot.lastUpdateStart), old(dev.last)) && sent == !trace[3].refused && UpdateDue(p, sys, at)
      ensures smooth ==> UpdatedIfDue(p, at, fleet, old(stored.last), old(slot.lastUpdateStart), EffectiveSpacing(spacing), old(clock), trace)
      ensures smooth ==> old(smooth)
      ensures At(d', Some(ph)) && d'.first == d.first && (if sent then ph.Quiet? else ph.Working? || ph.After?)
      ensures d'.now.calls == d.now.calls + CallCount(trace) - 2
    {
      sent, d', ph := false, d, UpdateProtocol.Working;
      if !p.updateWhenAvailable || !p.enforce {
        return;
      }
      if !sys.current || sys.available == "" {
        return;
      }
      if p.updateWindow.None? {
        return;
      }
      if WithinWindow(at.update, p.updateWindow) != Ok(true) {
        return;
      }
      var attempt, refused;
      sent, attempt, refused, d', ph := TryUpdate(sys.available, fleet, d);
      if !sent {
        return;
      }
      RequestShape(ctx, trace, attempt, at.update, refused);
      trace := trace + [Noted(attempt), SendUpdate(at.update, refused)];
      sent := !refused;
    }

    /** Inside the window: the same version not asked for recently, a slot claimed, the attempt stored; then the call. */
    method TryUpdate(available: string, fleet: Option<seq<Option<Attempt>>>, ghost d: Deed)
      returns (tried: bool, attempt: Attempt, refused: bool, ghost d': Deed, ghost ph: UpdateProtocol.Phase)
      requires dev.last == stored.last && InStep()
      requires At(d, Some(UpdateProtocol.Working)) && d.first.firmware == dev.firmware && d.first.fleet == fleet
      modifies this`stored, this`dev, this`clock, slot, this`smooth
      ensures Now() == old(Now()) && InStep()
      ensures tried ==> !AskedRecently(old(dev.last), available, clock)
      ensures tried ==> attempt.from == old(dev.firmware) && attempt.target == available && !attempt.refused
      ensures tried ==> slot.lastUpdateStart.Some? && Persisted(slot.lastUpdateStart.value) <= attempt.time
      ensures tried && old(slot.lastUpdateStart).Some? ==> EffectiveSpacing(spacing) <= slot.lastUpdateStart.value - old(slot.lastUpdateStart).value
      ensures tried ==> stored.last.Some? && SameRequest(stored.last.value, attempt) && (stored.last.value.refused ==> refused)
      ensures tried && smooth && refused ==> stored.last.value.refused
      ensures !tried && smooth && fleet.Some? ==>
                Asked(old(dev.last), available, old(clock)) || Crowded(old(slot.lastUpdateStart), fleet.value, EffectiveSpacing(spacing), old(clock))
      ensures smooth ==> old(smooth)
      ensures At(d', Some(ph)) && d'.first == d.first && (if tried && !refused then ph.Quiet? else ph.Working? || ph.After?)
      ensures d'.now.calls == d.now.calls + if tried then 1 else 0
    {
      tried, attempt, refused, ph := false, NO_ATTEMPT, false, UpdateProtocol.Working;
      d' := ElapseIn(d, Some(ph));
      if AskedRecently(dev.last, available, clock) {
        return;
      }
      var claimed;
      claimed, d', ph := Claim(available, fleet, d');
      if !claimed {
        return;
      }
      d' := ElapseIn(d', Some(ph));
      PersistedMonotone(slot.lastUpdateStart.value, clock);
      tried, attempt, refused, d', ph := RecordAndSend(available, d', ph);
    }

    /** In a claimed slot: the attempt made out and stored, and only then the call. */
    method RecordAndSend(available: string, ghost d: Deed, ghost ph: UpdateProtocol.Phase)
      returns (tried: bool, attempt: Attempt, refused: bool, ghost d': Deed, ghost ph': UpdateProtocol.Phase)
      requires dev.last == stored.last && InStep()
      requires At(d, Some(ph)) && d.first.firmware == dev.firmware && ph.Claimed? && ph.target == available
      modifies this`stored, this`dev, this`smooth
      ensures Now() == old(Now()) && InStep()
      ensures attempt == Attempt(Persisted(clock), old(dev.firmware), available, "", false)
      ensures tried ==> stored.last.Some? && SameRequest(stored.last.value, attempt) && (stored.last.value.refused ==> refused)
      ensures tried && smooth && refused ==> stored.last.value.refused
      ensures (smooth ==> old(smooth)) && (!tried ==> !smooth)
      ensures At(d', Some(ph')) && d'.first == d.first && (if tried && !refused then ph'.Quiet? else ph'.After?)
      ensures d'.now.calls == d.now.calls + if tried then 1 else 0
    {
      attempt, refused := Attempt(Persisted(clock), dev.firmware, available, "", false), false;
      d' := Stamps(d, available, ph.slot);
      var tries;
      tried, tries, d' := RecordUpdateAttempt(attempt, d', ph.slot, false);
      ph' := UpdateProtocol.After;
      if tried {
        refused, d', ph' := SendAndRecord(attempt, d', ph.slot);
      }
    }

    method ElapseIn(ghost d: Deed, ghost ph: Option<UpdateProtocol.Phase>) returns (ghost d': Deed)
      requires At(d, ph)
      modifies this`clock
      ensures clock >= old(clock) && At(d', ph) && d'.first == d.first && d'.now.calls == d.now.calls
    {
      Elapse();
      d' := Ticks(d, clock);
    }

    /** The call itself, and its answer recorded unless the device accepted. */
    method SendAndRecord(attempt: Attempt, ghost d: Deed, ghost number: nat)
      returns (refused: bool, ghost d': Deed, ghost ph: UpdateProtocol.Phase)
      requires dev.last == stored.last == Some(attempt) && !attempt.refused && InStep()
      requires At(d, Some(UpdateProtocol.Ready(attempt, number)))
      modifies this`stored, this`dev, this`smooth
      ensures InStep() && Now() == old(Now())
      ensures stored.last.Some? && SameRequest(stored.last.value, attempt) && (stored.last.value.refused ==> refused)
      ensures smooth && refused ==> stored.last.value.refused
      ensures smooth ==> old(smooth)
      ensures At(d', Some(ph)) && d'.first == d.first && ph == if refused then UpdateProtocol.After else UpdateProtocol.Quiet(number)
      ensures d'.now.calls == d.now.calls + 1
    {
      var hasPassword: bool := *;
      var answer, _, _, _, acts := Client.Call(hasPassword);
      refused := Client.IsRefusal(answer);
      var error: string := *;
      d' := Exchange(d, attempt, number, acts, Client.AnswerOf(answer), error);
      ph := if refused then UpdateProtocol.After else UpdateProtocol.Quiet(number);
      if answer.NoError? {
        return;
      }
      var _, _, after := RecordUpdateAttempt(attempt.(error := error, refused := refused), d', number, true);
      d' := after;
    }

    /** claimUpdateSlot, with the fleet as listed; a failed listing claims nothing. */
    method Claim(target: string, fleet: Option<seq<Option<Attempt>>>, ghost d: Deed)
      returns (ok: bool, ghost d': Deed, ghost ph: UpdateProtocol.Phase)
      requires At(d, Some(UpdateProtocol.Working)) && d.first.fleet == fleet && !AskedRecently(stored.last, target, clock)
      modifies this`clock, slot
      ensures clock >= old(clock)
      ensures ok ==> slot.lastUpdateStart.Some? && slot.lastUpdateStart.value <= clock
      ensures ok && old(slot.lastUpdateStart).Some? ==> EffectiveSpacing(spacing) <= slot.lastUpdateStart.value - old(slot.lastUpdateStart).value
      ensures !ok ==> slot.lastUpdateStart == old(slot.lastUpdateStart)
      ensures !ok && fleet.Some? ==> Crowded(old(slot.lastUpdateStart), fleet.value, EffectiveSpacing(spacing), old(clock))
      ensures At(d', Some(ph)) && d'.first == d.first && d'.now.calls == d.now.calls
      ensures if ok then ph.Claimed? && ph.target == target else ph.Working? || ph.After?
    {
      d', ph := d, UpdateProtocol.Working;
      if fleet.None? {
        return false, d', ph;
      }
      ph := UpdateProtocol.Listed(target, fleet.value);
      d' := Lists(d, target, fleet.value);
      d' := ElapseIn(d', Some(ph));
      ok := slot.ClaimUpdateSlot(fleet.value, spacing, clock);
      ph := if ok then UpdateProtocol.Claimed(target, d.first.number) else UpdateProtocol.After;
      d' := Claims(d', target, fleet.value, ok);
    }

    // ----- reboots

    /** rebootIfRequested: a reboot as the last call exactly when one is due, the device having asked for it in this very cycle. */
    method RebootIfRequested(ghost ctx: Context, p: Profile, sys: SysRead, at: Minutes)
      requires Running(ctx, sys) && p == ctx.inp.profile && dev.report == stored.report
      modifies this`trace, this`stored, this`dev, this`smooth
      ensures Shape(ctx, trace) && Now() == old(Now()) && (NoWrites(old(trace)) ==> NoWrites(trace))
      ensures if RebootDue(p, sys, at) then |trace| == |old(trace)| + 1 && trace[|old(trace)|].Reboot? else trace == old(trace)
      ensures RebootedIfDue(p, at, trace) && dev.report == stored.report
      ensures trace != old(trace) && trace[|old(trace)|].ok && smooth && old(dev.restartRequired) ==> !stored.restartRequired
      ensures smooth ==> old(smooth)
      ensures Onward()
    {
      if !p.rebootWhenRequired || !p.enforce {
        return;
      }
      if !sys.current || !sys.restartRequired {
        return;
      }
      if WithinWindow(at.reboot, p.rebootWindow) != Ok(true) {
        return;
      }
      var ok: bool := *;
      ShapeGrows(ctx, trace, Reboot(at.reboot, ok));
      trace := trace + [Reboot(at.reboot, ok)];
      if ok {
        var _ := ClearRestart();
      }
    }

    /** The restart flag is taken as served, until the device says otherwise. */
    method ClearRestart() returns (ok: bool)
      requires dev.report == stored.report
      modifies this`stored, this`dev, this`smooth
      ensures Now() == old(Now()) && dev.report == stored.report
      ensures if ok then dev == stored && (old(dev.restartRequired) ==> !stored.restartRequired) else dev == old(dev)
      ensures smooth <==> old(smooth) && ok
      ensures Onward()
    {
      var base := dev;
      PatchOfRestart(stored, base);
      dev := dev.(restartRequired := false);
      ok := Patch(base);
      if !ok {
        dev := dev.(restartRequired := base.restartRequired);
      }
    }

    // ----- looking at the device

    /** In the middle of a cycle: the config and the status were read, and the device may still be called. */
    ghost predicate Running(ctx: Context, sys: SysRead)
      reads this`trace
    {
      && Shape(ctx, trace) && ctx.start.Free() && NoFinal(trace)
      && |trace| >= 2 && trace[0] == ReadConfig(true) && trace[1] == ReadStatus(sys.current, sys.restartRequired, sys.available)
    }

    /** One more call that leaves the cycle running. */
    method Emit(ghost ctx: Context, ghost sys: SysRead, e: Event)
      requires Running(ctx, sys) && !e.Final() && !e.Noted? && Allowed(ctx, trace, e)
      modifies this`trace
      ensures Running(ctx, sys) && trace == old(trace) + [e]
      ensures Onward()
    {
      ShapeGrows(ctx, trace, e);
      trace := trace + [e];
    }

    /** Schedule.List. */
    method ReadJobList(ghost ctx: Context, ghost sys: SysRead) returns (r: Option<seq<Jobs.Job>>)
      requires Running(ctx, sys)
      modifies this`trace, this`smooth
      ensures Running(ctx, sys) && (NoWrites(old(trace)) ==> NoWrites(trace))
      ensures r.Some? ==> r.value == jobs
      ensures smooth <==> old(smooth) && r.Some?
      ensures Onward()
    {
      var ok: bool := *;
      Emit(ctx, sys, ReadJobs(ok));
      smooth := smooth && ok;
      r := if ok then Some(jobs) else None;
    }

    /** The job-list findings, as they are appended. */
    method ListFindings(ghost ctx: Context, ghost sys: SysRead, p: Profile) returns (r: Option<seq<Finding>>)
      requires Running(ctx, sys)
      modifies this`trace, this`smooth
      ensures Running(ctx, sys) && (NoWrites(old(trace)) ==> NoWrites(trace))
      ensures r.Some? ==> OfJobs(p, jobs, r.value)
      ensures smooth <==> old(smooth) && r.Some?
      ensures Onward()
    {
      var findings: seq<Finding> := [];
      if p.firmware.Some? {
        var list := ReadJobList(ctx, sys);
        if list.None? {
          return None;
        }
        findings := Firmware.ListFirmwareFindings(p.firmware.value, list.value);
      }
      if p.schedules.Some? {
        var list := ReadJobList(ctx, sys);
        if list.None? {
          return None;
        }
        var more := ActionFindings(p.schedules, list.value);
        findings := findings + more;
      }
      r := Some(findings);
    }

    /** Render, Diff, and the auth, firmware and schedule findings appended. */
    method Evaluate(ghost ctx: Context, ghost sys: SysRead, inp: Inputs, actual: Config, authNow: bool)
      returns (r: Result<seq<Finding>, string>, desired: Config, ghost key: Option<string>)
      requires Running(ctx, sys) && actual == config
      modifies this`trace, this`smooth
      ensures Running(ctx, sys) && (NoWrites(old(trace)) ==> NoWrites(trace))
      ensures Compared(inp, config, key, desired) && (r.Ok? ==> Looked(inp, TheView(), authNow, key, r) && Managed(r.value, desired))
      ensures smooth <==> old(smooth) && r.Ok?
      ensures Onward()
    {
      r, desired, key := Compare(inp, actual);
      if r.Err? {
        smooth := false;
      } else {
        r := AppendFindings(ctx, sys, inp, authNow, r, key);
        if r.Ok? {
          OnlyManaged(inp, TheView(), authNow, key, r.value);
        }
      }
    }

    /** The auth, firmware and schedule findings after those of the configuration. */
    method AppendFindings(ghost ctx: Context, ghost sys: SysRead, inp: Inputs, authNow: bool, d: Result<seq<Finding>, string>, ghost key: Option<string>)
      returns (r: Result<seq<Finding>, string>)
      requires Running(ctx, sys) && d.Ok? && Diffed(inp, config, key, d)
      modifies this`trace, this`smooth
      ensures Running(ctx, sys) && (NoWrites(old(trace)) ==> NoWrites(trace))
      ensures r.Ok? ==> Looked(inp, TheView(), authNow, key, r)
      ensures smooth <==> old(smooth) && r.Ok?
      ensures Onward()
    {
      var more := ListFindings(ctx, sys, inp.profile);
      if more.None? {
        return Err("fetching schedule jobs");
      }
      InParts(inp, key, TheView(), authNow, d, more.value);
      r := Ok(WithAuth(inp.profile.auth, authNow, d.value) + more.value);
    }

    // ----- enforcement

    /**
     The calls that write one section. The device may take, change or ignore what it is
     sent, whether or not it answers, but it alters nothing but what is addressed.
     */
    method WriteSection(ghost ctx: Context, ghost sys: SysRead, s: string, payload: Option<Json>) returns (ok: bool)
      requires Running(ctx, sys) && ctx.inp.profile.enforce && MayWriteSection(ctx, trace, s, payload) && Target(s).Some?
      modifies this`trace, this`config, this`jobs, this`smooth
      ensures Running(ctx, sys) && trace == old(trace) + [Write(s, payload, ok)]
      ensures Answered(trace) == Answered(old(trace)) + if ok then [s] else []
      ensures SameOutside({Target(s).value}, old(TheView()), TheView())
      ensures smooth <==> old(smooth) && ok
      ensures Onward()
    {
      ok := EmitWrite(ctx, sys, s, payload);
      Alter(Target(s).value);
    }

    method EmitWrite(ghost ctx: Context, ghost sys: SysRead, s: string, payload: Option<Json>) returns (ok: bool)
      requires Running(ctx, sys) && ctx.inp.profile.enforce && MayWriteSection(ctx, trace, s, payload)
      modifies this`trace, this`smooth
      ensures Running(ctx, sys) && trace == old(trace) + [Write(s, payload, ok)]
      ensures Answered(trace) == Answered(old(trace)) + if ok then [s] else []
      ensures smooth <==> old(smooth) && ok
      ensures Onward()
    {
      ok := *;
      WriteAllowed(ctx, trace, s, payload, ok);
      AnsweredNext(trace, Write(s, payload, ok));
      Emit(ctx, sys, Write(s, payload, ok));
      smooth := smooth && ok;
    }

    /** What the device makes of a write. */
    method Alter(t: string)
      modifies this`config, this`jobs
      ensures SameOutside({t}, old(TheView()), TheView())
    {
      if t == Firmware.SECTION_FIRMWARE || t == SECTION_SCHEDULE {
        var after: seq<Jobs.Job> := *;
        var others := t == SECTION_SCHEDULE;
        if Jobs.Select(others, after) == Jobs.Select(others, jobs) {
          jobs := after;
        }
      } else if t != SECTION_AUTH {
        var after: Option<Json> := *;
        config := if after.Some? then config[t := after.value] else config - {t};
      }
    }

    /** The checks made before a section is written; auth also asks the device for its id. */
    method Prepare(ghost ctx: Context, ghost sys: SysRead, p: Profile, password: string, s: string, ghost sections: set<string>) returns (ok: bool)
      requires Running(ctx, sys) && WrittenIn(sections)
      modifies this`trace, this`smooth
      ensures Running(ctx, sys) && Answered(trace) == Answered(old(trace))
      ensures WrittenIn(sections)
      ensures smooth <==> old(smooth) && ok
      ensures ok ==> Target(s).Some? && (s == SECTION_AUTH ==> trace[|trace| - 1] == ReadId(true))
      ensures Onward()
    {
      ok := CanWrite(p, password, s);
      if ok && s == SECTION_AUTH {
        ok := *;
        AnsweredNext(trace, ReadId(ok));
        Emit(ctx, sys, ReadId(ok));
      }
      smooth := smooth && ok;
    }

    /** Every write so far is of one of these sections. */
    ghost predicate WrittenIn(sections: set<string>)
      reads this`trace
    {
      forall j :: 0 <= j < |trace| && trace[j].Write? ==> trace[j].section in sections
    }

    /**
     applyFindings: the drifted sections in their one order, up to the first failure, each
     with what was rendered for it.
     */
    method ApplyFindings(ghost ctx: Context, ghost sys: SysRead, p: Profile, desired: Config, findings: seq<Finding>, password: string, pw: WifiPasswords)
      returns (ok: bool, applied: seq<string>)
      requires Running(ctx, sys) && NoWrites(trace)
      requires ctx.inp.profile.enforce && p == ctx.inp.profile && pw == ctx.pw && IsRendered(ctx, desired) && Managed(findings, desired)
      modifies this`trace, this`config, this`jobs, this`smooth
      ensures Running(ctx, sys) && applied == Answered(trace)
      ensures applied <= WriteOrder(findings) && (ok ==> applied == WriteOrder(findings))
      ensures SameOutside(Reached(SectionsOf(findings)), old(TheView()), TheView())
      ensures smooth <==> old(smooth) && ok
      ensures Onward()
    {
      var order := Sections.EnforcementOrder(findings);
      SortedSeqAscends(ByRank, SectionsOf(findings));
      NothingWritten();
      NothingAnswered(trace);
      var done;
      ok, done := ApplyInOrder(ctx, sys, p, desired, order, password, pw, Reached(SectionsOf(findings)));
      applied := order[..done];
    }

    lemma NothingWritten()
      requires NoWrites(trace)
      ensures WrittenIn({})
    {
    }

    /** The loop over the order; `done` counts the sections written. */
    method ApplyInOrder(ghost ctx: Context, ghost sys: SysRead, p: Profile, desired: Config, order: seq<string>, password: string, pw: WifiPasswords,
                        ghost written: set<string>)
      returns (ok: bool, done: nat)
      requires Running(ctx, sys) && Ascending(ByRank, order) && WrittenIn({}) && Answered(trace) == []
      requires forall s :: s in order ==> (Target(s).Some? ==> Target(s).value in written) && (IsPseudo(s) || s in desired)
      requires ctx.inp.profile.enforce && p == ctx.inp.profile && pw == ctx.pw && IsRendered(ctx, desired)
      modifies this`trace, this`config, this`jobs, this`smooth
      ensures Running(ctx, sys) && done <= |order| && (ok ==> done == |order|) && Answered(trace) == order[..done]
      ensures SameOutside(written, old(TheView()), TheView())
      ensures smooth <==> old(smooth) && ok
      ensures Onward()
    {
      done, ok := 0, true;
      while ok && done < |order|
        invariant Running(ctx, sys) && done <= |order| && (ok ==> WrittenIn(Elements(order[..done]))) && Answered(trace) == order[..done]
        invariant SameOutside(written, old(TheView()), TheView()) && (smooth <==> old(smooth) && ok) && Onward()
        decreases |order| - done, ok
      {
        Snoc(order, done);
        NextInOrder(order, done);
        assert order[done] in order;
        ok := ApplySection(ctx, sys, p, desired, order[done], password, pw, Elements(order[..done]), written, old(TheView()));
        if ok {
          done := done + 1;
        }
      }
    }

    /** The next section of the order, all earlier ones written. */
    method ApplySection(ghost ctx: Context, ghost sys: SysRead, p: Profile, desired: Config, s: string, password: string, pw: WifiPasswords,
                        ghost earlier: set<string>, ghost written: set<string>, ghost start: View)
      returns (ok: bool)
      requires Running(ctx, sys) && WrittenIn(earlier) && forall x :: x in earlier ==> Before(ByRank, x, s)
      requires ctx.inp.profile.enforce && p == ctx.inp.profile && pw == ctx.pw && IsRendered(ctx, desired)
      requires SameOutside(written, start, TheView()) && (Target(s).Some? ==> Target(s).value in written) && (IsPseudo(s) || s in desired)
      modifies this`trace, this`config, this`jobs, this`smooth
      ensures Running(ctx, sys) && WrittenIn(earlier + {s})
      ensures Answered(trace) == Answered(old(trace)) + if ok then [s] else []
      ensures SameOutside(written, start, TheView()) && (smooth <==> old(smooth) && ok)
      ensures Onward()
    {
      ok := Prepare(ctx, sys, p, password, s, earlier);
      if !ok {
        return;
      }
      ghost var before := TheView();
      ok := WriteSection(ctx, sys, s, Sent(s, desired, pw));
      StillSameOutside(written, Target(s).value, start, before, TheView());
    }

    /** enforceAndRecheck: the pass, and if it went through another look, with auth as just set. */
    method EnforceAndRecheck(ghost ctx: Context, ghost sys: SysRead, inp: Inputs, desired: Config, findings: seq<Finding>, password: string, pw: WifiPasswords)
      returns (r: Pass, applied: seq<string>)
      requires Running(ctx, sys) && NoWrites(trace) && inp.profile.enforce
      requires inp == ctx.inp && pw == ctx.pw && IsRendered(ctx, desired) && Managed(findings, desired)
      modifies this`trace, this`config, this`jobs, this`smooth
      ensures Running(ctx, sys)
      ensures r.Rechecked? ==> Passed(inp, old(TheView()), TheView(), dev.authEnabled, findings, applied, r)
      ensures smooth <==> old(smooth) && r.Rechecked?
      ensures Onward()
    {
      var ok;
      ok, applied := ApplyFindings(ctx, sys, inp.profile, desired, findings, password, pw);
      if !ok {
        return ApplyError, applied;
      }
      var authNow := AuthNow(inp.profile, applied, dev.authEnabled);
      r := Recheck(ctx, sys, inp, authNow);
    }

    /** Shelly.GetConfig, once more. */
    method GetConfig(ghost ctx: Context, ghost sys: SysRead) returns (actual: Option<Config>)
      requires Running(ctx, sys)
      modifies this`trace, this`smooth
      ensures Running(ctx, sys) && trace == old(trace) + [ReadConfig(actual.Some?)]
      ensures actual.Some? ==> actual.value == config
      ensures smooth <==> old(smooth) && actual.Some?
      ensures Onward()
    {
      var ok: bool := *;
      Emit(ctx, sys, ReadConfig(ok));
      smooth := smooth && ok;
      actual := if ok then Some(config) else None;
    }

    /** The look after a pass, at the configuration as read again. */
    method Recheck(ghost ctx: Context, ghost sys: SysRead, inp: Inputs, authNow: bool) returns (r: Pass)
      requires Running(ctx, sys)
      modifies this`trace, this`smooth
      ensures Running(ctx, sys)
      ensures r.Rechecked? ==> r.authNow == authNow && Observed(inp.profile, inp.name, TheView(), authNow, r.left)
      ensures smooth <==> old(smooth) && r.Rechecked?
      ensures Onward()
    {
      var actual := GetConfig(ctx, sys);
      if actual.None? {
        return RecheckError;
      }
      var again, _, key := Evaluate(ctx, sys, inp, actual.value, authNow);
      if again.Err? {
        return RecheckError;
      }
      r := Rechecked(again.value, authNow);
    }

    /** runEnforce: damped, failed, not converging, or through; None lets the cycle go on with what is left. */
    method RunEnforce(ghost ctx: Context, ghost sys: SysRead, inp: Inputs, desired: Config, findings: seq<Finding>, password: string, pw: WifiPasswords)
      returns (out: Outcome, finished: bool)
      requires Running(ctx, sys) && NoWrites(trace) && InStep() && inp.profile.enforce && findings != []
      requires inp == ctx.inp && pw == ctx.pw && IsRendered(ctx, desired) && Managed(findings, desired) && Now().Finds(inp, findings)
      modifies this`trace, this`config, this`jobs, this`stored, this`dev, this`smooth
      ensures Running(ctx, sys) && (!MayWrite(out) ==> NoWrites(trace)) && stored.authEnabled == old(stored.authEnabled) && !out.Waiting? && !out.Reported?
      ensures finished ==> CycleStep(inp, old(Now()), Now(), out) && (out.Enforced? ==> Reason() == Some(NotConverging))
      ensures !finished ==> out.Enforced? && Through(inp, old(Now()), TheView(), findings, out) && stored == old(stored)
      ensures !finished ==> dev.report == stored.report
      ensures smooth <==> old(smooth) && !out.Failed?
      ensures Onward()
    {
      if inp.IsDamped(dev.report.condition, findings) {
        out := StayDamped(inp, findings);
        finished := true;
        return;
      }
      out, finished := RunPass(ctx, sys, inp, desired, findings, password, pw);
    }

    /** A pass, and what comes of it. */
    method RunPass(ghost ctx: Context, ghost sys: SysRead, inp: Inputs, desired: Config, findings: seq<Finding>, password: string, pw: WifiPasswords)
      returns (out: Outcome, finished: bool)
      requires Running(ctx, sys) && NoWrites(trace) && InStep() && inp.profile.enforce && findings != []
      requires inp == ctx.inp && pw == ctx.pw && IsRendered(ctx, desired) && Managed(findings, desired) && Now().Finds(inp, findings) && !inp.IsDamped(dev.report.condition, findings)
      modifies this`trace, this`config, this`jobs, this`stored, this`dev, this`smooth
      ensures Running(ctx, sys) && MayWrite(out) && stored.authEnabled == old(stored.authEnabled)
      ensures finished ==> CycleStep(inp, old(Now()), Now(), out) && (out.Enforced? ==> Reason() == Some(NotConverging))
      ensures !finished ==> out.Enforced? && Through(inp, old(Now()), TheView(), findings, out) && stored == old(stored)
      ensures !finished ==> dev.report == stored.report
      ensures smooth <==> old(smooth) && !out.Failed?
      ensures Onward()
    {
      ghost var s := Now();
      var pass, applied := EnforceAndRecheck(ctx, sys, inp, desired, findings, password, pw);
      if pass.Rechecked? {
        out, finished := Settle(inp, findings, pass, applied, s);
      } else {
        var _ := PassFailed(inp, pass, applied, findings);
        FailedStep(inp, s, Now());
        out, finished := Failed, true;
      }
    }

    /** What a completed pass comes to. */
    method Settle(inp: Inputs, findings: seq<Finding>, pass: Pass, applied: seq<string>, ghost s: Snapshot) returns (out: Outcome, finished: bool)
      requires InStep() && pass.Rechecked? && Passed(inp, s.view, TheView(), s.authEnabled, findings, applied, pass)
      requires findings != [] && inp.profile.enforce && s.Finds(inp, findings) && !inp.IsDamped(s.condition, findings) && s.authEnabled == stored.authEnabled
      modifies this`stored, this`dev, this`smooth
      ensures MayWrite(out) && stored.authEnabled == old(stored.authEnabled)
      ensures finished ==> CycleStep(inp, s, Now(), out) && (out.Enforced? ==> Reason() == Some(NotConverging))
      ensures !finished ==> out.Enforced? && Through(inp, s, TheView(), findings, out) && stored == old(stored) && dev.report == stored.report
      ensures smooth <==> old(smooth) && !out.Failed?
      ensures Onward()
    {
      out, finished := Conclude(inp, findings, pass.left, pass.authNow, applied);
      if !finished {
        PassThrough(inp, s, TheView(), findings, applied, pass);
      } else if out.Enforced? {
        StuckStep(inp, s, Now(), findings, applied, pass);
      } else {
        FailedStep(inp, s, Now());
      }
    }

    /** The same condition once more. */
    method StayDamped(inp: Inputs, findings: seq<Finding>) returns (out: Outcome)
      requires InStep() && inp.profile.enforce && findings != [] && Now().Finds(inp, findings) && inp.IsDamped(stored.report.condition, findings)
      modifies this`stored, this`dev, this`smooth
      ensures CycleStep(inp, old(Now()), Now(), out) && (out == Damped(findings) || out == Failed)
      ensures smooth <==> old(smooth) && !out.Failed?
      ensures Onward()
    {
      var ok := Finish(Condition(NotConverging, inp.Message(findings)), findings, inp.profile.name);
      out := if ok then Damped(findings) else Failed;
    }

    /** An error while writing; or one while looking again, which after a write of wifi is expected. */
    method PassFailed(inp: Inputs, pass: Pass, applied: seq<string>, findings: seq<Finding>) returns (ok: bool)
      requires InStep() && !pass.Rechecked?
      modifies this`stored, this`dev, this`smooth
      ensures ok ==> Reason().Some? && Reason().value == if pass.ApplyError? then ApplyFailed else if "wifi" in applied then WifiApplied else ConfigFetchFailed
      ensures ok ==> stored.report.drifted == SortedSeq(ByName, SectionsOf(if pass.ApplyError? then findings else []))
      ensures stored.authEnabled == old(stored.authEnabled)
      ensures smooth ==> old(smooth)
      ensures Onward()
    {
      var msg: string := *;
      if pass.ApplyError? {
        ok := Finish(Condition(ApplyFailed, WithWarnings(msg, inp.warns)), findings, inp.profile.name);
      } else {
        ok := Finish(Condition(if "wifi" in applied then WifiApplied else ConfigFetchFailed, WithWarnings(msg, inp.warns)), [], inp.profile.name);
      }
    }

    /** After a pass: not converging if anything just written is still drifted, and otherwise through. */
    method Conclude(inp: Inputs, findings: seq<Finding>, left: seq<Finding>, authNow: bool, applied: seq<string>) returns (out: Outcome, finished: bool)
      requires InStep() && applied == WriteOrder(findings)
      modifies this`stored, this`dev, this`smooth
      ensures stored.authEnabled == old(stored.authEnabled) && out in {Failed, Enforced(findings, left)}
      ensures finished <==> !(SectionsOf(findings) !! SectionsOf(left))
      ensures !finished ==> out.Enforced? && stored == old(stored)
      ensures !finished ==> dev.report == stored.report
      ensures finished && out.Enforced? ==> stored.report.condition == Some(Condition(NotConverging, inp.Message(left))) && stored.report.drifted == SortedSeq(ByName, SectionsOf(left))
      ensures smooth <==> old(smooth) && !out.Failed?
      ensures Onward()
    {
      dev := dev.(authEnabled := authNow);
      var stuck := StillDrifted(left, applied);
      StuckMeans(findings, left);
      if stuck {
        var ok := Finish(Condition(NotConverging, inp.Message(left)), left, inp.profile.name);
        return if ok then Enforced(findings, left) else Failed, true;
      }
      out, finished := Enforced(findings, left), false;
    }

    // ----- the cycle

    /** The end of a cycle that was not cut short: reboot if the device asked for it, then report. */
    method RebootAndReport(ghost ctx: Context, inp: Inputs, sys: SysRead, at: Minutes, findings: seq<Finding>) returns (ok: bool)
      requires Running(ctx, sys) && inp == ctx.inp && dev.report == stored.report
      modifies this`trace, this`stored, this`dev, this`smooth
      ensures Shape(ctx, trace) && (NoWrites(old(trace)) ==> NoWrites(trace))
      ensures stored.authEnabled == old(stored.authEnabled)
      ensures ok ==> stored.report.condition == Some(inp.Outlook(findings)) && stored.report.drifted == SortedSeq(ByName, SectionsOf(findings))
      ensures RebootedIfDue(inp.profile, at, trace)
      ensures (smooth ==> old(smooth)) && (!ok ==> !smooth)
      ensures Onward()
    {
      RebootIfRequested(ctx, inp.profile, sys, at);
      if findings == [] {
        ok := Finish(Condition(InSync, WithWarnings("configuration matches profile " + inp.profile.name, inp.warns)), [], inp.profile.name);
      } else {
        ok := Finish(Condition(Drifted, inp.Message(findings)), findings, inp.profile.name);
      }
    }

    /** From the first look on: enforce what drifted, if the profile says so, and report. */
    method Check(ghost ctx: Context, inp: Inputs, sys: SysRead, actual: Config, at: Minutes, password: string, pw: WifiPasswords) returns (out: Outcome)
      requires Running(ctx, sys) && NoWrites(trace) && InStep() && inp == ctx.inp && pw == ctx.pw && ctx.config == actual == config
      modifies this`trace, this`config, this`jobs, this`stored, this`dev, this`smooth
      ensures Shape(ctx, trace) && CycleStep(inp, old(Now()), Now(), out) && (!MayWrite(out) ==> NoWrites(trace)) && !out.Waiting?
      ensures (smooth ==> old(smooth)) && (out.Failed? ==> !smooth)
      ensures Onward()
      ensures Unhindered(out) ==> RebootedIfDue(inp.profile, at, trace)
    {
      var found, desired, key := Evaluate(ctx, sys, inp, actual, dev.authEnabled);
      if found.Err? {
        var _ := CannotCompare(inp.profile.name);
        return Failed;
      }
      assert Observed(inp.profile, inp.name, TheView(), stored.authEnabled, found.value);
      if inp.profile.enforce && found.value != [] {
        out := EnforceAndReport(ctx, inp, sys, at, desired, found.value, password, pw);
      } else {
        out := ReportOnly(ctx, inp, sys, at, found.value);
      }
    }

    /** What was read cannot be compared, or the job list cannot be read. */
    method CannotCompare(matched: string) returns (ok: bool)
      requires InStep()
      modifies this`stored, this`dev, this`smooth
      ensures ok ==> Reason() == Some(ConfigFetchFailed) && stored.report.drifted == [] && stored.report.matched == matched
      ensures stored.authEnabled == old(stored.authEnabled) && (smooth ==> old(smooth)) && Onward()
    {
      var msg: string := *;
      NothingDrifted();
      ok := Finish(Condition(ConfigFetchFailed, msg), [], matched);
    }

    /** Nothing to enforce: reboot if asked for, and report what was found. */
    method ReportOnly(ghost ctx: Context, inp: Inputs, sys: SysRead, at: Minutes, findings: seq<Finding>) returns (out: Outcome)
      requires Running(ctx, sys) && NoWrites(trace) && InStep() && inp == ctx.inp
      requires Now().Finds(inp, findings) && (inp.profile.enforce ==> findings == [])
      modifies this`trace, this`stored, this`dev, this`smooth
      ensures Shape(ctx, trace) && NoWrites(trace) && CycleStep(inp, old(Now()), Now(), out) && (out.Reported? || out.Failed?)
      ensures (smooth ==> old(smooth)) && (out.Failed? ==> !smooth)
      ensures Onward()
      ensures out.Reported? ==> RebootedIfDue(inp.profile, at, trace)
    {
      var ok := RebootAndReport(ctx, inp, sys, at, findings);
      out := if ok then Reported(findings) else Failed;
    }

    method EnforceAndReport(ghost ctx: Context, inp: Inputs, sys: SysRead, at: Minutes, desired: Config, findings: seq<Finding>, password: string, pw: WifiPasswords)
      returns (out: Outcome)
      requires Running(ctx, sys) && NoWrites(trace) && InStep() && inp.profile.enforce && findings != []
      requires inp == ctx.inp && pw == ctx.pw && IsRendered(ctx, desired) && Managed(findings, desired) && Now().Finds(inp, findings)
      modifies this`trace, this`config, this`jobs, this`stored, this`dev, this`smooth
      ensures Shape(ctx, trace) && CycleStep(inp, old(Now()), Now(), out) && (!MayWrite(out) ==> NoWrites(trace)) && !out.Waiting?
      ensures (smooth ==> old(smooth)) && (out.Failed? ==> !smooth)
      ensures Onward()
      ensures Unhindered(out) ==> RebootedIfDue(inp.profile, at, trace)
    {
      var finished;
      out, finished := RunEnforce(ctx, sys, inp, desired, findings, password, pw);
      if !finished {
        out := ReportPass(ctx, inp, sys, at, out, old(Now()));
      }
    }

    method ReportPass(ghost ctx: Context, inp: Inputs, sys: SysRead, at: Minutes, pass: Outcome, ghost s: Snapshot) returns (out: Outcome)
      requires Running(ctx, sys) && inp == ctx.inp && dev.report == stored.report
      requires pass.Enforced? && inp.profile.enforce && pass.found != [] && stored.authEnabled == s.authEnabled
      requires s.Finds(inp, pass.found) && Through(inp, s, TheView(), pass.found, pass)
      modifies this`trace, this`stored, this`dev, this`smooth
      ensures Shape(ctx, trace) && CycleStep(inp, s, Now(), out) && MayWrite(out)
      ensures (smooth ==> old(smooth)) && (out.Failed? ==> !smooth)
      ensures Onward()
      ensures out.Enforced? ==> RebootedIfDue(inp.profile, at, trace)
    {
      var ok := RebootAndReport(ctx, inp, sys, at, pass.left);
      if ok {
        ThroughStep(inp, s, Now(), pass);
        out := pass;
      } else {
        FailedStep(inp, s, Now());
        out := Failed;
      }
    }

    /** The device is called: its configuration first, and all else if that is read. */
    method Examine(ghost ctx: Context, inp: Inputs, password: string, pw: WifiPasswords, fleet: Option<seq<Option<Attempt>>>, at: Minutes, ghost d: Deed)
      returns (out: Outcome, ghost d': Deed)
      requires trace == [] && dev == stored && ctx == Context(ctx.start, inp, pw, config)
      requires ctx.start == Start(false, true, stored.firmware, stored.last, clock) && ctx.start.Free()
      requires At(d, None) && d.first.firmware == stored.firmware && d.first.fleet == fleet && d.now.calls == 0 && !d.now.over
      modifies this, slot
      ensures Shape(ctx, trace) && CycleStep(inp, old(Now()), Now(), out) && (!MayWrite(out) ==> NoWrites(trace))
      ensures out.Waiting? ==> Requested(old(slot.lastUpdateStart), old(stored.last)) && !trace[3].refused
      ensures (smooth ==> old(smooth)) && (out.Failed? ==> !smooth)
      ensures At(d', None) && d'.first == d.first && d'.now.calls == CallCount(trace) && trace != []
      ensures Unhindered(out) ==> RebootedIfDue(inp.profile, at, trace)
      ensures smooth ==> UpdatedIfDue(inp.profile, at, fleet, old(stored.last), old(slot.lastUpdateStart), EffectiveSpacing(spacing), old(clock), trace)
    {
      d' := Begins(d);
      var actual := ReadFirst(ctx);
      d' := Touches(d', 1);
      if actual.Some? {
        out, d' := Proceed(ctx, inp, actual.value, password, pw, fleet, at, d');
      } else {
        var _ := CannotRead(inp.profile.name);
        out := Failed;
      }
      d' := Ends(d');
    }

    /** The configuration could not be read: for want of a password that works, or at all. */
    method CannotRead(matched: string) returns (ok: bool)
      requires InStep()
      modifies this`stored, this`dev, this`smooth
      ensures ok ==> Reason() in {Some(AuthRequired), Some(ConfigFetchFailed)} && stored.report.drifted == [] && stored.report.matched == matched
      ensures stored.authEnabled == old(stored.authEnabled) && (smooth ==> old(smooth)) && Onward()
    {
      var msg: string := *;
      var auth: bool := *;
      NothingDrifted();
      ok := Finish(Condition(if auth then AuthRequired else ConfigFetchFailed, msg), [], matched);
    }

    /** Shelly.GetConfig, the first call. */
    method ReadFirst(ghost ctx: Context) returns (actual: Option<Config>)
      requires trace == [] && ctx.start.Free()
      modifies this`trace, this`smooth
      ensures trace == [ReadConfig(actual.Some?)] && Shape(ctx, trace) && NoWrites(trace) && CallCount(trace) == 1
      ensures (smooth <==> old(smooth) && actual.Some?) && (actual.Some? ==> actual.value == config)
    {
      var ok: bool := *;
      ShapeGrows(ctx, trace, ReadConfig(ok));
      trace := trace + [ReadConfig(ok)];
      smooth := smooth && ok;
      actual := if ok then Some(config) else None;
    }

    /** Its status, and then what is to be done. */
    method Proceed(ghost ctx: Context, inp: Inputs, actual: Config, password: string, pw: WifiPasswords, fleet: Option<seq<Option<Attempt>>>, at: Minutes, ghost d: Deed)
      returns (out: Outcome, ghost d': Deed)
      requires Shape(ctx, trace) && trace == [ReadConfig(true)] && dev == stored && ctx == Context(ctx.start, inp, pw, config) && actual == config && ctx.start.Free()
      requires dev.firmware == ctx.start.firmware
      requires At(d, Some(UpdateProtocol.Working)) && d.first.firmware == dev.firmware && d.first.fleet == fleet && d.now.calls == 1
      modifies this, slot
      ensures Shape(ctx, trace) && CycleStep(inp, old(Now()), Now(), out) && (!MayWrite(out) ==> NoWrites(trace))
      ensures out.Waiting? ==> Requested(old(slot.lastUpdateStart), old(stored.last)) && !trace[3].refused
      ensures (smooth ==> old(smooth)) && (out.Failed? ==> !smooth)
      ensures d'.now.ph.Some? && At(d', d'.now.ph) && d'.first == d.first && d'.now.calls == CallCount(trace) && trace != []
      ensures Unhindered(out) ==> RebootedIfDue(inp.profile, at, trace)
      ensures smooth ==> UpdatedIfDue(inp.profile, at, fleet, old(stored.last), old(slot.lastUpdateStart), EffectiveSpacing(spacing), old(clock), trace)
    {
      var sys := StampSysStatus(ctx);
      d' := Touches(d, 1);
      out, d' := UpdateOrCheck(ctx, inp, sys, actual, password, pw, fleet, at, d');
    }

    /** An update if one is due, and otherwise the check. */
    method UpdateOrCheck(ghost ctx: Context, inp: Inputs, sys: SysRead, actual: Config, password: string, pw: WifiPasswords, fleet: Option<seq<Option<Attempt>>>,
                         at: Minutes, ghost d: Deed)
      returns (out: Outcome, ghost d': Deed)
      requires Running(ctx, sys) && |trace| == 2 && InStep() && dev.last == stored.last && ctx == Context(ctx.start, inp, pw, config) && actual == config
      requires dev.firmware == ctx.start.firmware
      requires At(d, Some(UpdateProtocol.Working)) && d.first.firmware == dev.firmware && d.first.fleet == fleet && d.now.calls == 2
      modifies this, slot
      ensures Shape(ctx, trace) && CycleStep(inp, old(Now()), Now(), out) && (!MayWrite(out) ==> NoWrites(trace))
      ensures out.Waiting? ==> Requested(old(slot.lastUpdateStart), old(stored.last)) && !trace[3].refused
      ensures (smooth ==> old(smooth)) && (out.Failed? ==> !smooth)
      ensures d'.now.ph.Some? && At(d', d'.now.ph) && d'.first == d.first && d'.now.calls == CallCount(trace) && trace != []
      ensures Unhindered(out) ==> RebootedIfDue(inp.profile, at, trace)
      ensures smooth ==> UpdatedIfDue(inp.profile, at, fleet, old(stored.last), old(slot.lastUpdateStart), EffectiveSpacing(spacing), old(clock), trace)
    {
      var sent;
      ghost var ph;
      sent, d', ph := UpdateIfAvailable(ctx, inp.profile, sys, fleet, at, d);
      if sent {
        out := Waiting;
      } else {
        ghost var made := CallCount(trace);
        out := Check(ctx, inp, sys, actual, at, password, pw);
        d' := Touches(d', CallCount(trace) - made);
      }
    }

    /**
     Reconcile. Whatever it does to the device has the allowed shape, and how it ends is
     one of the steps of the cycle; nobody else writes the object meanwhile.
     */
    method Reconcile(paused: bool, resolution: Resolution, fleet: Option<seq<Option<Attempt>>>, at: Minutes, ghost worker: nat, ghost number: nat)
      returns (out: Outcome, start: Start, ghost d: Deed)
      modifies this, slot
      ensures start == Start(paused, old(stored.online), old(stored.firmware), old(stored.last), old(clock))
      ensures resolution.Resolved? ==> Shape(Context(start, resolution.inp, resolution.pw, old(config)), trace)
      ensures resolution.Resolved? ==> CycleStep(resolution.inp, old(Now()), Now(), out)
      ensures !MayWrite(out) ==> NoWrites(trace)
      ensures trace != [] ==> resolution.Resolved? && start.Free()
      ensures out.Waiting? && trace != [] ==> Requested(old(slot.lastUpdateStart), old(stored.last))
      ensures stored.authEnabled == old(stored.authEnabled)
      ensures out.Failed? && smooth ==> paused || !old(stored.online) || !resolution.Resolved?
      ensures out.Waiting? && trace == [] ==>
                && old(stored.last).Some? && !old(stored.last).value.refused && old(stored.last).value.from == old(stored.firmware)
                && old(clock) - old(stored.last).value.time < 20 * 60 * SECOND
      ensures smooth && paused ==> Reason() == Some(Paused)
      ensures smooth && !paused && !old(stored.online) ==> Reason() == Some(Offline)
      ensures smooth && start.Free() && resolution.Resolved? ==> trace != []
      ensures resolution.Resolved? && Unhindered(out) ==> RebootedIfDue(resolution.inp.profile, at, trace)
      ensures resolution.Resolved? && trace != [] && smooth ==>
                UpdatedIfDue(resolution.inp.profile, at, fleet, old(stored.last), old(slot.lastUpdateStart), EffectiveSpacing(spacing), old(clock), trace)
      ensures At(d, None) && d.first == old(Fresh(worker, fleet, number)) && d.now.calls == CallCount(trace)
    {
      trace, smooth := [], true;
      out, d := Failed, Nothing(Fresh(worker, fleet, number));
      start := Start(paused, stored.online, stored.firmware, stored.last, clock);
      var got: bool := *;
      if got && start.Free() && resolution.Resolved? {
        dev := stored;
        var Resolved(inp, password, pw) := resolution;
        out, d := Examine(Context(start, inp, pw, config), inp, password, pw, fleet, at, d);
      } else {
        out := Skip(got, start, resolution);
      }
    }

    /** The device is not called: its object cannot be read, or it is paused, offline, installing, or there is nothing to bring it to. */
    method Skip(got: bool, start: Start, resolution: Resolution) returns (out: Outcome)
      requires !got || !start.Free() || !resolution.Resolved?
      requires start == Start(start.paused, stored.online, stored.firmware, stored.last, clock)
      modifies this`stored, this`dev, this`smooth
      ensures Onward() && stored.authEnabled == old(stored.authEnabled) && (smooth ==> old(smooth) && got) && (out.Waiting? || out.Failed?)
      ensures out.Waiting? ==>
                && stored == old(stored) && !start.paused && start.online && start.last.Some? && !start.last.value.refused && start.last.value.from == start.firmware
                && start.now - start.last.value.time < 20 * 60 * SECOND
      ensures resolution.Resolved? ==> CycleStep(resolution.inp, old(Now()), Now(), out)
      ensures smooth && start.paused ==> Reason() == Some(Paused)
      ensures smooth && !start.paused && !start.online ==> Reason() == Some(Offline)
      ensures out.Failed? && smooth ==> start.paused || !start.online || !resolution.Resolved?
      ensures smooth && out.Failed? && start.Free() && resolution.Unresolved? ==> Reason() == Some(resolution.reason) && stored.report.matched == resolution.matched
    {
      if !got {
        smooth := false;
        return Failed;
      }
      dev := stored;
      out := Failed;
      if start.paused {
        var _ := Finish(Condition(Paused, "reconciliation paused via spec.paused"), [], dev.report.matched);
      } else if !dev.online {
        var _ := Finish(Condition(Offline, "device offline; skipping drift check"), [], dev.report.matched);
      } else if UpdateInFlight(dev.firmware, dev.last, clock) > 0 {
        InFlightExactly(dev.firmware, dev.last, clock);
        out := Waiting;
      } else if resolution.Unresolved? {
        var _ := Finish(Condition(resolution.reason, resolution.message), [], resolution.matched);
      }
    }
  }

  lemma NothingDrifted()
    ensures SortedSeq(ByName, SectionsOf([])) == []
  {
    assert SectionsOf([]) == {};
  }

  /** Auth has a password to set, the profile has something to say, and the section can be addressed. */
  function CanWrite(p: Profile, password: string, s: string): (ok: bool)
    ensures ok ==> Target(s).Some?
  {
    if s == SECTION_AUTH then PseudoKinds(s); p.auth != Some(true) || password != ""
    else if s == Firmware.SECTION_FIRMWARE then PseudoKinds(s); p.firmware.Some?
    else if s == SECTION_SCHEDULE then PseudoKinds(s); p.schedules.Some?
    else Target(s).Some?
  }

  /** What is found can be written, but for auth to be set without a password and a switch whose name has no number. */
  lemma FoundCanBeWritten(inp: Inputs, v: View, authNow: bool, key: Option<string>, fs: seq<Finding>, password: string, s: string)
    requires Looked(inp, v, authNow, key, Ok(fs)) && Chosen(inp.profile, key, v.config) && s in SectionsOf(fs)
    ensures CanWrite(inp.profile, password, s) <==>
              !(s == "auth" && inp.profile.auth == Some(true) && password == "") && !(IsSwitchKey(s) && Atoi(s[7..]).None?)
  {
    FoundIsAskedFor(inp, v, authNow, key, fs, s);
    if IsPseudo(s) {
      PseudoKinds(s);
    }
  }

  /** A section without a component is found drifted only if the profile asks for it. */
  lemma FoundIsAskedFor(inp: Inputs, v: View, authNow: bool, key: Option<string>, fs: seq<Finding>, s: string)
    requires Looked(inp, v, authNow, key, Ok(fs)) && Chosen(inp.profile, key, v.config) && s in SectionsOf(fs)
    ensures (s == "firmware" ==> inp.profile.firmware.Some?) && (s == "schedule" ==> inp.profile.schedules.Some?)
  {
    if IsPseudo(s) {
      FindingsNames(inp.profile, inp.name, key, v, authNow, s);
      NotCompared(inp.profile, inp.name, key, v.config, s);
    }
  }

  lemma NotCompared(p: Profile, name: string, key: Option<string>, config: Config, s: string)
    requires IsPseudo(s) && Chosen(p, key, config) && Diff(Render(p.config, name, key, config), config).Ok?
    ensures s !in SectionsOf(Diff(Render(p.config, name, key, config), config).value)
  {
    NotRendered(p, name, key, config, s);
    DiffNames(Render(p.config, name, key, config), config);
  }

  lemma NotRendered(p: Profile, name: string, key: Option<string>, config: Config, s: string)
    requires IsPseudo(s) && Chosen(p, key, config)
    ensures s !in Render(p.config, name, key, config)
  {
    PseudoKinds(s);
    assert Get(Render(p.config, name, key, config), s).None?;
  }

  /** The desired configuration is rendered for this one. */
  ghost predicate Compared(inp: Inputs, config: Config, key: Option<string>, desired: Config)
  {
    Chosen(inp.profile, key, config) && desired == Render(inp.profile.config, inp.name, key, config)
  }

  /** These are the findings of a look. */
  ghost predicate Looked(inp: Inputs, v: View, authNow: bool, key: Option<string>, r: Result<seq<Finding>, string>)
  {
    FindingsOf(inp.profile, inp.name, key, v, authNow) == r
  }

  /** Every section found drifted is rendered, or no component. */
  ghost predicate Managed(fs: seq<Finding>, desired: Config)
  {
    forall s :: s in SectionsOf(fs) ==> IsPseudo(s) || s in desired
  }

  lemma OnlyManaged(inp: Inputs, v: View, authNow: bool, key: Option<string>, fs: seq<Finding>)
    requires Looked(inp, v, authNow, key, Ok(fs))
    ensures Managed(fs, Render(inp.profile.config, inp.name, key, v.config))
  {
    var desired := Render(inp.profile.config, inp.name, key, v.config);
    forall s | s in SectionsOf(fs) ensures IsPseudo(s) || s in desired {
      FindingsNames(inp.profile, inp.name, key, v, authNow, s);
      DiffNames(desired, v.config);
    }
  }

  /** appendAuthFinding. */
  function WithAuth(want: Option<bool>, authNow: bool, fs: seq<Finding>): seq<Finding>
  {
    fs + AuthFindings(want, authNow)
  }

  /** These are the findings of the job list alone. */
  ghost predicate OfJobs(p: Profile, jobs: seq<Jobs.Job>, fs: seq<Finding>)
  {
    fs == FirmwareSection(p.firmware, jobs) + ScheduleFindings(p.schedules, jobs)
  }

  /** These are the findings of the configuration alone. */
  ghost predicate Diffed(inp: Inputs, config: Config, key: Option<string>, r: Result<seq<Finding>, string>)
  {
    Diff(Render(inp.profile.config, inp.name, key, config), config) == r
  }

  /** The configuration against what is rendered for it. */
  method Compare(inp: Inputs, config: Config) returns (r: Result<seq<Finding>, string>, desired: Config, key: Option<string>)
    ensures Compared(inp, config, key, desired) && Diffed(inp, config, key, r)
  {
    desired, key := RenderConfig(inp.profile.config, inp.name, config);
    forall s | s in desired ensures desired[s].Obj? {
      RenderedIsTree(inp.profile.config, inp.name, key, config, s);
    }
    r := DiffConfig(desired, config);
  }

  lemma InParts(inp: Inputs, key: Option<string>, v: View, authNow: bool, d: Result<seq<Finding>, string>, more: seq<Finding>)
    requires OfJobs(inp.profile, v.jobs, more)
    requires d.Ok? && Diffed(inp, v.config, key, d)
    ensures Looked(inp, v, authNow, key, Ok(WithAuth(inp.profile.auth, authNow, d.value) + more))
  {
    ScheduleApply.Assoc(d.value + AuthFindings(inp.profile.auth, authNow),
                        FirmwareSection(inp.profile.firmware, v.jobs), ScheduleFindings(inp.profile.schedules, v.jobs));
  }

  /** The status read as the second call, if it was read. */
  function StatusRead(t: seq<Event>): SysRead
  {
    if |t| > 1 && t[1].ReadStatus? then SysRead(t[1].restartRequired, t[1].available, t[1].ok) else SysRead(false, "", false)
  }

  /** The cycle's last call is a reboot exactly if one is due. */
  predicate RebootedIfDue(p: Profile, at: Minutes, t: seq<Event>)
  {
    RebootDue(p, StatusRead(t), at) <==> t != [] && t[|t| - 1].Reboot?
  }

  /** The update is requested, as the fourth event, if it is due, was not just asked for, and no other update of the fleet is near. */
  predicate UpdatedIfDue(p: Profile, at: Minutes, fleet: Option<seq<Option<Attempt>>>, last: Option<Attempt>, start: Option<nat>, spacing: nat, now: nat, t: seq<Event>)
  {
    && UpdateDue(p, StatusRead(t), at) && fleet.Some? && !Asked(last, StatusRead(t).available, now) && !Crowded(start, fleet.value, spacing, now)
    ==> |t| > 3 && t[3].SendUpdate?
  }

  /** A reboot is due: the device asked for it in this cycle, the profile opted in and enforces, and the window is open. */
  predicate RebootDue(p: Profile, sys: SysRead, at: Minutes)
  {
    p.enforce && p.rebootWhenRequired && sys.current && sys.restartRequired && WithinWindow(at.reboot, p.rebootWindow) == Ok(true)
  }

  /** An update is due, as far as device and profile go. */
  predicate UpdateDue(p: Profile, sys: SysRead, at: Minutes)
  {
    && p.enforce && p.updateWhenAvailable && sys.current && sys.available != ""
    && p.updateWindow.Some? && WithinWindow(at.update, p.updateWindow) == Ok(true)
  }

  /** The version was asked for less than twenty minutes ago, and the device did not refuse. */
  predicate Asked(last: Option<Attempt>, version: string, now: nat)
  {
    last.Some? && !last.value.refused && last.value.target == version && now - last.value.time < 20 * 60 * SECOND
  }

  /** Some update anywhere in the fleet began less than the spacing ago. */
  predicate Crowded(start: Option<nat>, fleet: seq<Option<Attempt>>, spacing: nat, now: nat)
  {
    (start.Some? && now - start.value < spacing) || exists i :: 0 <= i < |fleet| && fleet[i].Some? && now - fleet[i].value.time < spacing
  }

  /** One finding per planned action. */
  method ActionFindings(section: Option<seq<Jobs.JobSpec>>, list: seq<Jobs.Job>) returns (fs: seq<Finding>)
    requires section.Some?
    ensures fs == ScheduleFindings(section, list)
  {
    var actions := ScheduleApply.ScheduleActions(section, list);
    fs := [];
    for i := 0 to |actions|
      invariant |fs| == i && forall k :: 0 <= k < i ==> fs[k] == ActionFinding(section.value, actions[k])
    {
      fs := fs + [ActionFinding(section.value, actions[i])];
    }
  }

  /** The auth state to compare with: the status is stale once auth has been written. */
  method AuthNow(p: Profile, applied: seq<string>, was: bool) returns (now: bool)
    ensures now == if SECTION_AUTH in applied && p.auth.Some? then p.auth.value else was
  {
    now := was;
    for i := 0 to |applied|
      invariant now == if SECTION_AUTH in applied[..i] && p.auth.Some? then p.auth.value else was
    {
      if applied[i] == SECTION_AUTH && p.auth.Some? {
        now := p.auth.value;
      }
    }
  }

  /** Some finding is about a section that was just written. */
  method StillDrifted(findings: seq<Finding>, applied: seq<string>) returns (b: bool)
    ensures b <==> exists i :: 0 <= i < |findings| && findings[i].section in applied
  {
    for i := 0 to |findings|
      invariant forall k :: 0 <= k < i ==> findings[k].section !in applied
    {
      if findings[i].section in applied {
        return true;
      }
    }
    return false;
  }

  /** No finding left about a written section: the sections are disjoint. */
  lemma StuckMeans(findings: seq<Finding>, left: seq<Finding>)
    ensures (exists i :: 0 <= i < |left| && left[i].section in WriteOrder(findings)) <==> !(SectionsOf(findings) !! SectionsOf(left))
  {
    if s :| s in SectionsOf(findings) && s in SectionsOf(left) {
      var i :| 0 <= i < |left| && left[i].section == s;
      assert left[i].section in WriteOrder(findings);
    }
    forall i | 0 <= i < |left| && left[i].section in WriteOrder(findings) ensures !(SectionsOf(findings) !! SectionsOf(left)) {
      assert left[i].section in SectionsOf(findings) && left[i].section in SectionsOf(left);
    }
  }

  lemma Snoc(s: seq<string>, i: nat)
    requires i < |s|
    ensures s[..i + 1] == s[..i] + [s[i]]
  {
  }

  lemma StillSameOutside(written: set<string>, s: string, a: View, b: View, c: View)
    requires SameOutside(written, a, b) && s in written && SameOutside({s}, b, c)
    ensures SameOutside(written, a, c)
  {
  }

  /** In an ascending order, what comes earlier comes before. */
  lemma NextInOrder(order: seq<string>, i: nat)
    requires Ascending(ByRank, order) && i < |order|
    ensures forall x :: x in Elements(order[..i]) ==> Before(ByRank, x, order[i])
    ensures Elements(order[..i + 1]) == Elements(order[..i]) + {order[i]}
  {
    assert order[..i + 1] == order[..i] + [order[i]];
  }
}
