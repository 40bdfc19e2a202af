/**
 What one reconcile may do to its device, call by call: when each kind of call is allowed
 after the calls before it, and what that says about every trace as a whole.
 */
module Trace {
  import opened Wrappers
  import opened Json
  import opened Order
  import opened Desired
  import opened Fixpoint
  import opened Window
  import opened FirmwareUpdate
  import opened Cycle

  /** A call to the device; and Noted, the API server's acknowledgement that the attempt is stored. */
  datatype Event =
    | ReadConfig(ok: bool)
    | ReadStatus(ok: bool, restartRequired: bool, available: string)
    | ReadJobs(ok: bool)
    | ReadId(ok: bool)
    | Noted(attempt: Attempt)
    | SendUpdate(minute: nat, refused: bool)
    | Write(section: string, payload: Option<Json>, ok: bool)
    | Reboot(minute: nat, ok: bool)
  {
    /** A call that changes something about the device. */
    predicate Acts() { SendUpdate? || Write? || Reboot? }

    /** A call after which the device is left alone. */
    predicate Final() { Reboot? || (SendUpdate? && !refused) }
  }

  /** What the reconcile read of the object before it did anything. */
  datatype Start = Start(paused: bool, online: bool, firmware: string, last: Option<Attempt>, now: nat)
  {
    /** Not paused, online, and with no update installing. */
    predicate Free()
    {
      !paused && online && UpdateInFlight(firmware, last, now) == 0
    }
  }

  datatype Context = Context(start: Start, inp: Inputs, pw: WifiPasswords, config: Config)

  /** What is sent for a section: the rendered map, for wifi with its passwords; nothing for the sections that are no component. */
  function Sent(s: string, desired: Config, pw: WifiPasswords): Option<Json>
  {
    if s in {"auth", "firmware", "schedule"} then None
    else Some(Payload(s, OrNull(Get(desired, s)), pw))
  }

  ghost predicate IsRendered(ctx: Context, desired: Config)
  {
    exists key :: Chosen(ctx.inp.profile, key, ctx.config) && desired == Render(ctx.inp.profile.config, ctx.inp.name, key, ctx.config)
  }

  ghost predicate MaySendUpdate(ctx: Context, t: seq<Event>, minute: nat)
  {
    var p := ctx.inp.profile;
    && p.updateWhenAvailable && p.updateWindow.Some? && WithinWindow(minute, p.updateWindow) == Ok(true)
    && |t| == 3 && t[1].ReadStatus? && t[1].ok && t[2].Noted?
    && t[1].available != "" && t[2].attempt.target == t[1].available
    && t[2].attempt.from == ctx.start.firmware && !t[2].attempt.refused
  }

  ghost predicate MayReboot(ctx: Context, t: seq<Event>, minute: nat)
  {
    var p := ctx.inp.profile;
    && p.rebootWhenRequired && WithinWindow(minute, p.rebootWindow) == Ok(true)
    && |t| >= 2 && t[1].ReadStatus? && t[1].ok && t[1].restartRequired
  }

  /** After every section written so far, and with what was rendered for it. */
  ghost predicate MayWriteSection(ctx: Context, t: seq<Event>, s: string, payload: Option<Json>)
  {
    && (forall i :: 0 <= i < |t| && t[i].Write? ==> Before(ByRank, t[i].section, s))
    && (s == SECTION_AUTH ==> t != [] && t[|t| - 1] == ReadId(true))
    && exists desired :: IsRendered(ctx, desired) && payload == Sent(s, desired, ctx.pw) && (IsPseudo(s) || s in desired)
  }

  /** The event may follow the trace so far. */
  ghost predicate Allowed(ctx: Context, t: seq<Event>, e: Event)
  {
    && ctx.start.Free()
    && (forall i :: 0 <= i < |t| ==> !t[i].Final())
    && (t != [] ==> t[0] == ReadConfig(true))
    && (e.Acts() ==> ctx.inp.profile.enforce)
    && (e.ReadStatus? ==> |t| == 1)
    && (e.Noted? ==> |t| == 2)
    && (e.SendUpdate? ==> MaySendUpdate(ctx, t, e.minute))
    && (e.Reboot? ==> MayReboot(ctx, t, e.minute))
    && (e.Write? ==> MayWriteSection(ctx, t, e.section, e.payload))
  }

  ghost predicate Shape(ctx: Context, t: seq<Event>)
  {
    forall i {:trigger Allowed(ctx, t[..i], t[i])} :: 0 <= i < |t| ==> Allowed(ctx, t[..i], t[i])
  }

  lemma ShapeGrows(ctx: Context, t: seq<Event>, e: Event)
    requires Shape(ctx, t) && Allowed(ctx, t, e)
    ensures Shape(ctx, t + [e])
  {
    forall i | 0 <= i < |t + [e]| ensures Allowed(ctx, (t + [e])[..i], (t + [e])[i]) {
      if i < |t| {
        assert (t + [e])[..i] == t[..i];
      } else {
        assert (t + [e])[..i] == t;
      }
    }
  }

  lemma WriteAllowed(ctx: Context, t: seq<Event>, s: string, payload: Option<Json>, ok: bool)
    requires ctx.start.Free() && ctx.inp.profile.enforce && NoFinal(t) && t != [] && t[0] == ReadConfig(true) && MayWriteSection(ctx, t, s, payload)
    ensures Allowed(ctx, t, Event.Write(s, payload, ok))
  {
  }

  /** Once the status is read, storing the attempt and sending the request may follow. */
  lemma RequestShape(ctx: Context, t: seq<Event>, attempt: Attempt, minute: nat, refused: bool)
    requires Shape(ctx, t) && |t| == 2 && t[0] == ReadConfig(true) && t[1].ReadStatus? && ctx.start.Free() && ctx.inp.profile.enforce
    requires MaySendUpdate(ctx, t + [Noted(attempt)], minute)
    ensures
      var t' := t + [Noted(attempt), SendUpdate(minute, refused)];
      Shape(ctx, t') && NoWrites(t') && (refused ==> NoFinal(t'))
  {
    ShapeGrows(ctx, t, Noted(attempt));
    ShapeGrows(ctx, t + [Noted(attempt)], SendUpdate(minute, refused));
    assert t + [Noted(attempt), SendUpdate(minute, refused)] == t + [Noted(attempt)] + [SendUpdate(minute, refused)];
  }

  ghost predicate NoFinal(t: seq<Event>)
  {
    forall i :: 0 <= i < |t| ==> !t[i].Final()
  }

  ghost predicate NoWrites(t: seq<Event>)
  {
    forall i :: 0 <= i < |t| ==> !t[i].Write?
  }

  /** The sections whose writes were answered, in order. */
  function Answered(t: seq<Event>): seq<string>
  {
    if t == [] then []
    else
      var e := t[|t| - 1];
      Answered(t[..|t| - 1]) + if e.Write? && e.ok then [e.section] else []
  }

  lemma AnsweredNext(t: seq<Event>, e: Event)
    ensures Answered(t + [e]) == Answered(t) + if e.Write? && e.ok then [e.section] else []
  {
    assert (t + [e])[..|t|] == t;
  }

  lemma {:induction false} NothingAnswered(t: seq<Event>)
    requires NoWrites(t)
    ensures Answered(t) == []
  {
    if t != [] {
      NothingAnswered(t[..|t| - 1]);
    }
  }

  /** How many of the events are calls to the device: all but a Noted, which is the third event or none. */
  function CallCount(t: seq<Event>): nat
  {
    if |t| > 2 && t[2].Noted? then |t| - 1 else |t|
  }

  lemma NotedIsThird(ctx: Context, t: seq<Event>, i: nat)
    requires Shape(ctx, t) && i < |t| && t[i].Noted?
    ensures i == 2
  {
    assert Allowed(ctx, t[..i], t[i]);
  }

  // ----- what the shape says

  /** Whatever acts on the device acts on one that is online, unpaused, enforced and not installing. */
  lemma ActsOnlyWhenFree(ctx: Context, t: seq<Event>, i: nat)
    requires Shape(ctx, t) && i < |t|
    ensures ctx.start.Free() && (t[i].Acts() ==> ctx.inp.profile.enforce)
  {
    assert Allowed(ctx, t[..i], t[i]);
  }

  lemma FollowedIsNotFinal(ctx: Context, t: seq<Event>, i: nat, j: nat)
    requires Shape(ctx, t) && i < j < |t|
    ensures !t[i].Final()
  {
    assert Allowed(ctx, t[..j], t[j]);
    assert t[..j][i] == t[i];
  }

  /** Nothing follows an update that was not refused, or a reboot: each occurs at most once and last. */
  lemma FinalIsLast(ctx: Context, t: seq<Event>, i: nat)
    requires Shape(ctx, t) && i < |t| && t[i].Final()
    ensures i == |t| - 1
  {
    if i + 1 < |t| {
      FollowedIsNotFinal(ctx, t, i, i + 1);
    }
  }

  lemma RebootFollowsStatus(ctx: Context, t: seq<Event>, i: nat)
    requires Shape(ctx, t) && i < |t| && t[i].Reboot?
    ensures i == |t| - 1 && 1 < i && t[1].ReadStatus? && t[1].ok && t[1].restartRequired
    ensures ctx.inp.profile.rebootWhenRequired && WithinWindow(t[i].minute, ctx.inp.profile.rebootWindow) == Ok(true)
  {
    assert Allowed(ctx, t[..i], t[i]);
    FinalIsLast(ctx, t, i);
    assert t[..i][1] == t[1];
  }

  /** An update request is the fourth event, if any: config, status, the stored attempt, then the request. */
  lemma UpdateFollowsRecord(ctx: Context, t: seq<Event>, i: nat)
    requires Shape(ctx, t) && i < |t| && t[i].SendUpdate?
    ensures i == 3 && t[0] == ReadConfig(true) && t[1].ReadStatus? && t[1].ok && t[2].Noted?
    ensures t[2].attempt.target == t[1].available != "" && t[2].attempt.from == ctx.start.firmware
    ensures ctx.inp.profile.updateWindow.Some? && WithinWindow(t[i].minute, ctx.inp.profile.updateWindow) == Ok(true)
    ensures !t[i].refused ==> |t| == 4
  {
    assert Allowed(ctx, t[..i], t[i]);
    assert t[..i][0] == t[0] && t[..i][1] == t[1] && t[..i][2] == t[2];
    if !t[i].refused {
      FinalIsLast(ctx, t, i);
    }
  }

  /** No section is written after wifi, only wifi after auth, and none twice. */
  lemma WritesAreOrdered(ctx: Context, t: seq<Event>, i: nat, j: nat)
    requires Shape(ctx, t) && i < j < |t| && t[i].Write? && t[j].Write?
    ensures t[i].section != t[j].section
    ensures t[i].section != "wifi" && (t[i].section == "auth" ==> t[j].section == "wifi")
  {
    assert Allowed(ctx, t[..j], t[j]);
    assert t[..j][i] == t[i];
    var a, b := t[i].section, t[j].section;
    BeforeIrreflexive(ByRank, a);
    if a == "wifi" {
      AuthAndWifiLast(b);
      BeforeTransitive(ByRank, a, b, a);
    } else if a == "auth" && b != "wifi" {
      AuthAndWifiLast(b);
      BeforeTransitive(ByRank, a, b, a);
    }
  }

  /** Auth is set for the id the device has just given. */
  lemma AuthFollowsId(ctx: Context, t: seq<Event>, i: nat)
    requires Shape(ctx, t) && i < |t| && t[i].Write? && t[i].section == "auth"
    ensures i > 0 && t[i - 1] == ReadId(true)
  {
    assert Allowed(ctx, t[..i], t[i]);
  }

  /** Updates and windowed reboots happen on the window's arc of the clock. */
  lemma ActsInsideWindow(ctx: Context, t: seq<Event>, i: nat)
    requires Shape(ctx, t) && i < |t| && (t[i].SendUpdate? || t[i].Reboot?) && t[i].minute < 1440
    requires ctx.inp.profile.updateWindow.Some? ==> Proper(ctx.inp.profile.updateWindow.value)
    requires ctx.inp.profile.rebootWindow.Some? ==> Proper(ctx.inp.profile.rebootWindow.value)
    ensures t[i].SendUpdate? ==> ctx.inp.profile.updateWindow.Some? && OnArc(ctx.inp.profile.updateWindow.value, t[i].minute)
    ensures t[i].Reboot? && ctx.inp.profile.rebootWindow.Some? ==> OnArc(ctx.inp.profile.rebootWindow.value, t[i].minute)
  {
    if t[i].SendUpdate? {
      UpdateFollowsRecord(ctx, t, i);
      WindowIsArc(t[i].minute, ctx.inp.profile.updateWindow.value);
    } else {
      RebootFollowsStatus(ctx, t, i);
      if ctx.inp.profile.rebootWindow.Some? {
        WindowIsArc(t[i].minute, ctx.inp.profile.rebootWindow.value);
      }
    }
  }

  /** Ends that parse are minutes of the day. */
  predicate Proper(w: Window)
  {
    (w.start.Some? ==> w.start.value < 1440) && (w.end.Some? ==> w.end.value < 1440)
  }

  predicate OnArc(w: Window, minute: nat)
  {
    w.start.Some? && w.end.Some? && (minute - w.start.value) % 1440 < (w.end.value - w.start.value) % 1440
  }
}
