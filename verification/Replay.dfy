/**
 What the writes of a reconcile carry, said of the profile and not of the code that made
 them, and what a device that merges them becomes.
 */
module Replay {
  import opened Wrappers
  import opened Json
  import opened Findings
  import opened Sorting
  import opened Desired
  import opened Fixpoint
  import opened Cycle
  import opened Trace
  import opened Convergence
  import Jobs
  import Schedule
  import Firmware

  lemma WriteIsRendered(ctx: Context, t: seq<Event>, i: nat) returns (key: Option<string>, desired: Config)
    requires Shape(ctx, t) && i < |t| && t[i].Write?
    ensures Chosen(ctx.inp.profile, key, ctx.config) && desired == Render(ctx.inp.profile.config, ctx.inp.name, key, ctx.config)
    ensures t[i].payload == Sent(t[i].section, desired, ctx.pw) && (IsPseudo(t[i].section) || t[i].section in desired)
  {
    var e := t[i];
    assert Allowed(ctx, t[..i], e);
    desired :| IsRendered(ctx, desired) && e.payload == Sent(e.section, desired, ctx.pw) && (IsPseudo(e.section) || e.section in desired);
    key :| Chosen(ctx.inp.profile, key, ctx.config) && desired == Render(ctx.inp.profile.config, ctx.inp.name, key, ctx.config);
  }

  /** The map is what is rendered of wifi, but for the passwords: each known one is in its network, and nowhere else. */
  ghost predicate WithPasswords(rendered: Object, pw: WifiPasswords, sent: Object)
  {
    && sent.Keys == rendered.Keys
    && (forall k :: k in rendered && k != "sta" && k != "sta1" ==> sent[k] == rendered[k])
    && ("sta" in rendered ==> IsNetwork(rendered["sta"], pw.sta, sent["sta"]))
    && ("sta1" in rendered ==> IsNetwork(rendered["sta1"], pw.sta1, sent["sta1"]))
  }

  ghost predicate IsNetwork(rendered: Json, pass: string, sent: Json)
  {
    && rendered.Obj? && sent.Obj?
    && Get(sent.fields, "pass") == (if pass == "" then None else Some(Str(pass)))
    && forall k :: k != "pass" ==> Get(sent.fields, k) == Get(rendered.fields, k)
  }

  /** A write of wifi takes the device to its networks with their passwords. */
  lemma WifiCarriesPasswords(ctx: Context, t: seq<Event>, i: nat)
    requires Shape(ctx, t) && i < |t| && t[i].Write? && t[i].section == "wifi"
    ensures
      var rendered := RenderWifi(ctx.inp.profile.config.wifi);
      rendered.Some? && rendered.value.Obj? && t[i].payload.Some? && t[i].payload.value.Obj?
      && WithPasswords(rendered.value.fields, ctx.pw, t[i].payload.value.fields)
  {
    var key, desired := WriteIsRendered(ctx, t, i);
    var wifi := ctx.inp.profile.config.wifi;
    assert Get(desired, "wifi") == RenderWifi(wifi);
    PasswordsIn(wifi, ctx.pw);
  }

  lemma PasswordsIn(wifi: Option<Wifi>, pw: WifiPasswords)
    requires RenderWifi(wifi).Some?
    ensures
      var m := RenderWifi(wifi).value.fields;
      WithPasswords(m, pw, Inject(Inject(m, "sta", pw.sta), "sta1", pw.sta1))
  {
    var m := RenderWifi(wifi).value.fields;
    if "sta" in m {
      NoPassRendered(wifi, "sta");
    }
    if "sta1" in m {
      NoPassRendered(wifi, "sta1");
    }
  }

  /** Any other component is sent what is rendered for it, and nothing but a component is sent a configuration. */
  lemma OthersCarryTheRendered(ctx: Context, t: seq<Event>, i: nat)
    requires Shape(ctx, t) && i < |t| && t[i].Write?
    ensures t[i].payload.None? <==> t[i].section == "auth" || t[i].section == "firmware" || t[i].section == "schedule"
    ensures t[i].payload.Some? && t[i].section != "wifi" ==>
              exists key :: Chosen(ctx.inp.profile, key, ctx.config)
                && Get(Render(ctx.inp.profile.config, ctx.inp.name, key, ctx.config), t[i].section) == t[i].payload
  {
    var key, desired := WriteIsRendered(ctx, t, i);
  }

  // ----- the trace played back

  /** A device that merges each payload answered and carries out the job calls of each section without one. */
  function Take(p: Profile, plug: Plug, e: Event): Option<Plug>
  {
    if !e.Write? || !e.ok then Some(plug)
    else if e.payload.Some? then
      var r := Fixpoint.Write(plug.config, e.section, e.payload.value);
      if r.None? then None else Some(plug.(config := r.value))
    else if e.section == "firmware" && p.firmware.Some? then
      var r := Firmware.FwRunAll(plug.schedule, Firmware.FwPlan(p.firmware.value, plug.schedule.jobs));
      if r.None? then None else Some(plug.(schedule := r.value))
    else if e.section == "schedule" && p.schedules.Some? then
      var r := Schedule.RunAll(p.schedules.value, plug.schedule, Schedule.Plan(p.schedules, plug.schedule.jobs));
      if r.None? then None else Some(plug.(schedule := r.value))
    else if e.section == "auth" then Some(plug)
    else None
  }

  function Played(p: Profile, plug: Plug, t: seq<Event>): Option<Plug>
  {
    if t == [] then Some(plug)
    else
      var r := Played(p, plug, t[..|t| - 1]);
      if r.None? then None else Take(p, r.value, t[|t| - 1])
  }

  lemma {:induction false} AfterOneMore(p: Profile, plug: Plug, desired: Config, pw: WifiPasswords, order: seq<string>, s: string)
    ensures AfterSections(p, plug, desired, pw, order + [s]) ==
              var r := AfterSections(p, plug, desired, pw, order);
              if r.None? then None else AfterSection(p, r.value, desired, pw, s)
    decreases |order|
  {
    if order == [] {
      assert (order + [s])[1..] == [];
    } else {
      assert (order + [s])[1..] == order[1..] + [s];
      var r := AfterSection(p, plug, desired, pw, order[0]);
      if r.Some? {
        AfterOneMore(p, r.value, desired, pw, order[1..], s);
      }
    }
  }

  lemma TakenAsSection(p: Profile, plug: Plug, desired: Config, pw: WifiPasswords, s: string)
    ensures Take(p, plug, Event.Write(s, Sent(s, desired, pw), true)) == AfterSection(p, plug, desired, pw, s)
  {
  }

  lemma ShapeOfPrefix(ctx: Context, t: seq<Event>, n: nat)
    requires Shape(ctx, t) && n <= |t|
    ensures Shape(ctx, t[..n])
  {
    forall i | 0 <= i < n ensures Allowed(ctx, t[..n][..i], t[..n][i]) {
      assert t[..n][..i] == t[..i];
      assert Allowed(ctx, t[..i], t[i]);
    }
  }

  /** Taking the trace's writes one by one is applying its answered sections in order, with what was rendered at the start. */
  lemma {:induction false} PlayedIsPass(ctx: Context, t: seq<Event>, key: Option<string>, plug: Plug)
    requires Shape(ctx, t) && OneUi(ctx.config) && Chosen(ctx.inp.profile, key, ctx.config)
    ensures
      var p := ctx.inp.profile;
      Played(p, plug, t) == AfterSections(p, plug, Render(p.config, ctx.inp.name, key, ctx.config), ctx.pw, Answered(t))
    decreases |t|
  {
    var p := ctx.inp.profile;
    var desired := Render(p.config, ctx.inp.name, key, ctx.config);
    if t != [] {
      var n, e := |t| - 1, t[|t| - 1];
      ShapeOfPrefix(ctx, t, n);
      PlayedIsPass(ctx, t[..n], key, plug);
      if e.Write? && e.ok {
        var key', desired' := WriteIsRendered(ctx, t, n);
        SameRender(p, ctx.inp.name, key, key', ctx.config);
        AfterOneMore(p, plug, desired, ctx.pw, Answered(t[..n]), e.section);
        var r := Played(p, plug, t[..n]);
        if r.Some? {
          TakenAsSection(p, r.value, desired, ctx.pw, e.section);
        }
      } else {
        assert Answered(t[..n]) + [] == Answered(t[..n]);
      }
    }
  }

  /**
   What the calls themselves do: a device that takes the writes of a trace which answered
   every drifted section shows nothing more to find.
   */
  lemma PlayedConverges(ctx: Context, t: seq<Event>, key: Option<string>, start: Plug, authEnabled: bool)
    requires Shape(ctx, t) && OneUi(ctx.config) && start.config == ctx.config && start.schedule.Valid() && Chosen(ctx.inp.profile, key, ctx.config)
    requires FindingsOf(ctx.inp.profile, ctx.inp.name, key, start.Shown(), authEnabled).Ok?
    requires
      var order := WriteOrder(FindingsOf(ctx.inp.profile, ctx.inp.name, key, start.Shown(), authEnabled).value);
      Answered(t) == order && forall s :: s in order ==> Writable(ctx.inp.profile, start, s)
    ensures
      var p, name := ctx.inp.profile, ctx.inp.name;
      var fs := FindingsOf(p, name, key, start.Shown(), authEnabled).value;
      var r := Played(p, start, t);
      r.Some? && FindingsOf(p, name, key, r.value.Shown(), AuthAfter(p, fs, authEnabled)) == Ok([])
  {
    PlayedIsPass(ctx, t, key, start);
    OneCycleConverges(ctx.inp.profile, ctx.inp.name, key, start, authEnabled, ctx.pw);
  }
}
