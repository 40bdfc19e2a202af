/** The spacing bound across a restart is exact: a run in which the whole lost second shows. */
module UpdateBounds {
  import opened Wrappers
  import opened Times
  import opened FirmwareUpdate
  import opened UpdateProtocol
  import opened UpdateSafety

  lemma Extend(run: seq<State>, s: State, step: Step)
    requires Run(run) && Next(run[|run| - 1], s, step)
    ensures Run(run + [s])
  {
    var more := run + [s];
    forall i | 0 <= i < |more| - 1 ensures StepsAt(more, i) {
      if i < |run| - 1 {
        assert StepsAt(run, i);
      }
    }
  }

  const FIRMWARE := "1.0"
  const TARGET := "1.1"

  function Reading(d: Device, now: nat): Worker
  {
    Worker(Cycle(d, now, FIRMWARE, None, {None}), Working)
  }

  /** Two devices, the clock one nanosecond short of a whole second, and a reconcile of the first. */
  lemma Beginning(spacing: nat) returns (run: seq<State>, s: State)
    requires spacing > 0
    ensures Run(run) && run[|run| - 1] == s
    ensures
      var objs := map["a" := Obj(0, FIRMWARE, None, {FIRMWARE}), "b" := Obj(0, FIRMWARE, None, {FIRMWARE})];
      s == State(SECOND - 1, spacing, 0, None, objs, map[], map[0 := Reading("a", SECOND - 1)], map[], [], {}, {}, {}, {},
                 [Begun("a", SECOND - 1, FIRMWARE)])
  {
    var s0 := State(SECOND - 1, spacing, 0, None, map[], map[], map[], map[], [], {}, {}, {}, {}, []);
    run := [s0];
    var s1 := s0.(objs := s0.objs["a" := Obj(0, FIRMWARE, None, {FIRMWARE})]);
    Extend(run, s1, Step.Create("a", FIRMWARE));
    run := run + [s1];
    var s2 := s1.(objs := s1.objs["b" := Obj(0, FIRMWARE, None, {FIRMWARE})]);
    Extend(run, s2, Step.Create("b", FIRMWARE));
    run := run + [s2];
    s := s2.(workers := map[0 := Reading("a", SECOND - 1)], log := [Begun("a", SECOND - 1, FIRMWARE)]);
    assert BeginStep(s2, s, 0, "a", FIRMWARE);
    Extend(run, s, Begin(0, "a", FIRMWARE));
    run := run + [s];
  }

  const WANT := Attempt(0, FIRMWARE, TARGET, "", false)

  /** It claims the first slot. */
  lemma Granted(spacing: nat) returns (run: seq<State>, s: State)
    requires spacing > 0
    ensures Run(run) && run[|run| - 1] == s
    ensures s.clock == SECOND - 1 && s.spacing == spacing && s.slots == [Slot(0, SECOND - 1, "a")] && s.epoch == 0
    ensures s.workers == map[0 := Reading("a", SECOND - 1).(phase := Claimed(TARGET, 0))] && s.objs.Keys == {"a", "b"}
    ensures s.sent == {} && s.objs["b"] == s.objs["a"] == Obj(0, FIRMWARE, None, {FIRMWARE})
  {
    var s0;
    run, s0 := Beginning(spacing);
    var s1 := Advance(s0, 0, Listed(TARGET, []));
    Extend(run, s1, Step.List(0, TARGET, []));
    run := run + [s1];
    s := Advance(s1, 0, Claimed(TARGET, 0)).(lastStart := Some(SECOND - 1), slots := [Slot(0, SECOND - 1, "a")]);
    Extend(run, s, Claim(0));
    run := run + [s];
  }

  /** Its attempt is made out and stored. */
  lemma Stored(spacing: nat) returns (run: seq<State>, s: State)
    requires spacing > 0
    ensures Run(run) && run[|run| - 1] == s
    ensures s.clock == SECOND - 1 && s.spacing == spacing && s.slots == [Slot(0, SECOND - 1, "a")] && s.sent == {}
    ensures 0 in s.workers && s.workers[0].cycle.dev == "a" && s.workers[0].phase == Recording(WANT, 0, true, false)
    ensures s.objs.Keys == {"a", "b"} && s.objs["b"] == Obj(0, FIRMWARE, None, {FIRMWARE}) && s.objs["a"].last == Some(WANT)
  {
    var s0;
    run, s0 := Granted(spacing);
    var s1 := Advance(s0, 0, Recording(WANT, 0, false, false));
    assert Persisted(SECOND - 1) == 0;
    Extend(run, s1, Stamp(0, FIRMWARE));
    run := run + [s1];
    PatchedFromCurrent(None, WANT);
    s := ApplyPatch(s1, 0, None);
    Extend(run, s, Step.Patch(0, None));
    run := run + [s];
  }

  /** Its update is sent, and the process dies. */
  lemma SentAndCrashed(spacing: nat) returns (run: seq<State>, s: State)
    requires spacing > 0
    ensures Run(run) && run[|run| - 1] == s
    ensures s.clock == SECOND - 1 && s.spacing == spacing && s.slots == [Slot(0, SECOND - 1, "a")] && s.sent == {0}
    ensures s.lastStart == None && s.workers == map[] && s.boot == s.objs && s.objs.Keys == {"a", "b"}
    ensures s.objs["b"] == Obj(0, FIRMWARE, None, {FIRMWARE}) && s.objs["a"].last == Some(WANT)
  {
    var s0;
    run, s0 := Stored(spacing);
    var s1 := Advance(s0, 0, Ready(WANT, 0));
    Extend(run, s1, RecordEnd(0, true));
    run := run + [s1];
    var s2 := Advance(s1, 0, Sending(WANT, 0)).(sent := s1.sent + {0}, log := s1.log + [Sent("a", SECOND - 1, 0, WANT)]);
    Extend(run, s2, Send(0));
    run := run + [s2];
    s := s2.(workers := map[], probes := map[], lastStart := None, epoch := s2.epoch + 1, boot := s2.objs);
    Extend(run, s, Crash);
    run := run + [s];
  }

  /**
   After the restart a second slot is granted one nanosecond more than the spacing less
   one second after the first: no bound better than SendsAreSpaced's holds of every run.
   */
  lemma LostSecond(spacing: nat) returns (run: seq<State>, s: State)
    requires spacing >= SECOND
    ensures Run(run) && run[|run| - 1] == s && s.spacing == spacing
    ensures |s.slots| == 2 && 0 in s.sent && s.slots[1].at - s.slots[0].at == spacing - SECOND + 1
  {
    var s0;
    run, s0 := SentAndCrashed(spacing);
    var dt := spacing - SECOND + 1;
    var s1 := s0.(clock := s0.clock + dt);
    Extend(run, s1, Tick(dt));
    run := run + [s1];
    var s2 := s1.(workers := map[0 := Reading("b", spacing)], log := s1.log + [Begun("b", spacing, FIRMWARE)]);
    assert BeginStep(s1, s2, 0, "b", FIRMWARE);
    Extend(run, s2, Begin(0, "b", FIRMWARE));
    run := run + [s2];
    var list := [s2.objs["a"].last];
    assert list[0].Some?;
    var s3 := Advance(s2, 0, Listed(TARGET, list));
    Extend(run, s3, Step.List(0, TARGET, list));
    run := run + [s3];
    s := Advance(s3, 0, Claimed(TARGET, 1)).(lastStart := Some(spacing), slots := s3.slots + [Slot(s3.epoch, spacing, "b")]);
    Extend(run, s, Claim(0));
    run := run + [s];
  }
}
