/**
 The decisions of internal/controller/firmwareupdate.go: when a device counts as
 still installing, when the same version may be asked for again, when the fleet-wide
 slot is free, and what a status merge patch leaves in status.lastFirmwareUpdate.
 */
module FirmwareUpdate {
  import opened Wrappers
  import opened Times

  /** One operator-initiated Shelly.Update call, as persisted (whole-second time). */
  datatype Attempt = Attempt(time: nat, from: string, target: string, error: string, refused: bool)

  const UPDATE_SETTLE: nat := 20 * MINUTE

  const DEFAULT_SPACING: nat := 2 * MINUTE

  /** How long to leave the device alone; 0 when no update is in flight. */
  function UpdateInFlight(firmware: string, last: Option<Attempt>, now: nat): (wait: nat)
  {
    if last.None? || last.value.refused || firmware != last.value.from then 0
    else
      var remaining := UPDATE_SETTLE - (now - last.value.time);
      if remaining <= 0 then 0 else remaining
  }

  /** In flight exactly while an attempt from this very firmware, not refused, is younger than the settle time. */
  lemma InFlightExactly(firmware: string, last: Option<Attempt>, now: nat)
    ensures UpdateInFlight(firmware, last, now) > 0 <==>
              last.Some? && !last.value.refused && last.value.from == firmware && now - last.value.time < 20 * 60 * SECOND
  {
  }

  /** The wait is exact: a requeue after it, and none before it, finds the device free. */
  lemma WaitIsExact(firmware: string, last: Option<Attempt>, now: nat, later: nat)
    ensures UpdateInFlight(firmware, last, now + later) == 0 <==> UpdateInFlight(firmware, last, now) <= later
  {
  }

  /** The same version was asked for within the settle time and not refused. */
  predicate AskedRecently(last: Option<Attempt>, target: string, now: nat)
  {
    && last.Some?
    && !last.value.refused
    && last.value.target == target
    && now - last.value.time < UPDATE_SETTLE
  }

  /** The spacing in force: as configured, or two minutes. */
  function EffectiveSpacing(configured: int): (spacing: nat)
    ensures spacing > 0 && (configured > 0 ==> spacing == configured) && (configured <= 0 ==> spacing == 120 * SECOND)
  {
    if configured <= 0 then DEFAULT_SPACING else configured
  }

  /** No start known to this process, and no listed attempt, is closer than spacing. */
  predicate FleetQuiet(start: Option<nat>, listed: seq<Option<Attempt>>, spacing: nat, now: nat)
  {
    && (start.Some? ==> spacing <= now - start.value)
    && forall i :: 0 <= i < |listed| && listed[i].Some? ==> spacing <= now - listed[i].value.time
  }

  /** The in-memory half of the slot: the one field claimUpdateSlot guards with a mutex. */
  class UpdateSlot {
    var lastUpdateStart: Option<nat>

    constructor ()
      ensures lastUpdateStart == None
    {
      lastUpdateStart := None;
    }

    /**
     claimUpdateSlot after a successful List. The loop keeps only the latest instant;
     the contract says what that one comparison decides about every known attempt.
     */
    method ClaimUpdateSlot(listed: seq<Option<Attempt>>, configured: int, now: nat) returns (ok: bool)
      modifies this
      ensures ok <==> FleetQuiet(old(lastUpdateStart), listed, EffectiveSpacing(configured), now)
      ensures lastUpdateStart == if ok then Some(now) else old(lastUpdateStart)
    {
      var spacing := EffectiveSpacing(configured);
      var latest := lastUpdateStart;
      for i := 0 to |listed|
        invariant lastUpdateStart == old(lastUpdateStart)
        invariant latest == None <==> lastUpdateStart == None && forall k :: 0 <= k < i ==> listed[k].None?
        invariant lastUpdateStart.Some? ==> latest.Some? && lastUpdateStart.value <= latest.value
        invariant forall k :: 0 <= k < i && listed[k].Some? ==> latest.Some? && listed[k].value.time <= latest.value
        invariant latest.Some? ==>
            || latest == lastUpdateStart
            || exists k :: 0 <= k < i && listed[k].Some? && listed[k].value.time == latest.value
      {
        if listed[i].Some? && (latest.None? || listed[i].value.time > latest.value) {
          latest := Some(listed[i].value.time);
        }
      }
      if latest.Some? && now - latest.value < spacing {
        return false;
      }
      lastUpdateStart := Some(now);
      return true;
    }
  }

  /** The absent object, whose omitted fields all read as zero values. */
  const NO_ATTEMPT := Attempt(0, "", "", "", false)

  function OrZero(a: Option<Attempt>): Attempt
  {
    if a.Some? then a.value else NO_ATTEMPT
  }

  /** A merge patch carries only the fields in which base and want differ. */
  function PatchField<T(==)>(server: T, base: T, want: T): T
  {
    if base == want then server else want
  }

  /**
   status.lastFirmwareUpdate on the server after the merge patch computed from base to
   want (section 2 of RFC 7396). time and target are always serialised; the other three
   are omitted when zero, so an absent object and a zero field compare equal.
   */
  function Patched(server: Option<Attempt>, base: Option<Attempt>, want: Attempt): (stored: Attempt)
  {
    var s, b := OrZero(server), OrZero(base);
    Attempt(
      if base.None? then want.time else PatchField(s.time, b.time, want.time),
      PatchField(s.from, b.from, want.from),
      if base.None? then want.target else PatchField(s.target, b.target, want.target),
      PatchField(s.error, b.error, want.error),
      PatchField(s.refused, b.refused, want.refused))
  }

  /** The same request, whatever answer is recorded with it. */
  predicate SameRequest(a: Attempt, b: Attempt)
  {
    a.time == b.time && a.from == b.from && a.target == b.target
  }

  /** Patching from a base the server still has, or repeating a patch, stores want itself. */
  lemma PatchedFromCurrent(base: Option<Attempt>, want: Attempt)
    ensures Patched(base, base, want) == want
    ensures Patched(Some(want), base, want) == want
  {
  }

  /** A patch from a base to itself changes nothing, whatever the server has. */
  lemma EmptyPatchChangesNothing(server: Attempt, base: Attempt)
    ensures Patched(Some(server), Some(base), base) == server
  {
  }

  /**
   A patch computed from a base that missed the device's own last attempt would keep
   that attempt's refusal on the new request: the reason a reconcile must see its own
   last attempt.
   */
  lemma StaleBaseKeepsOldRefusal(want: Attempt, before: Attempt)
    requires !want.refused && before.refused
    ensures Patched(Some(before), None, want).refused
    ensures Patched(Some(before), Some(before), want) == want
  {
    PatchedFromCurrent(Some(before), want);
  }
}
