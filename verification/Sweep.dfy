/**
 Discovery sweeps (internal/discovery): refreshing devices that answered, then marking
 long-unseen ones offline, both by writes that succeed only on the newest version.
 */
module Sweep {
  import opened Wrappers
  import opened Times

  const DEFAULT_INTERVAL: nat := 5 * MINUTE

  /** The status fields a sweep writes, and one standing for everything it does not. */
  datatype Status = Status(online: bool, lastSeen: Option<nat>, rest: nat)

  /** Sweeper.init's settling of OfflineAfter: its default, and never under a second. */
  function EffectiveOfflineAfter(interval: int, offlineAfter: int): (d: nat)
    ensures d >= SECOND
    ensures offlineAfter >= SECOND ==> d == offlineAfter
    ensures offlineAfter <= 0 && interval <= 0 ==> d == 15 * 60 * SECOND
    ensures offlineAfter <= 0 && 3 * interval >= SECOND ==> d == 3 * interval
  {
    var every := if interval <= 0 then DEFAULT_INTERVAL else interval;
    var d := if offlineAfter <= 0 then 3 * every else offlineAfter;
    if d < SECOND then SECOND else d
  }

  /** The stale test: known online, seen at all, and not after the cutoff. */
  predicate IsStale(s: Status, cutoff: int)
  {
    s.online && s.lastSeen.Some? && s.lastSeen.value <= cutoff
  }

  /** A history, and what marking makes of it if nobody else writes: nothing, or its newest version marked if that is stale. */
  ghost predicate AtMostMarked(was: seq<Status>, now: seq<Status>, cutoff: int)
  {
    now == was || NowMarked(was, now, cutoff)
  }

  ghost predicate NowMarked(was: seq<Status>, now: seq<Status>, cutoff: int)
  {
    && was != []
    && var last := was[|was| - 1];
    last.online && last.lastSeen.Some? && last.lastSeen.value <= cutoff && now == was + [Status(false, last.lastSeen, last.rest)]
  }

  /** The stored objects with every version they have had; a version's number is its place. */
  class Store {
    var hist: map<string, seq<Status>>
    // The devices other writers have written.
    ghost var touched: set<string>

    constructor ()
      ensures hist == map[] && touched == {}
    {
      hist, touched := map[], {};
    }

    ghost predicate Valid()
      reads this
    {
      forall k :: k in hist ==> hist[k] != []
    }

    /** From version r on, the device has been shown online and last seen in the sweep that began at now. */
    ghost predicate Refreshed(k: string, r: nat, now: nat)
      reads this
    {
      k in hist && r < |hist[k]| && forall v :: r <= v < |hist[k]| ==> hist[k][v].online && hist[k][v].lastSeen == Some(Persisted(now))
    }

    /** History only grows, and no refreshed device is un-refreshed. */
    twostate predicate Keeps(now: nat)
      reads this
    {
      && (forall k :: k in old(hist) ==> k in hist && old(hist)[k] <= hist[k])
      && (forall k, r: nat :: old(Refreshed(k, r, now)) ==> Refreshed(k, r, now))
    }

    /** All devices but these are as they were, save where others wrote. */
    twostate predicate Leaves(ks: set<string>)
      reads this
    {
      && old(touched) <= touched
      && forall k :: k in old(hist) && k !in ks && k !in touched ==> k in hist && hist[k] == old(hist)[k]
    }

    /** Another writer's merge patch on one device, carrying neither online nor lastSeen. */
    method OtherPatch(k: string, rest: nat, now: nat)
      requires Valid() && k in hist
      modifies this
      ensures Valid() && Keeps(now) && Leaves({}) && hist.Keys == old(hist.Keys)
    {
      var s := hist[k][|hist[k]| - 1];
      hist := hist[k := hist[k] + [s.(rest := rest)]];
      touched := touched + {k};
    }

    /** Other writers, at any time: any number of such patches, on any devices. */
    method Interfere(now: nat)
      requires Valid()
      modifies this
      ensures Valid() && Keeps(now) && Leaves({}) && hist.Keys == old(hist.Keys)
    {
      var turns: int := *;
      while turns > 0
        invariant Valid() && Keeps(now) && Leaves({}) && hist.Keys == old(hist.Keys)
      {
        var k: string := *;
        var rest: int := *;
        if k in hist && rest >= 0 {
          OtherPatch(k, rest, now);
        }
        turns := turns - 1;
      }
    }

    /**
     A status update from version v: a conflict if v is not the newest any more; otherwise
     stored, unless it fails, in which case it may still have been stored.
     */
    method UpdateStatus(k: string, v: nat, s: Status) returns (r: Written)
      requires Valid() && k in hist && v < |hist[k]|
      modifies this`hist
      ensures Valid() && (r.Conflict? ==> v != |old(hist)[k]| - 1) && (r.Stored? ==> v == |old(hist)[k]| - 1)
      ensures r.Stored? ==> hist == old(hist)[k := old(hist)[k] + [s]]
      ensures r.Conflict? ==> hist == old(hist)
      ensures r.Failed? ==> hist == old(hist) || (v == |old(hist)[k]| - 1 && hist == old(hist)[k := old(hist)[k] + [s]])
    {
      var answered: bool, arrived: bool := *, *;
      var current := v == |hist[k]| - 1;
      if current && (answered || arrived) {
        hist := hist[k := hist[k] + [s]];
      }
      r := if !answered then Failed else if current then Stored else Conflict;
    }
  }

  /** How a conditional write is answered. */
  datatype Written = Stored | Conflict | Failed

  /**
   applyDevice: read some cached version, or create the object, then write the probe
   result on it. A conflict, or an object the cache did not know of, is left for the next
   sweep; anything else that fails is an error. So what is left is a device the cache had
   out of date, or that others wrote.
   */
  method ApplyDevice(store: Store, k: string, now: nat) returns (r: Written, cached: Option<nat>)
    requires store.Valid()
    modifies store
    ensures store.Valid() && store.Keeps(now) && store.Leaves({k})
    ensures r.Stored? ==> exists v: nat :: store.Refreshed(k, v, now)
    ensures r.Conflict? && k !in store.touched ==> k in old(store.hist) && cached != Some(|old(store.hist)[k]| - 1)
  {
    var version: int := *;
    cached := None;
    if version < 0 || k !in store.hist || version >= |store.hist[k]| {
      var failed: bool := *;
      if failed {
        return Failed, None;
      }
      if k in store.hist {
        return Conflict, None;
      }
      store.hist := store.hist[k := [Status(false, None, 0)]];
      r := WriteProbe(store, k, 0, now);
    } else {
      cached := Some(version);
      r := WriteProbe(store, k, version, now);
    }
  }

  /** The probe result written over the version read, after others have had their turn. */
  method WriteProbe(store: Store, k: string, v: nat, now: nat) returns (r: Written)
    requires store.Valid() && k in store.hist && v < |store.hist[k]|
    modifies store
    ensures store.Valid() && store.Keeps(now) && store.Leaves({k})
    ensures r.Stored? ==> exists v: nat :: store.Refreshed(k, v, now)
    ensures r.Conflict? && k !in store.touched ==> v != |old(store.hist)[k]| - 1
    ensures r.Stored? ==> store.hist[k] == old(store.hist)[k][..v + 1] + [Status(true, Some(Persisted(now)), old(store.hist)[k][v].rest)]
  {
    var read := store.hist[k][v];
    store.Interfere(now);
    r := store.UpdateStatus(k, v, read.(online := true, lastSeen := Some(Persisted(now))));
    if r.Stored? {
      assert store.Refreshed(k, |store.hist[k]| - 1, now);
    }
  }

  /**
   markStale over a list that may be out of date, with other writers in between. A device
   refreshed by the sweep is left alone: a listing older than the refresh conflicts, and
   one that includes it is seen later than the cutoff, though its time lost its fraction.
   Where nobody else writes, a stale device listed as it stands is marked, unless that is
   an error, and no other is touched.
   */
  method MarkStale(store: Store, list: seq<(string, nat)>, cutoff: int, now: nat) returns (errs: set<nat>)
    requires store.Valid() && cutoff + SECOND <= now
    requires forall i :: 0 <= i < |list| ==> list[i].0 in store.hist && list[i].1 < |store.hist[list[i].0]|
    modifies store
    ensures store.Valid() && store.Keeps(now) && old(store.touched) <= store.touched
    ensures forall k :: k in old(store.hist) && k !in store.touched ==> AtMostMarked(old(store.hist)[k], store.hist[k], cutoff)
    ensures forall i :: 0 <= i < |list| && i !in errs && IsStale(old(store.hist)[list[i].0][list[i].1], cutoff) ==>
              list[i].1 + 1 < |store.hist[list[i].0]|
    ensures forall i :: 0 <= i < |list| && i !in errs && list[i].0 !in store.touched && IsStale(old(store.hist)[list[i].0][list[i].1], cutoff) ==>
              list[i].1 == |old(store.hist)[list[i].0]| - 1 ==> NowMarked(old(store.hist)[list[i].0], store.hist[list[i].0], cutoff)
    ensures forall i :: i in errs ==> i < |list| && IsStale(old(store.hist)[list[i].0][list[i].1], cutoff)
  {
    errs := {};
    for i := 0 to |list|
      invariant store.Valid() && store.Keeps(now) && old(store.touched) <= store.touched
      invariant forall k :: k in old(store.hist) && k !in store.touched ==> AtMostMarked(old(store.hist)[k], store.hist[k], cutoff)
      invariant forall j :: 0 <= j < i && j !in errs && IsStale(old(store.hist)[list[j].0][list[j].1], cutoff) ==>
                  list[j].1 + 1 < |store.hist[list[j].0]|
      invariant forall j :: j in errs ==> j < i && IsStale(old(store.hist)[list[j].0][list[j].1], cutoff)
    {
      var failed := MarkOne(store, list[i].0, list[i].1, cutoff, now);
      if failed {
        errs := errs + {i};
      }
    }
  }

  /** One listed device, by the version listed. */
  method MarkOne(store: Store, k: string, v: nat, cutoff: int, now: nat) returns (failed: bool)
    requires store.Valid() && cutoff + SECOND <= now && k in store.hist && v < |store.hist[k]|
    modifies store
    ensures store.Valid() && store.Keeps(now) && store.Leaves({k})
    ensures failed ==> IsStale(old(store.hist)[k][v], cutoff)
    ensures !failed && IsStale(old(store.hist)[k][v], cutoff) ==> k in store.hist && v + 1 < |store.hist[k]|
    ensures k !in store.touched ==>
              if v == |old(store.hist)[k]| - 1 then AtMostMarked(old(store.hist)[k], store.hist[k], cutoff) else store.hist[k] == old(store.hist)[k]
  {
    var listed := store.hist[k][v];
    if !IsStale(listed, cutoff) {
      return false;
    }
    store.Interfere(now);
    PersistedBounds(now);
    var r := store.UpdateStatus(k, v, listed.(online := false));
    failed := r.Failed?;
  }

  /**
   RunOnce: refresh what answered, then mark what has not been seen for long. Whatever the
   start instant and the settings, a device the sweep refreshed is shown online, seen in
   this sweep, in every version from its refresh to the end; and so is any that was
   refreshed at this instant before. A device that did not answer and that nobody else
   writes is as it was, unless it was online and unseen for the whole offline time: then
   it ends offline, still seen when it was, if it was listed as it stood and no error hit it.
   */
  method RunOnce(store: Store, found: seq<string>, now: nat, interval: int, offlineAfter: int)
    returns (refreshed: set<string>, errs: nat, listed: seq<(string, nat)>, failed: set<nat>)
    requires store.Valid()
    modifies store
    ensures store.Valid() && store.Keeps(now)
    ensures forall k :: k in refreshed ==> exists r: nat :: store.Refreshed(k, r, now)
    ensures
      var cutoff := now - EffectiveOfflineAfter(interval, offlineAfter);
      forall k :: k in old(store.hist) && k !in found && k !in store.touched ==> AtMostMarked(old(store.hist)[k], store.hist[k], cutoff)
    ensures forall i :: 0 <= i < |listed| && i !in failed && listed[i].0 in old(store.hist) && listed[i].0 !in found && listed[i].0 !in store.touched ==>
              var was := old(store.hist)[listed[i].0];
              var last := was[|was| - 1];
              listed[i].1 == |was| - 1 && last.online && last.lastSeen.Some? && now - last.lastSeen.value >= EffectiveOfflineAfter(interval, offlineAfter) ==>
              store.hist[listed[i].0] == was + [Status(false, last.lastSeen, last.rest)]
  {
    refreshed, errs, listed, failed := {}, 0, [], {};
    store.touched := {};
    for i := 0 to |found|
      invariant store.Valid() && store.Keeps(now) && forall k :: k in refreshed ==> exists r: nat :: store.Refreshed(k, r, now)
      invariant forall k :: k in old(store.hist) && k !in found && k !in store.touched ==> k in store.hist && store.hist[k] == old(store.hist)[k]
    {
      var r, _ := ApplyDevice(store, found[i], now);
      match r
      case Stored => refreshed := refreshed + {found[i]};
      case Conflict =>
      case Failed => errs := errs + 1;
    }
    var list: seq<(string, nat)> := *;
    if forall i :: 0 <= i < |list| ==> list[i].0 in store.hist && list[i].1 < |store.hist[list[i].0]| {
      listed := list;
      failed := MarkStale(store, list, now - EffectiveOfflineAfter(interval, offlineAfter), now);
      errs := errs + |failed|;
    } else {
      errs := errs + 1;
    }
  }
}
