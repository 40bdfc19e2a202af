/** Daily windows for reboots and firmware updates (internal/controller/rebootwindow.go). */
module Window {
  import opened Wrappers

  /** A declared window: whether its zone is known, and its ends as minutes of the day where they parse. */
  datatype Window = Window(zoneKnown: bool, start: Option<nat>, end: Option<nat>)

  /** withinRebootWindow at the given minute of the day in the window's zone. */
  function WithinWindow(minute: nat, w: Option<Window>): Result<bool, string>
  {
    if w.None? then Ok(true)
    else if !w.value.zoneKnown then Err("timeZone")
    else if w.value.start.None? then Err("start")
    else if w.value.end.None? then Err("end")
    else
      var start, end := w.value.start.value, w.value.end.value;
      if start == end then Err("never opens")
      else if start < end then Ok(minute >= start && minute < end)
      else Ok(minute >= start || minute < end)
  }

  /**
   A proper window is an arc of the clock: the minutes from its start on, fewer than the
   arc is long, whether or not it wraps over midnight. An empty or unreadable one never
   opens, and none at all is always open.
   */
  lemma WindowIsArc(minute: nat, w: Window)
    requires minute < 1440 && (w.start.Some? ==> w.start.value < 1440) && (w.end.Some? ==> w.end.value < 1440)
    ensures WithinWindow(minute, Some(w)) == Ok(true) <==>
              && w.zoneKnown && w.start.Some? && w.end.Some?
              && (minute - w.start.value) % 1440 < (w.end.value - w.start.value) % 1440
    ensures WithinWindow(minute, Some(w)).Err? <==> !w.zoneKnown || w.start.None? || w.end.None? || w.start == w.end
    ensures WithinWindow(minute, None) == Ok(true)
  {
    if w.start.Some? && w.end.Some? {
      var m, e := minute - w.start.value, w.end.value - w.start.value;
      assert m % 1440 == if m < 0 then m + 1440 else m;
      assert e % 1440 == if e < 0 then e + 1440 else e;
    }
  }
}
