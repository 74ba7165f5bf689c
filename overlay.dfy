/**
 * The overlay window manager of the main process
 * (electron/windows/overlayWindow.ts): full-screen reminder windows, at
 * most one per reminder id, tracked in a map from reminder id to its set of
 * windows, plus one "legacy" slot for overlays opened without an id (test
 * notifications), each with an auto-close timeout armed when the window is
 * first shown.
 *
 * Windows and timeouts are abstract handles drawn from one counter.
 * `window.close()` is a request: the window joins `closing` and stays in
 * `open` until the host delivers its "closed" event, which the host may
 * also deliver for a window the user closed directly. `timers` is the
 * host's table of pending timeouts.
 *
 * Each event is a function from one `Tables` value to the next, with a
 * lemma that it keeps `Inv`; the `OverlayManager` class holds the same
 * state in fields and its methods are proved to perform those functions.
 */
module Overlay {
  import opened Js

  /** The record kept for each window (`OverlayWindowData`); `autoClose` is the timeout stored on it. */
  datatype OverlayData = OverlayData(reminderId: Option<string>, displayMinutes: int, autoClose: Option<nat>)

  /** A pending auto-close timeout: the window it closes and its delay. */
  datatype Timeout = Timeout(window: nat, delayMs: int)

  /** The manager's variables together with the host's windows and timers. */
  datatype Tables = Tables(
    windows: map<nat, OverlayData>,
    byId: map<string, set<nat>>,
    legacyWindow: Option<nat>,
    legacyTimeout: Option<nat>,
    open: set<nat>,
    closing: set<nat>,
    timers: map<nat, Timeout>,
    nextHandle: nat)

  const Initial := Tables(map[], map[], None, None, {}, {}, map[], 0)

  /** `if (reminderId)`: a present, non-empty id. */
  predicate Keyed(reminderId: Option<string>) {
    reminderId.Some? && reminderId.value != ""
  }

  /** A window that is on screen and has not been asked to close. */
  predicate Shown(s: Tables, w: nat) {
    w in s.windows && w in s.open && w !in s.closing
  }

  /** Handles are below the counter, and only known windows are open or closing. */
  ghost predicate HandlesInv(s: Tables) {
    && (forall w | w in s.windows :: w < s.nextHandle)
    && (forall t | t in s.timers :: t < s.nextHandle)
    && (forall w | w in s.windows && s.windows[w].autoClose.Some? :: s.windows[w].autoClose.value < s.nextHandle)
    && s.open <= s.windows.Keys
    && s.closing <= s.open
  }

  /**
   * Every pending timeout is the one stored on a shown window, every shown
   * window's armed timeout is pending, and a window's stored timeout, while
   * pending, closes that window.
   */
  ghost predicate TimersInv(s: Tables) {
    && (forall t | t in s.timers ::
          Shown(s, s.timers[t].window) && s.windows[s.timers[t].window].autoClose == Some(t))
    && (forall w | w in s.windows && s.windows[w].autoClose.Some? ::
          && (Shown(s, w) ==> s.windows[w].autoClose.value in s.timers)
          && (s.windows[w].autoClose.value in s.timers ==> s.timers[s.windows[w].autoClose.value].window == w))
  }

  /** Every id in the map has exactly one window, shown and carrying that id, and every shown keyed window is in its id's set. */
  ghost predicate TrackInv(s: Tables) {
    && (forall k | k in s.byId ::
          k != "" && |s.byId[k]| == 1 && forall w | w in s.byId[k] :: Shown(s, w) && s.windows[w].reminderId == Some(k))
    && (forall w | Shown(s, w) && Keyed(s.windows[w].reminderId) ::
          s.windows[w].reminderId.value in s.byId && w in s.byId[s.windows[w].reminderId.value])
  }

  /** Every shown window without an id is the legacy window, and the legacy timeout is the legacy window's own. */
  ghost predicate LegacyInv(s: Tables) {
    && (forall w | Shown(s, w) && !Keyed(s.windows[w].reminderId) :: s.legacyWindow == Some(w))
    && (s.legacyWindow.Some? ==>
          s.legacyWindow.value in s.open && s.legacyWindow.value in s.windows
          && !Keyed(s.windows[s.legacyWindow.value].reminderId))
    && s.legacyTimeout == (if s.legacyWindow.Some? && s.legacyWindow.value in s.windows
                           then s.windows[s.legacyWindow.value].autoClose else None)
  }

  ghost predicate Inv(s: Tables) {
    HandlesInv(s) && TimersInv(s) && TrackInv(s) && LegacyInv(s)
  }

  // ---------------------------------------------------------------------
  // Events as functions
  // ---------------------------------------------------------------------

  /** The timeouts stored on the windows of ws. */
  function StoredTimeouts(windows: map<nat, OverlayData>, ws: set<nat>): set<nat> {
    set w | w in ws && w in windows && windows[w].autoClose.Some? :: windows[w].autoClose.value
  }

  /** The windows tracked under the ids of ks. */
  function TrackedIn(byId: map<string, set<nat>>, ks: set<string>): set<nat> {
    set k, w | k in ks && k in byId && w in byId[k] :: w
  }

  /** Close each window of ws: clear the timeout stored on it and ask it to close if it is open. */
  function AfterCloseWindows(s: Tables, ws: set<nat>): Tables {
    s.(timers := s.timers - StoredTimeouts(s.windows, ws), closing := s.closing + ws * s.open)
  }

  /** `windowsSet.delete(data)`, and the id leaves the map when its set empties. */
  function Untrack(byId: map<string, set<nat>>, k: string, w: nat): map<string, set<nat>>
    requires k in byId
  {
    var rest := byId[k] - {w};
    if rest == {} then byId - {k} else byId[k := rest]
  }

  /** `clearAutoCloseTimeout()` */
  function AfterClearLegacyTimeout(s: Tables): Tables {
    if s.legacyTimeout.Some? then s.(timers := s.timers - {s.legacyTimeout.value}, legacyTimeout := None) else s
  }

  /** `closeOverlaysByReminderId(k)` */
  function AfterCloseById(s: Tables, k: string): Tables {
    if k in s.byId then AfterCloseWindows(s, s.byId[k]).(byId := s.byId - {k}) else s
  }

  /**
   * `closeAllOverlays()`: close every tracked window, empty the map, clear
   * the legacy timeout, and close and empty the legacy slot if its window is
   * still open.
   */
  function AfterCloseAll(s: Tables): Tables {
    var c := AfterClearLegacyTimeout(AfterCloseWindows(s, TrackedIn(s.byId, s.byId.Keys)).(byId := map[]));
    if c.legacyWindow.Some? && c.legacyWindow.value in c.open
    then c.(closing := c.closing + {c.legacyWindow.value}, legacyWindow := None)
    else c
  }

  /** A new window opens and is tracked under its id, or takes the legacy slot. */
  function AfterOpen(c: Tables, displayMinutes: int, reminderId: Option<string>): Tables {
    var w := c.nextHandle;
    c.(nextHandle := w + 1,
       windows := c.windows[w := OverlayData(reminderId, displayMinutes, None)],
       open := c.open + {w},
       byId := if Keyed(reminderId) then c.byId[reminderId.value := {w}] else c.byId,
       legacyWindow := if Keyed(reminderId) then c.legacyWindow else Some(w))
  }

  /** `createOverlayWindow(...)`: close the same id's windows (or all), then open a new window. */
  function AfterCreate(s: Tables, displayMinutes: int, reminderId: Option<string>): Tables {
    var c := if Keyed(reminderId) then AfterCloseById(s, reminderId.value) else AfterCloseAll(s);
    AfterOpen(c, displayMinutes, reminderId)
  }

  /**
   * "ready-to-show", then `setupAutoClose`: arm a displayMinutes timeout and
   * store it on the window; for an unkeyed window it also replaces the
   * legacy timeout.
   */
  function AfterReady(s: Tables, w: nat): Tables
    requires w in s.windows
  {
    var t := s.nextHandle;
    var data := s.windows[w];
    var base := if Keyed(data.reminderId) then s else AfterClearLegacyTimeout(s);
    base.(nextHandle := t + 1,
          timers := base.timers[t := Timeout(w, data.displayMinutes * 60 * 1000)],
          windows := s.windows[w := data.(autoClose := Some(t))],
          legacyTimeout := if Keyed(data.reminderId) then s.legacyTimeout else Some(t))
  }

  /** The auto-close timeout t fires: its window is asked to close and a keyed window leaves its id's set. */
  function AfterAutoClose(s: Tables, t: nat): Tables
    requires t in s.timers && s.timers[t].window in s.windows
  {
    var w := s.timers[t].window;
    var rid := s.windows[w].reminderId;
    s.(timers := s.timers - {t},
       closing := if w in s.open then s.closing + {w} else s.closing,
       byId := if Keyed(rid) && rid.value in s.byId then Untrack(s.byId, rid.value, w) else s.byId)
  }

  /** The window leaves the screen; the keyed half of the "closed" handler. */
  function AfterClosedKeyed(s: Tables, w: nat): Tables
    requires w in s.windows
  {
    var rid := s.windows[w].reminderId;
    var gone := s.(open := s.open - {w}, closing := s.closing - {w});
    if Keyed(rid) && rid.value in s.byId then
      gone.(timers := if s.windows[w].autoClose.Some? then s.timers - {s.windows[w].autoClose.value} else s.timers,
            byId := Untrack(s.byId, rid.value, w))
    else gone
  }

  /** The "closed" event, with the legacy slot emptied only by the window that holds it. */
  function AfterClosed(s: Tables, w: nat): Tables
    requires w in s.windows
  {
    if Keyed(s.windows[w].reminderId) then AfterClosedKeyed(s, w)
    else if s.legacyWindow == Some(w) then AfterClearLegacyTimeout(AfterClosedKeyed(s, w)).(legacyWindow := None)
    else AfterClosedKeyed(s, w)
  }

  /** The "closed" event as electron/windows/overlayWindow.ts handles it: any unkeyed window empties the legacy slot. */
  function AfterClosedAsWritten(s: Tables, w: nat): Tables
    requires w in s.windows
  {
    if Keyed(s.windows[w].reminderId) then AfterClosedKeyed(s, w)
    else AfterClearLegacyTimeout(AfterClosedKeyed(s, w)).(legacyWindow := None)
  }

  // ---------------------------------------------------------------------
  // Set facts
  // ---------------------------------------------------------------------

  lemma SingletonMember(a: set<nat>, w: nat)
    requires w in a && |a| == 1
    ensures a == {w}
  {
    var rest := a - {w};
    assert a == rest + {w};
    assert |rest| == 0;
  }

  lemma SubsetCard(a: set<nat>, b: set<nat>)
    requires a <= b
    ensures |a| <= |b|
  {
    assert b == a + (b - a);
  }

  lemma StoredTimeoutsOfOne(windows: map<nat, OverlayData>, w: nat)
    requires w in windows
    ensures StoredTimeouts(windows, {w}) == if windows[w].autoClose.Some? then {windows[w].autoClose.value} else {}
  {
  }

  lemma StoredTimeoutsUnion(windows: map<nat, OverlayData>, a: set<nat>, b: set<nat>)
    ensures StoredTimeouts(windows, a + b) == StoredTimeouts(windows, a) + StoredTimeouts(windows, b)
  {
  }

  lemma TrackedInAdd(byId: map<string, set<nat>>, ks: set<string>, k: string)
    requires k in byId
    ensures TrackedIn(byId, ks + {k}) == TrackedIn(byId, ks) + byId[k]
  {
    forall w | w in byId[k] ensures w in TrackedIn(byId, ks + {k}) {
      assert k in ks + {k};
    }
  }

  // ---------------------------------------------------------------------
  // Every event keeps the invariant
  // ---------------------------------------------------------------------

  lemma InitialInv()
    ensures Inv(Initial)
  {
  }

  /** Under the invariant an id's set is the single window carrying that id. */
  lemma TrackedWindow(s: Tables, k: string) returns (w: nat)
    requires TrackInv(s) && k in s.byId
    ensures s.byId[k] == {w} && Shown(s, w) && s.windows[w].reminderId == Some(k)
  {
    assert |s.byId[k]| == 1;
    w :| w in s.byId[k];
    SingletonMember(s.byId[k], w);
  }

  /** A shown window is asked to close and loses its timeout and its place in the map. */
  function Dismiss(s: Tables, w: nat): Tables
    requires w in s.windows
  {
    var rid := s.windows[w].reminderId;
    s.(timers := s.timers - StoredTimeouts(s.windows, {w}),
       closing := s.closing + {w},
       byId := if Keyed(rid) then s.byId - {rid.value} else s.byId)
  }

  lemma DismissTimers(s: Tables, w: nat)
    requires HandlesInv(s) && TimersInv(s) && Shown(s, w)
    ensures TimersInv(Dismiss(s, w))
  {
    StoredTimeoutsOfOne(s.windows, w);
  }

  lemma DismissTrack(s: Tables, w: nat)
    requires TrackInv(s) && Shown(s, w)
    ensures TrackInv(Dismiss(s, w))
  {
    var rid := s.windows[w].reminderId;
    if Keyed(rid) {
      var v := TrackedWindow(s, rid.value);
    }
  }

  lemma DismissKeepsInv(s: Tables, w: nat)
    requires Inv(s) && Shown(s, w)
    ensures Inv(Dismiss(s, w))
  {
    DismissTimers(s, w);
    DismissTrack(s, w);
  }

  /** A window leaves the screen and every trace of it goes: its timeout, its id's entry, the legacy slot. */
  function Remove(s: Tables, w: nat): Tables
    requires w in s.windows
  {
    var rid := s.windows[w].reminderId;
    var slot := s.legacyWindow == Some(w);
    s.(open := s.open - {w},
       closing := s.closing - {w},
       timers := s.timers - StoredTimeouts(s.windows, {w}),
       byId := if Keyed(rid) && rid.value in s.byId && w in s.byId[rid.value] then s.byId - {rid.value} else s.byId,
       legacyWindow := if slot then None else s.legacyWindow,
       legacyTimeout := if slot then None else s.legacyTimeout)
  }

  lemma RemoveTimers(s: Tables, w: nat)
    requires HandlesInv(s) && TimersInv(s) && w in s.windows
    ensures TimersInv(Remove(s, w))
  {
    StoredTimeoutsOfOne(s.windows, w);
  }

  lemma RemoveTrack(s: Tables, w: nat)
    requires TrackInv(s) && w in s.windows
    ensures TrackInv(Remove(s, w))
  {
    var rid := s.windows[w].reminderId;
    if Keyed(rid) && rid.value in s.byId {
      var v := TrackedWindow(s, rid.value);
    }
  }

  lemma RemoveLegacy(s: Tables, w: nat)
    requires LegacyInv(s) && w in s.windows
    ensures LegacyInv(Remove(s, w))
  {
  }

  lemma RemoveKeepsInv(s: Tables, w: nat)
    requires Inv(s) && w in s.windows
    ensures Inv(Remove(s, w))
  {
    RemoveTimers(s, w);
    RemoveTrack(s, w);
    RemoveLegacy(s, w);
  }

  lemma CloseByIdIsDismiss(s: Tables, k: string) returns (w: nat)
    requires Inv(s) && k in s.byId
    ensures Shown(s, w) && s.windows[w].reminderId == Some(k)
    ensures AfterCloseById(s, k) == Dismiss(s, w)
  {
    w := TrackedWindow(s, k);
  }

  lemma CloseByIdKeepsInv(s: Tables, k: string)
    requires Inv(s)
    ensures Inv(AfterCloseById(s, k))
  {
    if k in s.byId {
      var w := CloseByIdIsDismiss(s, k);
      DismissKeepsInv(s, w);
    }
  }

  lemma AutoCloseIsDismiss(s: Tables, t: nat)
    requires Inv(s) && t in s.timers
    ensures Shown(s, s.timers[t].window)
    ensures AfterAutoClose(s, t) == Dismiss(s, s.timers[t].window)
  {
    var w := s.timers[t].window;
    StoredTimeoutsOfOne(s.windows, w);
    var rid := s.windows[w].reminderId;
    if Keyed(rid) {
      var v := TrackedWindow(s, rid.value);
    }
  }

  lemma AutoCloseKeepsInv(s: Tables, t: nat)
    requires Inv(s) && t in s.timers
    ensures s.timers[t].window in s.windows
    ensures Inv(AfterAutoClose(s, t))
  {
    AutoCloseIsDismiss(s, t);
    DismissKeepsInv(s, s.timers[t].window);
  }

  lemma ClosedIsRemove(s: Tables, w: nat)
    requires Inv(s) && w in s.open
    ensures AfterClosed(s, w) == Remove(s, w)
  {
    var rid := s.windows[w].reminderId;
    if Keyed(rid) && rid.value in s.byId && w in s.byId[rid.value] {
      ClosedTrackedIsRemove(s, w);
    } else if !Keyed(rid) && s.legacyWindow == Some(w) {
      ClosedLegacyIsRemove(s, w);
    } else {
      ClosedStrayIsRemove(s, w);
    }
  }

  lemma ClosedTrackedIsRemove(s: Tables, w: nat)
    requires TrackInv(s) && LegacyInv(s) && w in s.windows
    requires Keyed(s.windows[w].reminderId)
    requires s.windows[w].reminderId.value in s.byId && w in s.byId[s.windows[w].reminderId.value]
    ensures AfterClosed(s, w) == Remove(s, w)
  {
    StoredTimeoutsOfOne(s.windows, w);
    var v := TrackedWindow(s, s.windows[w].reminderId.value);
    assert s.byId[s.windows[w].reminderId.value] - {w} == {};
  }

  lemma ClosedLegacyIsRemove(s: Tables, w: nat)
    requires LegacyInv(s) && w in s.windows
    requires !Keyed(s.windows[w].reminderId) && s.legacyWindow == Some(w)
    ensures AfterClosed(s, w) == Remove(s, w)
  {
    StoredTimeoutsOfOne(s.windows, w);
  }

  /** A window that is neither tracked nor in the legacy slot is not shown, so no timeout of its own is pending. */
  lemma ClosedStrayIsRemove(s: Tables, w: nat)
    requires TimersInv(s) && TrackInv(s) && LegacyInv(s) && w in s.windows
    requires !(Keyed(s.windows[w].reminderId) && s.windows[w].reminderId.value in s.byId && w in s.byId[s.windows[w].reminderId.value])
    requires !(!Keyed(s.windows[w].reminderId) && s.legacyWindow == Some(w))
    ensures AfterClosed(s, w) == Remove(s, w)
  {
    StoredTimeoutsOfOne(s.windows, w);
    var rid := s.windows[w].reminderId;
    assert !Shown(s, w);
    assert s.timers - StoredTimeouts(s.windows, {w}) == s.timers;
    if Keyed(rid) && rid.value in s.byId {
      var v := TrackedWindow(s, rid.value);
      assert s.byId[rid.value] - {w} == {v};
      assert s.byId[rid.value := {v}] == s.byId;
    }
  }

  lemma ClosedKeepsInv(s: Tables, w: nat)
    requires Inv(s) && w in s.open
    ensures Inv(AfterClosed(s, w))
  {
    ClosedIsRemove(s, w);
    RemoveKeepsInv(s, w);
  }

  /** From a state where the invariant holds, closing everything leaves no timer, no id and no legacy window. */
  lemma CloseAllUnderInv(s: Tables)
    requires Inv(s)
    ensures AfterCloseAll(s) == s.(byId := map[], legacyWindow := None, legacyTimeout := None, timers := map[], closing := s.open)
    ensures Inv(AfterCloseAll(s))
  {
    var tracked := TrackedIn(s.byId, s.byId.Keys);
    CloseAllTimers(s);
    forall w: nat | Shown(s, w)
      ensures w in tracked || s.legacyWindow == Some(w)
    {
      ShownWindowIsReachable(s, w);
    }
    forall w | w in tracked
      ensures w in s.open
    {
      var k :| k in s.byId && w in s.byId[k];
    }
  }

  lemma CloseAllTimers(s: Tables)
    requires Inv(s)
    ensures s.timers - StoredTimeouts(s.windows, TrackedIn(s.byId, s.byId.Keys))
              - (if s.legacyTimeout.Some? then {s.legacyTimeout.value} else {}) == map[]
  {
    var tracked := TrackedIn(s.byId, s.byId.Keys);
    forall t | t in s.timers
      ensures t in StoredTimeouts(s.windows, tracked) || s.legacyTimeout == Some(t)
    {
      ShownWindowIsReachable(s, s.timers[t].window);
    }
  }

  /** A shown window is tracked under its id or holds the legacy slot, and its pending timeout is reachable from there. */
  lemma ShownWindowIsReachable(s: Tables, w: nat)
    requires Inv(s) && Shown(s, w)
    ensures var tracked := TrackedIn(s.byId, s.byId.Keys);
            && (w in tracked || s.legacyWindow == Some(w))
            && (s.windows[w].autoClose.Some? ==>
                  s.windows[w].autoClose.value in StoredTimeouts(s.windows, tracked) || s.legacyTimeout == s.windows[w].autoClose)
  {
    var tracked := TrackedIn(s.byId, s.byId.Keys);
    var rid := s.windows[w].reminderId;
    if Keyed(rid) {
      assert w in s.byId[rid.value];
      assert w in tracked;
    }
  }

  lemma OpenKeepsInv(c: Tables, displayMinutes: int, reminderId: Option<string>)
    requires Inv(c)
    requires Keyed(reminderId) ==> reminderId.value !in c.byId
    requires !Keyed(reminderId) ==> c.legacyWindow == None
    ensures Inv(AfterOpen(c, displayMinutes, reminderId))
  {
    OpenTimers(c, displayMinutes, reminderId);
    OpenTrack(c, displayMinutes, reminderId);
    OpenLegacy(c, displayMinutes, reminderId);
  }

  lemma OpenTimers(c: Tables, displayMinutes: int, reminderId: Option<string>)
    requires HandlesInv(c) && TimersInv(c)
    ensures TimersInv(AfterOpen(c, displayMinutes, reminderId))
  {
  }

  lemma OpenTrack(c: Tables, displayMinutes: int, reminderId: Option<string>)
    requires HandlesInv(c) && TrackInv(c)
    requires Keyed(reminderId) ==> reminderId.value !in c.byId
    ensures TrackInv(AfterOpen(c, displayMinutes, reminderId))
  {
    var r := AfterOpen(c, displayMinutes, reminderId);
    var n := c.nextHandle;
    assert n !in c.windows;
    assert forall w: nat :: Shown(r, w) <==> Shown(c, w) || w == n;
    forall k | k in r.byId
      ensures k != "" && |r.byId[k]| == 1
      ensures forall w | w in r.byId[k] :: Shown(r, w) && r.windows[w].reminderId == Some(k)
    {
      if Keyed(reminderId) && k == reminderId.value {
        assert r.byId[k] == {n};
      } else {
        assert r.byId[k] == c.byId[k];
        var v := TrackedWindow(c, k);
        assert v != n && r.windows[v] == c.windows[v];
      }
    }
    forall w: nat | Shown(r, w) && Keyed(r.windows[w].reminderId)
      ensures r.windows[w].reminderId.value in r.byId && w in r.byId[r.windows[w].reminderId.value]
    {
      if w != n {
        assert Shown(c, w) && r.windows[w] == c.windows[w];
      }
    }
  }

  lemma OpenLegacy(c: Tables, displayMinutes: int, reminderId: Option<string>)
    requires HandlesInv(c) && LegacyInv(c)
    requires !Keyed(reminderId) ==> c.legacyWindow == None
    ensures LegacyInv(AfterOpen(c, displayMinutes, reminderId))
  {
  }

  lemma CreateKeepsInv(s: Tables, displayMinutes: int, reminderId: Option<string>)
    requires Inv(s)
    ensures Inv(AfterCreate(s, displayMinutes, reminderId))
  {
    if Keyed(reminderId) {
      CloseByIdKeepsInv(s, reminderId.value);
      OpenKeepsInv(AfterCloseById(s, reminderId.value), displayMinutes, reminderId);
    } else {
      CloseAllUnderInv(s);
      OpenKeepsInv(AfterCloseAll(s), displayMinutes, reminderId);
    }
  }

  lemma ReadyKeepsInv(s: Tables, w: nat)
    requires Inv(s) && Shown(s, w) && s.windows[w].autoClose.None?
    ensures Inv(AfterReady(s, w))
  {
    ReadyTimers(s, w);
    ReadyTrack(s, w);
    ReadyLegacy(s, w);
  }

  lemma ReadyTimers(s: Tables, w: nat)
    requires HandlesInv(s) && TimersInv(s) && LegacyInv(s) && Shown(s, w) && s.windows[w].autoClose.None?
    ensures TimersInv(AfterReady(s, w))
  {
  }

  lemma ReadyTrack(s: Tables, w: nat)
    requires TrackInv(s) && w in s.windows
    ensures TrackInv(AfterReady(s, w))
  {
  }

  lemma ReadyLegacy(s: Tables, w: nat)
    requires LegacyInv(s) && Shown(s, w) && s.windows[w].autoClose.None?
    ensures LegacyInv(AfterReady(s, w))
  {
  }

  // ---------------------------------------------------------------------
  // What the invariant and the events promise
  // ---------------------------------------------------------------------

  /** At most one shown overlay carries a given reminder id, and at most one shown overlay has none. */
  lemma OneOverlayPerReminder(s: Tables, w1: nat, w2: nat)
    requires Inv(s)
    requires Shown(s, w1) && Shown(s, w2)
    requires s.windows[w1].reminderId == s.windows[w2].reminderId
             || (!Keyed(s.windows[w1].reminderId) && !Keyed(s.windows[w2].reminderId))
    ensures w1 == w2
  {
    if Keyed(s.windows[w1].reminderId) {
      var v := TrackedWindow(s, s.windows[w1].reminderId.value);
    }
  }

  /** A keyed overlay replaces every window of its id and leaves the windows of other ids on screen. */
  lemma CreateKeyedReplaces(s: Tables, displayMinutes: int, k: string)
    requires Inv(s) && k != ""
    ensures var r := AfterCreate(s, displayMinutes, Some(k));
            && Shown(r, s.nextHandle)
            && (forall w | Shown(r, w) && r.windows[w].reminderId == Some(k) :: w == s.nextHandle)
            && (forall w | Shown(s, w) && s.windows[w].reminderId != Some(k) :: Shown(r, w))
  {
    var r := AfterCreate(s, displayMinutes, Some(k));
    CreateKeepsInv(s, displayMinutes, Some(k));
    forall w | Shown(r, w) && r.windows[w].reminderId == Some(k)
      ensures w == s.nextHandle
    {
      OneOverlayPerReminder(r, w, s.nextHandle);
    }
    if k in s.byId {
      var v := TrackedWindow(s, k);
    }
  }

  /** An overlay without an id asks every other overlay to close and leaves nothing pending or tracked. */
  lemma CreateUnkeyedClosesAll(s: Tables, displayMinutes: int, reminderId: Option<string>)
    requires Inv(s) && !Keyed(reminderId)
    ensures var r := AfterCreate(s, displayMinutes, reminderId);
            && (forall w :: Shown(r, w) <==> w == s.nextHandle)
            && r.timers == map[] && r.byId == map[] && r.legacyWindow == Some(s.nextHandle)
  {
    CloseAllUnderInv(s);
  }

  /** The first test notification's overlay, shown: window 0 with timeout 1. */
  const FirstShown := Tables(map[0 := OverlayData(None, 1, Some(1))], map[], Some(0), Some(1),
                             {0}, {}, map[1 := Timeout(0, 60000)], 2)

  /** The second test notification's overlay, shown: window 2 with timeout 3, window 0 still closing. */
  const SecondShown := Tables(map[0 := OverlayData(None, 1, Some(1)), 2 := OverlayData(None, 1, Some(3))], map[],
                              Some(2), Some(3), {0, 2}, {0}, map[3 := Timeout(2, 60000)], 4)

  lemma FirstTestNotification()
    ensures AfterReady(AfterCreate(Initial, 1, None), 0) == FirstShown
  {
    assert TrackedIn(map[], {}) == {};
    assert AfterCloseAll(Initial) == Initial;
  }

  lemma SecondTestNotification()
    ensures AfterReady(AfterCreate(FirstShown, 1, None), 2) == SecondShown
  {
    assert TrackedIn(map[], {}) == {};
    assert AfterCloseAll(FirstShown)
           == Tables(map[0 := OverlayData(None, 1, Some(1))], map[], None, None, {0}, {0}, map[], 2);
  }

  lemma SecondShownInv()
    ensures Inv(SecondShown)
  {
  }

  /**
   * Two test notifications in a row, the second shown before the first's
   * "closed" event arrives. As the source handles that event, the second
   * overlay stays on screen with no pending auto-close and out of the legacy
   * slot, so neither its timeout nor `closeAllOverlays` can close it.
   */
  lemma StaleClosedHandlerAsWritten()
    ensures AfterReady(AfterCreate(AfterReady(AfterCreate(Initial, 1, None), 0), 1, None), 2) == SecondShown
    ensures var bad := AfterClosedAsWritten(SecondShown, 0);
            && Shown(bad, 2) && bad.windows[2].reminderId == None
            && bad.timers == map[] && bad.legacyWindow == None && !Inv(bad)
            && Shown(AfterCloseAll(bad), 2)
  {
    FirstTestNotification();
    SecondTestNotification();
    var bad := AfterClosedAsWritten(SecondShown, 0);
    assert bad.timers == map[];
    assert Shown(bad, 2) && bad.windows[2].autoClose == Some(3);
  }

  /** The same events with the corrected handler: the second overlay keeps its slot and its timeout. */
  lemma StaleClosedHandlerCorrected()
    ensures var good := AfterClosed(SecondShown, 0);
            && Inv(good) && Shown(good, 2) && good.legacyWindow == Some(2) && 3 in good.timers
  {
    SecondShownInv();
    ClosedKeepsInv(SecondShown, 0);
  }

  // ---------------------------------------------------------------------
  // The manager
  // ---------------------------------------------------------------------

  /**
   * The manager's state in fields. Each method is proved to perform the
   * event function of the same name on `Snapshot()`, so the `*KeepsInv`
   * lemmas above carry `Valid()` from one event to the next.
   */
  class OverlayManager {
    var windows: map<nat, OverlayData>
    var byId: map<string, set<nat>>
    var legacyWindow: Option<nat>
    var legacyTimeout: Option<nat>
    var open: set<nat>
    var closing: set<nat>
    var timers: map<nat, Timeout>
    var nextHandle: nat

    function Snapshot(): Tables
      reads this
    {
      Tables(windows, byId, legacyWindow, legacyTimeout, open, closing, timers, nextHandle)
    }

    ghost predicate Valid()
      reads this
    {
      Inv(Snapshot())
    }

    constructor ()
      ensures Valid() && Snapshot() == Initial
    {
      windows, byId, legacyWindow, legacyTimeout := map[], map[], None, None;
      open, closing, timers, nextHandle := {}, {}, map[], 0;
    }

    /** Close each window of ws: clear the timeout stored on it and ask it to close if it is still open. */
    method CloseWindows(ws: set<nat>)
      modifies this`timers, this`closing
      ensures timers == old(timers) - StoredTimeouts(windows, ws)
      ensures closing == old(closing) + ws * open
    {
      var rest := ws;
      while rest != {}
        invariant rest <= ws
        invariant timers == old(timers) - StoredTimeouts(windows, ws - rest)
        invariant closing == old(closing) + (ws - rest) * open
        decreases rest
      {
        var w :| w in rest;
        ghost var before := ws - rest;
        StoredTimeoutsUnion(windows, before, {w});
        if w in windows && windows[w].autoClose.Some? {
          StoredTimeoutsOfOne(windows, w);
          timers := timers - {windows[w].autoClose.value};
        } else {
          assert StoredTimeouts(windows, {w}) == {};
        }
        if w in open {
          closing := closing + {w};
        }
        rest := rest - {w};
        assert ws - rest == before + {w};
      }
    }

    /** `clearAutoCloseTimeout()`: cancel the legacy timeout, if any. */
    method ClearAutoCloseTimeout()
      modifies this`timers, this`legacyTimeout
      ensures Snapshot() == AfterClearLegacyTimeout(old(Snapshot()))
    {
      if legacyTimeout.Some? {
        timers := timers - {legacyTimeout.value};
        legacyTimeout := None;
      }
    }

    /** `closeOverlaysByReminderId(k)`: k's windows are asked to close and lose their timeouts, and k leaves the map. */
    method CloseOverlaysByReminderId(k: string)
      modifies this
      ensures Snapshot() == AfterCloseById(old(Snapshot()), k)
    {
      if k in byId {
        CloseWindows(byId[k]);
        byId := byId - {k};
      }
    }

    /** The `forEach` over the map: every tracked window is closed and loses its timeout. */
    method CloseTracked()
      modifies this`timers, this`closing
      ensures timers == old(timers) - StoredTimeouts(windows, TrackedIn(byId, byId.Keys))
      ensures closing == old(closing) + TrackedIn(byId, byId.Keys) * open
    {
      var keys := byId.Keys;
      ghost var handled: set<string> := {};
      ghost var done: set<nat> := {};
      while keys != {}
        invariant handled + keys == byId.Keys && handled !! keys
        invariant done == TrackedIn(byId, handled)
        invariant timers == old(timers) - StoredTimeouts(windows, done)
        invariant closing == old(closing) + done * open
        decreases keys
      {
        var k :| k in keys;
        CloseWindows(byId[k]);
        TrackedInAdd(byId, handled, k);
        StoredTimeoutsUnion(windows, done, byId[k]);
        done := done + byId[k];
        handled := handled + {k};
        keys := keys - {k};
      }
    }

    /** `closeAllOverlays()`: every tracked window and the legacy window are asked to close. */
    method CloseAllOverlays()
      modifies this
      ensures Snapshot() == AfterCloseAll(old(Snapshot()))
    {
      CloseTracked();
      byId := map[];
      ClearAutoCloseTimeout();
      if legacyWindow.Some? && legacyWindow.value in open {
        closing := closing + {legacyWindow.value};
        legacyWindow := None;
      }
    }

    /**
     * `createOverlayWindow(...)`: a keyed request first closes that id's
     * windows, an unkeyed one closes every overlay; then a new window opens
     * and is tracked under its id or takes the legacy slot.
     */
    method CreateOverlayWindow(displayMinutes: int, reminderId: Option<string>) returns (w: nat)
      modifies this
      ensures Snapshot() == AfterCreate(old(Snapshot()), displayMinutes, reminderId)
      ensures w == old(nextHandle)
    {
      if Keyed(reminderId) {
        CloseOverlaysByReminderId(reminderId.value);
      } else {
        CloseAllOverlays();
      }
      w := nextHandle;
      nextHandle := nextHandle + 1;
      windows := windows[w := OverlayData(reminderId, displayMinutes, None)];
      open := open + {w};
      if Keyed(reminderId) {
        byId := byId[reminderId.value := {w}];
      } else {
        legacyWindow := Some(w);
      }
    }

    /** "ready-to-show" on window w: `setupAutoClose` arms its timeout, which the method returns. */
    method ReadyToShow(w: nat) returns (t: nat)
      requires w in windows
      modifies this
      ensures Snapshot() == AfterReady(old(Snapshot()), w)
      ensures t == old(nextHandle)
    {
      t := nextHandle;
      var data := windows[w];
      if !Keyed(data.reminderId) {
        ClearAutoCloseTimeout();
        legacyTimeout := Some(t);
      }
      nextHandle := nextHandle + 1;
      timers := timers[t := Timeout(w, data.displayMinutes * 60 * 1000)];
      windows := windows[w := data.(autoClose := Some(t))];
    }

    /** The auto-close timeout t fires. */
    method AutoCloseElapsed(t: nat)
      requires t in timers && timers[t].window in windows
      modifies this
      ensures Snapshot() == AfterAutoClose(old(Snapshot()), t)
    {
      var w := timers[t].window;
      var rid := windows[w].reminderId;
      timers := timers - {t};
      if w in open {
        closing := closing + {w};
      }
      if Keyed(rid) && rid.value in byId {
        byId := Untrack(byId, rid.value, w);
      }
    }

    /** The "closed" event of w, with the legacy slot emptied only by the window that holds it. */
    method OnClosed(w: nat)
      requires w in windows
      modifies this
      ensures Snapshot() == AfterClosed(old(Snapshot()), w)
    {
      var rid := windows[w].reminderId;
      var ownsSlot := legacyWindow == Some(w);
      LeaveScreen(w);
      if !Keyed(rid) && ownsSlot {
        ClearAutoCloseTimeout();
        legacyWindow := None;
      }
    }

    /** The "closed" event of w as electron/windows/overlayWindow.ts handles it. */
    method OnClosedAsWritten(w: nat)
      requires w in windows
      modifies this
      ensures Snapshot() == AfterClosedAsWritten(old(Snapshot()), w)
    {
      var rid := windows[w].reminderId;
      LeaveScreen(w);
      if !Keyed(rid) {
        ClearAutoCloseTimeout();
        legacyWindow := None;
      }
    }

    /** The window leaves the screen; a keyed window clears its own timeout and leaves its id's set. */
    method LeaveScreen(w: nat)
      requires w in windows
      modifies this
      ensures Snapshot() == AfterClosedKeyed(old(Snapshot()), w)
    {
      var rid := windows[w].reminderId;
      open := open - {w};
      closing := closing - {w};
      if Keyed(rid) && rid.value in byId {
        if windows[w].autoClose.Some? {
          timers := timers - {windows[w].autoClose.value};
        }
        byId := Untrack(byId, rid.value, w);
      }
    }
  }
}
