/**
 * The older Electron entry point (electron/main.ts): its own copy of the
 * scheduler registry, a single overlay slot, the rule that closing the
 * main window only hides it until the app is quitting, and the fallback
 * used when the renderer's sound settings cannot be read.
 *
 * The overlay slot is modelled like the overlay manager: windows are
 * abstract handles, `close()` is a request that puts a window in
 * `closing` until its "closed" event arrives, and a window's auto-close
 * timeout, armed when the window is created, is pending while its window
 * is in `pending`.
 */
module MainProcess {
  import opened Js
  import opened Wire
  import Scheduler

  // ---------------------------------------------------------------------
  // Sound settings
  // ---------------------------------------------------------------------

  /** What the script run in the main window's page can come back with. */
  datatype SettingsRead =
    | ScriptFailed
    | NothingStored
    | ParseFailed
    | Stored(soundEnabled: Option<bool>, soundVolume: Option<int>)

  /**
   * `getSoundSettings()`: the stored settings, each field defaulting with
   * `??`, when the main window is alive and the read succeeds; otherwise
   * {soundEnabled: true, soundVolume: 30}.
   */
  function GetSoundSettings(mainWindowAlive: bool, read: SettingsRead): (settings: SoundSettings)
    ensures !mainWindowAlive || !read.Stored? ==> settings == DefaultSoundSettings
    ensures mainWindowAlive && read.Stored? ==>
              && (read.soundEnabled.Some? ==> settings.soundEnabled == read.soundEnabled.value)
              && (read.soundEnabled.None? ==> settings.soundEnabled)
              && (read.soundVolume.Some? ==> settings.soundVolume == read.soundVolume.value)
              && (read.soundVolume.None? ==> settings.soundVolume == 30)
  {
    if !mainWindowAlive then DefaultSoundSettings
    else match read
      case Stored(enabled, volume) => SoundSettings(enabled.GetOr(true), volume.GetOr(30))
      case _ => DefaultSoundSettings
  }

  /** The close rule of the main window: it is hidden instead of closed unless the app is quitting. */
  function ClosePrevented(isQuitting: bool): (prevented: bool) {
    !isQuitting
  }

  // ---------------------------------------------------------------------
  // The overlay slot
  // ---------------------------------------------------------------------

  /** The `overlayWindow` slot together with the host's windows and timeouts. */
  datatype Slot = Slot(
    slot: Option<nat>,
    open: set<nat>,
    closing: set<nat>,
    pending: set<nat>,
    delays: map<nat, int>,
    nextHandle: nat)

  const NoOverlay := Slot(None, {}, {}, {}, map[], 0)

  /** A window is alive (not destroyed) until its "closed" event. */
  predicate Alive(s: Slot, w: nat) {
    w in s.open
  }

  /** A window on screen that has not been asked to close. */
  predicate Shown(s: Slot, w: nat) {
    w in s.open && w !in s.closing
  }

  /**
   * Only created windows are open, closing or timed; the slot holds a shown
   * window whose auto-close is pending; and every shown window is the one in
   * the slot.
   */
  ghost predicate SlotInv(s: Slot) {
    && s.closing <= s.open
    && s.pending <= s.open
    && s.open <= s.delays.Keys
    && (forall w | w in s.delays :: w < s.nextHandle)
    && (s.slot.Some? ==> Shown(s, s.slot.value) && s.slot.value in s.pending)
    && (forall w: nat | Shown(s, w) :: s.slot == Some(w))
  }

  /** `window.close()`: a live window is asked to close. */
  function RequestClose(s: Slot, w: nat): Slot {
    if Alive(s, w) then s.(closing := s.closing + {w}) else s
  }

  /**
   * `createOverlayWindow(...)`: ask the window in the slot to close, open a
   * new window in the slot and arm its auto-close after displayMinutes
   * minutes.
   */
  function AfterCreate(s: Slot, displayMinutes: int): Slot {
    var c := if s.slot.Some? then RequestClose(s, s.slot.value) else s;
    var w := c.nextHandle;
    c.(slot := Some(w), open := c.open + {w}, pending := c.pending + {w},
       delays := c.delays[w := displayMinutes * 60 * 1000], nextHandle := w + 1)
  }

  /** The auto-close timeout of window w fires: whatever live window is in the slot is closed and the slot emptied. */
  function AfterAutoClose(s: Slot, w: nat): Slot {
    var c := s.(pending := s.pending - {w});
    if c.slot.Some? && Alive(c, c.slot.value) then RequestClose(c, c.slot.value).(slot := None) else c
  }

  /** The "close-overlay" message: a live window in the slot is closed and the slot emptied; otherwise nothing. */
  function AfterCloseOverlay(s: Slot): Slot {
    if s.slot.Some? && Alive(s, s.slot.value) then RequestClose(s, s.slot.value).(slot := None) else s
  }

  /** Window w is gone: it leaves the host's tables and its own auto-close is cleared. */
  function Gone(s: Slot, w: nat): Slot {
    s.(open := s.open - {w}, closing := s.closing - {w}, pending := s.pending - {w})
  }

  /** The "closed" event of w, with the slot emptied only when w is the window in it. */
  function AfterClosed(s: Slot, w: nat): Slot {
    Gone(s, w).(slot := if s.slot == Some(w) then None else s.slot)
  }

  /** The "closed" event of w as electron/main.ts handles it: the slot is emptied whichever window it holds. */
  function AfterClosedAsWritten(s: Slot, w: nat): Slot {
    Gone(s, w).(slot := None)
  }

  lemma NoOverlayInv()
    ensures SlotInv(NoOverlay)
  {
  }

  lemma CreateKeepsInv(s: Slot, displayMinutes: int)
    requires SlotInv(s)
    ensures SlotInv(AfterCreate(s, displayMinutes))
  {
  }

  lemma AutoCloseKeepsInv(s: Slot, w: nat)
    requires SlotInv(s)
    ensures SlotInv(AfterAutoClose(s, w))
  {
  }

  lemma CloseOverlayKeepsInv(s: Slot)
    requires SlotInv(s)
    ensures SlotInv(AfterCloseOverlay(s))
  {
  }

  lemma ClosedKeepsInv(s: Slot, w: nat)
    requires SlotInv(s) && w in s.open
    ensures SlotInv(AfterClosed(s, w))
  {
  }

  /** At most one overlay is on screen, and it is the one in the slot. */
  lemma AtMostOneOverlayShown(s: Slot, w1: nat, w2: nat)
    requires SlotInv(s) && Shown(s, w1) && Shown(s, w2)
    ensures w1 == w2 && s.slot == Some(w1)
  {
  }

  /** Creating an overlay asks the previous one to close; the new window is the only one on screen. */
  lemma CreateClosesPrevious(s: Slot, displayMinutes: int)
    requires SlotInv(s)
    ensures var r := AfterCreate(s, displayMinutes);
            && (forall w: nat :: Shown(r, w) <==> w == s.nextHandle)
            && r.slot == Some(s.nextHandle) && s.nextHandle in r.pending
            && r.delays[s.nextHandle] == displayMinutes * 60000
            && (s.slot.Some? ==> s.slot.value in r.closing)
  {
    var r := AfterCreate(s, displayMinutes);
    assert forall w | w in s.open :: w < s.nextHandle;
    assert forall w: nat | Shown(r, w) && w != s.nextHandle :: Shown(s, w);
  }

  /** The overlay on screen is taken down both by its own auto-close and by "close-overlay". */
  lemma ShownOverlayCanBeClosed(s: Slot, w: nat)
    requires SlotInv(s) && Shown(s, w)
    ensures w in s.pending
    ensures !Shown(AfterAutoClose(s, w), w) && AfterAutoClose(s, w).slot == None
    ensures !Shown(AfterCloseOverlay(s), w) && AfterCloseOverlay(s).slot == None
  {
  }

  /** "close-overlay" with an empty slot, or a slot whose window is destroyed, changes nothing. */
  lemma CloseOverlayWithoutLiveSlot(s: Slot)
    requires s.slot.None? || !Alive(s, s.slot.value)
    ensures AfterCloseOverlay(s) == s
  {
  }

  /** Two test notifications in a row: window 0, then window 1 while window 0 is still closing. */
  const TwoOverlays := Slot(Some(1), {0, 1}, {0}, {0, 1}, map[0 := 60000, 1 := 60000], 2)

  lemma TwoTestNotifications()
    ensures AfterCreate(AfterCreate(NoOverlay, 1), 1) == TwoOverlays
  {
  }

  /**
   * Window 0's "closed" event arrives after window 1 took the slot. As
   * electron/main.ts handles it, window 1 stays on screen out of the slot:
   * its own auto-close and "close-overlay" both leave it there.
   */
  lemma StaleClosedHandlerAsWritten()
    ensures var bad := AfterClosedAsWritten(TwoOverlays, 0);
            && Shown(bad, 1) && bad.slot == None && !SlotInv(bad)
            && Shown(AfterAutoClose(bad, 1), 1)
            && Shown(AfterCloseOverlay(bad), 1)
  {
    var bad := AfterClosedAsWritten(TwoOverlays, 0);
    assert Shown(bad, 1);
  }

  /** The same events with the corrected handler: window 1 keeps the slot and its auto-close closes it. */
  lemma StaleClosedHandlerCorrected()
    ensures var good := AfterClosed(TwoOverlays, 0);
            && SlotInv(good) && good.slot == Some(1)
            && !Shown(AfterAutoClose(good, 1), 1)
  {
    var good := AfterClosed(TwoOverlays, 0);
    assert SlotInv(TwoOverlays);
    ClosedKeepsInv(TwoOverlays, 0);
    ShownOverlayCanBeClosed(good, 1);
  }

  // ---------------------------------------------------------------------
  // The process state
  // ---------------------------------------------------------------------

  /**
   * The module-level state of electron/main.ts: its scheduler registry
   * (which uses the mis-encoded default icon and does not pass reminder ids
   * on), the overlay slot, the main window's visibility, the tray and the
   * `isQuitting` flag.
   */
  class Process {
    const scheduler: Scheduler.Registry
    var slot: Option<nat>
    var open: set<nat>
    var closing: set<nat>
    var pending: set<nat>
    var delays: map<nat, int>
    var nextHandle: nat
    var isQuitting: bool
    var mainWindowVisible: bool
    var trayPresent: bool

    function Overlay(): Slot
      reads this
    {
      Slot(slot, open, closing, pending, delays, nextHandle)
    }

    constructor ()
      ensures fresh(scheduler) && scheduler.Valid()
      ensures scheduler.defaultIcon == Scheduler.LegacyDefaultIcon && !scheduler.tagsReminderId
      ensures scheduler.intervals == map[] && scheduler.checkers == map[]
      ensures Overlay() == NoOverlay && SlotInv(Overlay())
      ensures !isQuitting && mainWindowVisible && trayPresent
    {
      scheduler := new Scheduler.Registry(Scheduler.LegacyDefaultIcon, false);
      slot, open, closing, pending, delays, nextHandle := None, {}, {}, {}, map[], 0;
      isQuitting, mainWindowVisible, trayPresent := false, true, true;
    }

    /** `createOverlayWindow(...)`: the window in the slot is asked to close and a new one takes the slot. */
    method CreateOverlayWindow(displayMinutes: int) returns (w: nat)
      modifies this
      ensures Overlay() == AfterCreate(old(Overlay()), displayMinutes)
      ensures w == old(nextHandle) && slot == Some(w)
      ensures isQuitting == old(isQuitting) && mainWindowVisible == old(mainWindowVisible) && trayPresent == old(trayPresent)
    {
      if slot.Some? && slot.value in open {
        closing := closing + {slot.value};
      }
      w := nextHandle;
      nextHandle := nextHandle + 1;
      slot := Some(w);
      open := open + {w};
      pending := pending + {w};
      delays := delays[w := displayMinutes * 60 * 1000];
    }

    /** The auto-close timeout of window w fires and closes whatever is in the slot. */
    method AutoCloseElapsed(w: nat)
      modifies this`pending, this`closing, this`slot
      ensures Overlay() == AfterAutoClose(old(Overlay()), w)
    {
      pending := pending - {w};
      CloseSlot();
    }

    /** The "close-overlay" message. */
    method CloseOverlay()
      modifies this`closing, this`slot
      ensures Overlay() == AfterCloseOverlay(old(Overlay()))
    {
      CloseSlot();
    }

    /** `if (overlayWindow && !overlayWindow.isDestroyed()) { overlayWindow.close(); overlayWindow = null; }` */
    method CloseSlot()
      modifies this`closing, this`slot
      ensures Overlay() == AfterCloseOverlay(old(Overlay()))
    {
      if slot.Some? && slot.value in open {
        closing := closing + {slot.value};
        slot := None;
      }
    }

    /** The "closed" event of w, with the slot emptied only when w holds it. */
    method OnOverlayClosed(w: nat)
      modifies this`open, this`closing, this`pending, this`slot
      ensures Overlay() == AfterClosed(old(Overlay()), w)
    {
      var ownsSlot := slot == Some(w);
      open, closing, pending := open - {w}, closing - {w}, pending - {w};
      if ownsSlot {
        slot := None;
      }
    }

    /** The "closed" event of w as electron/main.ts handles it. */
    method OnOverlayClosedAsWritten(w: nat)
      modifies this`open, this`closing, this`pending, this`slot
      ensures Overlay() == AfterClosedAsWritten(old(Overlay()), w)
    {
      open, closing, pending := open - {w}, closing - {w}, pending - {w};
      slot := None;
    }

    /** The main window's "close" event: returns whether the close was prevented (the window is hidden instead). */
    method OnMainWindowClose() returns (prevented: bool)
      modifies this`mainWindowVisible
      ensures prevented == ClosePrevented(isQuitting)
      ensures prevented ==> !mainWindowVisible
      ensures !prevented ==> mainWindowVisible == old(mainWindowVisible)
    {
      prevented := !isQuitting;
      if prevented {
        mainWindowVisible := false;
      }
    }

    /** The tray's "Quit" item: mark the app as quitting and clear every scheduler. */
    method TrayQuit()
      requires scheduler.Valid()
      modifies this`isQuitting, scheduler
      ensures isQuitting && scheduler.Valid()
      ensures scheduler.intervals == map[] && scheduler.checkers == map[]
      ensures scheduler.lastTriggers == map[] && scheduler.running == map[]
      ensures ClosePrevented(isQuitting) == false
    {
      isQuitting := true;
      scheduler.ClearAllSchedulers();
    }

    /** "before-quit": mark the app as quitting, clear every scheduler and destroy the tray. */
    method BeforeQuit()
      requires scheduler.Valid()
      modifies this`isQuitting, this`trayPresent, scheduler
      ensures isQuitting && !trayPresent && scheduler.Valid()
      ensures scheduler.intervals == map[] && scheduler.checkers == map[]
      ensures scheduler.lastTriggers == map[] && scheduler.running == map[]
    {
      isQuitting := true;
      scheduler.ClearAllSchedulers();
      trayPresent := false;
    }
  }
}
