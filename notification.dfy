/**
 * The notification dispatcher of the main process
 * (electron/services/notificationService.ts): what one fire of a reminder
 * sets off. The stored sound settings and whether the platform supports
 * system notifications are arguments; the effects are returned in the
 * order the dispatcher starts them.
 */
module Notification {
  import opened Js
  import opened Wire
  import Scheduler

  const Title := "Focus Reminder Desktop"

  /** The arguments of `createOverlayWindow`. */
  datatype OverlayRequest = OverlayRequest(
    icon: string,
    message: string,
    color: string,
    displayMinutes: int,
    soundEnabled: bool,
    soundVolume: int,
    reminderId: Option<string>)

  datatype Effect =
    | PlaySound(volume: int)
    | ShowSystemNotification(title: string, body: string, silent: bool, critical: bool, onClick: OverlayRequest)
    | OpenOverlay(request: OverlayRequest)

  /**
   * `showNotification(icon, message, color, displayMinutes, reminderId)`:
   * a sound when sound is enabled, a critical system notification when the
   * platform supports them (clicking it opens the same overlay again), and
   * always, last, the full-screen overlay.
   */
  function ShowNotification(icon: string, message: string, color: string, displayMinutes: int,
                            reminderId: Option<string>, settings: SoundSettings, notificationSupported: bool)
    : (effects: seq<Effect>)
    ensures |effects| >= 1
    ensures effects[|effects| - 1] ==
              OpenOverlay(OverlayRequest(icon, message, color, displayMinutes,
                                         settings.soundEnabled, settings.soundVolume, reminderId))
    ensures forall i | 0 <= i < |effects| - 1 :: !effects[i].OpenOverlay?
    ensures PlaySound(settings.soundVolume) in effects <==> settings.soundEnabled
    ensures forall e | e in effects && e.PlaySound? :: e == PlaySound(settings.soundVolume)
    ensures (exists e | e in effects :: e.ShowSystemNotification?) <==> notificationSupported
    ensures forall e | e in effects && e.ShowSystemNotification? ::
              && e.title == Title
              && e.body == icon + " " + message
              && e.silent == !settings.soundEnabled
              && e.critical
              && OpenOverlay(e.onClick) == effects[|effects| - 1]
  {
    var request := OverlayRequest(icon, message, color, displayMinutes,
                                  settings.soundEnabled, settings.soundVolume, reminderId);
    var notification := ShowSystemNotification(Title, icon + " " + message, !settings.soundEnabled, true, request);
    var effects := (if settings.soundEnabled then [PlaySound(settings.soundVolume)] else [])
                   + (if notificationSupported then [notification] else [])
                   + [OpenOverlay(request)];
    assert notificationSupported ==> notification in effects;
    effects
  }

  /** What a scheduler fire hands to the dispatcher. */
  function Dispatch(n: Scheduler.Notice, settings: SoundSettings, notificationSupported: bool): seq<Effect> {
    ShowNotification(n.icon, n.message, n.color, n.displayMinutes, n.reminderId, settings, notificationSupported)
  }

  /**
   * A fire of an enabled reminder opens an overlay that carries the
   * reminder's message, its icon or the default, and its id when the
   * registry tags fires with the id.
   */
  lemma FireOpensOverlayForReminder(r: Reminder, defaultIcon: string, tagsReminderId: bool,
                                    settings: SoundSettings, notificationSupported: bool)
    ensures var effects := Dispatch(Scheduler.NoticeOf(r, defaultIcon, tagsReminderId), settings, notificationSupported);
            var last := effects[|effects| - 1];
            && last.OpenOverlay?
            && last.request.message == r.message
            && last.request.icon == (if StrTruthy(r.icon) then r.icon.value else defaultIcon)
            && last.request.displayMinutes == (if NumTruthy(r.displayMinutes) then r.displayMinutes.value else 1)
            && (last.request.reminderId == Some(r.id) <==> tagsReminderId)
  {
    Scheduler.NoticeDefaults(r, defaultIcon, tagsReminderId);
  }
}
