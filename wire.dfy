/**
 * The records that cross from the renderer to the Electron main process:
 * the reminder the scheduler reads and the sound settings the dispatcher
 * reads. Fields the main process may receive as `undefined` are optional.
 */
module Wire {
  import opened Js

  const IntervalType := "interval"
  const ScheduledType := "scheduled"

  /** The reminder shape `scheduleReminder` reads (id, text, icon, type, timing, enabled). */
  datatype Reminder = Reminder(
    id: string,
    message: string,
    icon: Option<string>,
    color: string,
    kind: Option<string>,
    interval: Option<int>,
    times: Option<seq<string>>,
    displayMinutes: Option<int>,
    enabled: Option<bool>)

  datatype SoundSettings = SoundSettings(soundEnabled: bool, soundVolume: int)

  /** The fallback used whenever the stored settings cannot be read. */
  const DefaultSoundSettings := SoundSettings(true, 30)
}
