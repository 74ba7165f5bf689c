# Focus Reminder Desktop: a verified model of the reminder engine

Focus Reminder Desktop is an Electron tray application. It shows a
full-screen overlay, a system notification and a sound whenever a reminder
falls due. A reminder falls due either every N minutes ("interval") or at
listed clock times each day ("scheduled"). This project models the
decision-making core of the application in Dafny and proves properties of it.

On the main-process side it covers:

- the scheduler registry: one interval timer or one once-a-minute
  fixed-time checker per reminder id, plus a memo of the minute each checker
  last fired;
- the overlay window registry: per-id sets of windows, the legacy slot for
  overlays without an id, and the auto-close timeouts;
- the older single-slot overlay, the quit rule and the sound-settings
  fallback of `electron/main.ts`;
- the effect list a fire produces.

On the renderer side it covers:

- the reminder store and the scheduler commands each of its actions sends;
- the legacy-record conversion and the payload conversion;
- the form helpers, time-list editing and form state;
- the settings store;
- the start/stop state of the repeat sound.

Timers, windows and plays are abstract natural-number handles drawn from a
counter. The host's live timers and windows are maps and sets in the state.
Each timer callback and window event is a method call. The clock is the
`(hour, minute)` argument of `Scheduler.Registry.Tick`. The calls the store
makes on `window.electronAPI` are appended to a command log, `sent`.

Module by module:

- `Js`: the JavaScript semantics the code relies on:
  - truthiness of optional fields, and `||` / `??` defaults;
  - `trim`, `split` on one character and `join`;
  - `Number` on digit strings, and `${n}`.
- `Wire`: the reminder record the main process receives.
- `Scheduler`: the `Registry` class, used for both
  `electron/services/reminderScheduler.ts` and the copy in
  `electron/main.ts`. The copy is constructed with main.ts's default icon
  and without passing the reminder id on.
- `Notification`: `showNotification` as a function from the sound settings
  and platform support to an ordered list of effects.
- `Overlay`: `electron/windows/overlayWindow.ts`. Every event is a
  transition function on a `Tables` value, with a lemma that it keeps the
  registry invariant. The `OverlayManager` class holds the same state in
  fields, and each of its methods is proved to perform its transition.
- `MainProcess`: the single-slot overlay, the quit flag, the main window's
  close rule and `getSoundSettings` from `electron/main.ts`.
- `ReminderStore`: the store class and its pure conversions.
- `ReminderUtils`: the helpers in `src/utils/reminder.ts`.
- `ReminderForm`: the form hook in `src/hooks/useReminderForm.ts`.
- `TimeManagement`: the time-list hook in `src/hooks/useTimeManagement.ts`.
  `removeTime` keeps its in-place `splice` on a fresh array.
- `SettingsStore`: the settings store in `src/store/settingsStore.ts`.
- `Sound`: the module state of `src/utils/sound.ts`. The sound itself is
  reduced to a volume percentage and a playing/rewound flag.

## Model

| member | source | states |
|---|---|---|
| Js.TrimEmptyIffBlank | src/utils/reminder.ts:89 | `trim()` gives the empty string exactly when the string is all white space |
| Js.Split | electron/services/reminderScheduler.ts:44 | `split(":")` yields at least one part |
| Js.SplitAtFirst | electron/services/reminderScheduler.ts:44 | splitting `a + ":" + b` when `a` has no colon gives `a` followed by the parts of `b` |
| Js.Decimal | electron/services/reminderScheduler.ts:40 | `${n}` is a non-empty digit string |
| Js.NumberOfDecimal | electron/services/reminderScheduler.ts:40-45 | `Number` reads back the value `${n}` printed |
| Js.NumberOfPad2 | electron/services/reminderScheduler.ts:44 | a zero-padded two-digit field reads back as its value and contains no colon |
| Scheduler.PlanRules | electron/services/reminderScheduler.ts:12-37 | a disabled reminder, an unknown type, a zero or missing interval, or missing or empty times registers nothing; an interval timer's period is interval*60000 and is never 0; a checker gets the reminder's non-empty times |
| Scheduler.NoticeDefaults | electron/services/reminderScheduler.ts:14-15 | an empty icon becomes the default icon, a zero or missing duration becomes 1, and the id is passed on exactly when the registry tags fires |
| Scheduler.SplitMinuteKey | electron/services/reminderScheduler.ts:40 | the memo key `${h}:${m}` splits into the two decimal fields |
| Scheduler.MinuteKeyInjective | electron/services/reminderScheduler.ts:40 | distinct clock minutes have distinct memo keys |
| Scheduler.MinuteKeyMatchesItsMinute | electron/services/reminderScheduler.ts:40-45 | the memo key read as a time entry matches its own minute |
| Scheduler.PaddedEntryMatches | electron/services/reminderScheduler.ts:43-46 | an "HH:MM" entry matches the clock iff the hour and minute are equal to the entry's |
| Scheduler.SameMinuteFiresOnce | electron/services/reminderScheduler.ts:48-49 | a second tick in the same minute never fires |
| Scheduler.NextMatchingMinuteFires | electron/services/reminderScheduler.ts:43-49 | after a fire, the next matching tick in a different minute fires again |
| Scheduler.NineOClockFiresExactlyOnce | electron/services/reminderScheduler.ts:38-60 | times ["09:00"] fire at 9:00, set the memo to "9:0", and stay silent on the next 9:00 tick |
| Scheduler.SomeTimeMatches | electron/services/reminderScheduler.ts:43-46 | the loop returns true iff some entry matches the clock |
| Scheduler.Registry.constructor | electron/services/reminderScheduler.ts:5-7 | all three maps and the timer table start empty, and the registry is valid |
| Scheduler.Registry.ClearReminderScheduler | electron/services/reminderScheduler.ts:66-76 | the id leaves all three maps, only that id's live timers stop, other ids keep theirs, and an unknown id changes nothing |
| Scheduler.Registry.ScheduleReminder | electron/services/reminderScheduler.ts:9-64 | every timer running for the id stops and its memo goes; the id has an interval timer iff the plan is an interval and a checker iff the plan is daily, with the plan's period or times and the defaulted notice, under a fresh handle never used before; other ids' timers are untouched; validity is kept |
| Scheduler.Registry.Start | electron/services/reminderScheduler.ts:20-32 | `setInterval` installs a fresh handle as the id's only timer |
| Scheduler.Registry.IntervalElapsed | electron/services/reminderScheduler.ts:20-30 | an interval timer fires with the notice captured when it was scheduled |
| Scheduler.Registry.Tick | electron/services/reminderScheduler.ts:38-60 | the tick fires iff some entry matches and the memo is not this minute's key, then the memo becomes that key; other memos are unchanged |
| Scheduler.Registry.ClearAllSchedulers | electron/services/reminderScheduler.ts:78-84 | every live timer is cleared and all three maps end empty |
| Scheduler.AtMostOneTimerPerId | electron/services/reminderScheduler.ts:10-62 | in a valid registry, no id owns two live timers |
| Notification.ShowNotification | electron/services/notificationService.ts:5-52 | sound is requested iff sound is enabled, at its volume; a system notification appears iff supported, with the fixed title, body `icon + " " + message`, silent iff sound is off, critical, and a click reopens the same overlay; the overlay with the given reminder id is always requested, last |
| Notification.FireOpensOverlayForReminder | electron/services/notificationService.ts:43-51 | a fire of a reminder opens an overlay with its message, its icon or the default, its duration or 1, and its id iff the registry tags fires |
| Overlay.InitialInv | electron/windows/overlayWindow.ts:12-17 | the empty registry satisfies the invariant |
| Overlay.TrackedWindow | electron/windows/overlayWindow.ts:460-464 | under the invariant, an id's set holds exactly one window, shown and carrying that id; no set is empty |
| Overlay.CloseByIdIsDismiss | electron/windows/overlayWindow.ts:108-121 | closing by a tracked id asks exactly that id's window to close and clears its timeout |
| Overlay.CloseByIdKeepsInv | electron/windows/overlayWindow.ts:108-121 | `closeOverlaysByReminderId` keeps the invariant, also for an absent id |
| Overlay.AutoCloseIsDismiss | electron/windows/overlayWindow.ts:340-352 | a pending auto-close belongs to a shown window, which it asks to close and removes from its id's set |
| Overlay.AutoCloseKeepsInv | electron/windows/overlayWindow.ts:340-352 | auto-close keeps the invariant |
| Overlay.ClosedIsRemove | electron/windows/overlayWindow.ts:470-486 | the "closed" event removes every trace of that window and nothing else |
| Overlay.ClosedKeepsInv | electron/windows/overlayWindow.ts:470-486 | the "closed" event keeps the invariant |
| Overlay.CloseAllUnderInv | electron/windows/overlayWindow.ts:84-106 | `closeAllOverlays` clears every timeout, empties the map and the legacy slot and timeout, asks every open window to close, and keeps the invariant |
| Overlay.ShownWindowIsReachable | electron/windows/overlayWindow.ts:84-106 | a shown window is in the map or the legacy slot, and its pending timeout is reachable from there |
| Overlay.CreateKeepsInv | electron/windows/overlayWindow.ts:396-495 | creating an overlay keeps the invariant |
| Overlay.ReadyKeepsInv | electron/windows/overlayWindow.ts:334-363 | arming the auto-close of a shown, unarmed window keeps the invariant, including replacing the legacy timeout |
| Overlay.OneOverlayPerReminder | electron/windows/overlayWindow.ts:405-411 | at most one shown overlay carries a given reminder id, and at most one shown overlay has none |
| Overlay.CreateKeyedReplaces | electron/windows/overlayWindow.ts:406-407 | a keyed overlay is shown, is the only shown window with its id, and leaves other ids' windows on screen |
| Overlay.CreateUnkeyedClosesAll | electron/windows/overlayWindow.ts:408-411 | an overlay without an id is the only shown window, takes the legacy slot, and leaves no timeout and an empty map |
| Overlay.FirstTestNotification | electron/windows/overlayWindow.ts:396-495 | the first test notification yields window 0 in the legacy slot with timeout 1 |
| Overlay.SecondTestNotification | electron/windows/overlayWindow.ts:396-495 | a second test notification yields window 2 in the slot while window 0 is still closing |
| Overlay.SecondShownInv | electron/windows/overlayWindow.ts:396-495 | that state satisfies the invariant |
| Overlay.StaleClosedHandlerAsWritten | electron/windows/overlayWindow.ts:482-485 | as written, window 0's late "closed" event leaves window 2 shown with no pending timeout and out of the legacy slot, breaking the invariant, and "close-overlay" (`closeAllOverlays`) then leaves it shown |
| Overlay.StaleClosedHandlerCorrected | electron/windows/overlayWindow.ts:470-486 | with the corrected handler, window 2 keeps the slot and its timeout, and the invariant holds |
| Overlay.OverlayManager.constructor | electron/windows/overlayWindow.ts:12-17 | the manager starts empty and valid |
| Overlay.OverlayManager.CloseWindows | electron/windows/overlayWindow.ts:88-93 | the loop clears each window's stored timeout and asks each open window to close |
| Overlay.OverlayManager.ClearAutoCloseTimeout | electron/windows/overlayWindow.ts:23-28 | the legacy timeout is cancelled and forgotten |
| Overlay.OverlayManager.CloseOverlaysByReminderId | electron/windows/overlayWindow.ts:108-121 | performs the close-by-id transition |
| Overlay.OverlayManager.CloseTracked | electron/windows/overlayWindow.ts:87-94 | the nested loops close every tracked window and clear its timeout |
| Overlay.OverlayManager.CloseAllOverlays | electron/windows/overlayWindow.ts:84-106 | performs the close-all transition |
| Overlay.OverlayManager.CreateOverlayWindow | electron/windows/overlayWindow.ts:396-495 | performs the create transition and returns the new window |
| Overlay.OverlayManager.ReadyToShow | electron/windows/overlayWindow.ts:488-490 | performs `setupAutoClose` and returns the new timeout |
| Overlay.OverlayManager.AutoCloseElapsed | electron/windows/overlayWindow.ts:340-352 | performs the auto-close transition |
| Overlay.OverlayManager.OnClosed | electron/windows/overlayWindow.ts:470-486 | performs the corrected "closed" transition |
| Overlay.OverlayManager.OnClosedAsWritten | electron/windows/overlayWindow.ts:470-486 | performs the "closed" transition as written |
| Overlay.OverlayManager.LeaveScreen | electron/windows/overlayWindow.ts:471-481 | performs the keyed half of the "closed" handler |
| MainProcess.GetSoundSettings | electron/main.ts:369-398 | without a live main window, or when the read fails or finds nothing, the result is sound on at 30; otherwise each stored field, or its default when missing |
| MainProcess.NoOverlayInv | electron/main.ts:19-25 | the empty slot satisfies the slot invariant |
| MainProcess.CreateKeepsInv | electron/main.ts:86-104 | creating an overlay keeps the slot invariant |
| MainProcess.AutoCloseKeepsInv | electron/main.ts:332-337 | auto-close keeps the slot invariant |
| MainProcess.CloseOverlayKeepsInv | electron/main.ts:656-661 | "close-overlay" keeps the slot invariant |
| MainProcess.ClosedKeepsInv | electron/main.ts:339-342 | the corrected "closed" handler keeps the slot invariant |
| MainProcess.AtMostOneOverlayShown | electron/main.ts:94-96 | at most one overlay is on screen, and it is the one in the slot |
| MainProcess.CreateClosesPrevious | electron/main.ts:94-104 | creating asks the previous overlay to close; the new window is in the slot and is the only one shown; nothing else is shown that was not shown before |
| MainProcess.ShownOverlayCanBeClosed | electron/main.ts:332-337 | the shown overlay is taken down and the slot emptied both by its auto-close and by "close-overlay" |
| MainProcess.CloseOverlayWithoutLiveSlot | electron/main.ts:656-661 | "close-overlay" with an empty slot or a destroyed window changes nothing |
| MainProcess.TwoTestNotifications | electron/main.ts:86-342 | two overlays in a row give window 1 in the slot while window 0 is closing |
| MainProcess.StaleClosedHandlerAsWritten | electron/main.ts:339-342 | as written, window 0's late "closed" event empties the slot while window 1 is shown, and neither window 1's auto-close nor "close-overlay" can then close it |
| MainProcess.StaleClosedHandlerCorrected | electron/main.ts:339-342 | with the corrected handler, window 1 keeps the slot and its auto-close closes it |
| MainProcess.Process.constructor | electron/main.ts:19-25 | the legacy scheduler starts empty, with the main-process default icon and without passing ids; no overlay; not quitting |
| MainProcess.Process.CreateOverlayWindow | electron/main.ts:86-104 | performs the create transition; the new window holds the slot |
| MainProcess.Process.AutoCloseElapsed | electron/main.ts:332-337 | performs the auto-close transition |
| MainProcess.Process.CloseOverlay | electron/main.ts:656-661 | performs the "close-overlay" transition |
| MainProcess.Process.CloseSlot | electron/main.ts:94-96 | closing a live slot window empties the slot |
| MainProcess.Process.OnOverlayClosed | electron/main.ts:339-342 | performs the corrected "closed" transition |
| MainProcess.Process.OnOverlayClosedAsWritten | electron/main.ts:339-342 | performs the "closed" transition as written |
| MainProcess.Process.OnMainWindowClose | electron/main.ts:77-83 | the close is prevented, and the window hidden, exactly when the app is not quitting |
| MainProcess.Process.TrayQuit | electron/main.ts:595-600 | sets the quitting flag, so closes are no longer prevented, and empties every scheduler map |
| MainProcess.Process.BeforeQuit | electron/main.ts:713-720 | sets the quitting flag, empties every scheduler map and removes the tray |
| ReminderStore.ScheduledReminderNeverRegistered | src/store/reminderStore.ts:7-23 | as written, the payload carries every field except the type, and a scheduled reminder arrives as "fixed", for which the scheduler registers nothing |
| ReminderStore.MorningStretchAsWrittenNeverFires | src/store/reminderStore.ts:14 | a daily 09:00 reminder gets no timer as written, and a checker for ["09:00"] when its type is kept |
| ReminderStore.PayloadSchedulesAsStored | src/store/reminderStore.ts:7-23 | the corrected payload is received as the reminder itself and repeats icon, interval, first time and duration under the older names |
| ReminderStore.ConvertLegacyReminder | src/store/reminderStore.ts:26-79 | the output is always current, a current record is returned unchanged, and an older record gets its defaults |
| ReminderStore.ConvertIdempotent | src/store/reminderStore.ts:26-79 | converting twice is converting once |
| ReminderStore.LegacyDefaults | src/store/reminderStore.ts:38-76 | an interval record, or an untyped one with intervalMinutes, becomes an interval of interval ‖ intervalMinutes ‖ 30; a scheduled record keeps its times, else gets [fixedTime], else ["09:00"]; a fixed record becomes scheduled with [fixedTime] only when fixedTime is set; a fixed record without fixedTime, any other type and an untyped record without intervalMinutes become an interval of 30 |
| ReminderStore.ConvertAll | src/store/reminderStore.ts:280 | each imported record is converted in place and is current |
| ReminderStore.NewReminder | src/store/reminderStore.ts:113-149 | the new reminder has the new id and the form's message and colour; current data is kept as is, older form data is converted with its defaults |
| ReminderStore.MergeRecordIdempotent | src/store/reminderStore.ts:167 | applying a patch twice is applying it once |
| ReminderStore.MapWhereAt | src/store/reminderStore.ts:165-171 | the id-wise map keeps length and order, replacing exactly the entries with the id |
| ReminderStore.WithoutId | src/store/reminderStore.ts:188-189 | the filter keeps only entries from the list whose id differs |
| ReminderStore.WithoutIdKeeps | src/store/reminderStore.ts:188-189 | every entry with another id survives the filter |
| ReminderStore.WithoutIdAppend | src/store/reminderStore.ts:188-189 | the filter keeps order: filtering a concatenation filters each part |
| ReminderStore.WithoutAbsentId | src/store/reminderStore.ts:188-189 | when no entry has the id, the filter changes nothing |
| ReminderStore.FirstIndexWithId | src/store/reminderStore.ts:194 | the first index with the id, or -1 when there is none |
| ReminderStore.LastIndexWithId | src/store/reminderStore.ts:164-175 | the last index with the id, or -1 when there is none |
| ReminderStore.ScheduleEnabled | src/store/reminderStore.ts:240-246 | the `forEach` sends only schedule commands, at most one per reminder |
| ReminderStore.ScheduleEnabledExactly | src/store/reminderStore.ts:240-246 | a reminder's schedule command is sent iff the reminder is enabled |
| ReminderStore.UpdateCommands | src/store/reminderStore.ts:161-184 | nothing is sent when no entry has the id; otherwise clear(id) first, then schedule iff the store and the updated reminder are enabled |
| ReminderStore.ToggleCommand | src/store/reminderStore.ts:193-211 | schedule the enabled reminder iff it was disabled and the store is on; otherwise clear its id |
| ReminderStore.ImportedPatch | src/store/reminderStore.ts:285-292 | imported settings default to light mode, sound on and volume 30, and leave `enabled` alone |
| ReminderStore.ResetRestoresDefaults | src/store/reminderStore.ts:302-313 | after a reset the theme is light, sound is on at 30, and `enabled` is kept |
| ReminderStore.Store.constructor | src/store/reminderStore.ts:108-109 | the store starts with no reminders, switched on, with nothing sent |
| ReminderStore.Store.AddReminder | src/store/reminderStore.ts:113-159 | appends exactly one new reminder and sends its schedule command iff it and the store are enabled |
| ReminderStore.Store.UpdateReminder | src/store/reminderStore.ts:161-184 | patches every entry with the id, keeping length and order, and sends the update commands |
| ReminderStore.Store.DeleteReminder | src/store/reminderStore.ts:186-191 | sends clear(id) and drops every entry with the id |
| ReminderStore.Store.ToggleReminder | src/store/reminderStore.ts:193-211 | with no such id nothing changes; otherwise every entry with the id takes the negation of the first one's flag, and one command is sent |
| ReminderStore.Store.ScheduleAllEnabled | src/store/reminderStore.ts:240-246 | the loop sends one schedule command per enabled reminder, in list order |
| ReminderStore.Store.ToggleGlobalEnabled | src/store/reminderStore.ts:213-230 | flips the switch; switching on schedules every enabled reminder, switching off sends clear-all |
| ReminderStore.Store.SyncAllReminders | src/store/reminderStore.ts:236-249 | sends clear-all, then schedules every enabled reminder when the store is on |
| ReminderStore.Store.ImportData | src/store/reminderStore.ts:274-300 | succeeds iff the file parsed and has reminders and settings; on failure nothing changes; on success the converted reminders and the switch replace the store's, the settings are merged, and everything is synced |
| ReminderStore.Store.ResetAll | src/store/reminderStore.ts:302-313 | sends clear-all, empties the list, switches on and applies the reset settings |
| ReminderUtils.TypesExclusive | src/utils/reminder.ts:9-15 | no type is both interval and scheduled |
| ReminderUtils.GetRepeatText | src/utils/reminder.ts:20-35 | repeat-every iff interval with a non-zero interval; daily-at iff scheduled with exactly one time; times-a-day with the count iff more than one; otherwise no text |
| ReminderUtils.GetPreviewText | src/utils/reminder.ts:37-52 | repeats-every iff interval with a non-zero interval; times-daily with the count and the times joined by ", " iff scheduled with times |
| ReminderUtils.CaptionMatchesSchedule | src/utils/reminder.ts:57-81 | since the type is copied unchanged, the scheduler registers exactly what the card's caption describes |
| ReminderUtils.ValidateReminderFormIff | src/utils/reminder.ts:86-99 | message-required iff the message is blank; add-time-required iff non-blank, scheduled and without times; valid otherwise; the interval never matters |
| ReminderUtils.ValidScheduledFormIsScheduled | src/utils/reminder.ts:57-99 | a valid, enabled, scheduled form gets a daily checker at its times |
| ReminderForm.MergeFormFields | src/hooks/useReminderForm.ts:22-24 | a merge takes each of the eight fields from the patch when supplied and from the form otherwise, and merging again changes nothing |
| ReminderForm.IsFormValid | src/hooks/useReminderForm.ts:30-33 | valid iff the message is not all white space |
| ReminderForm.FormValidIsWeaker | src/hooks/useReminderForm.ts:30-33 | a validated form is form-valid, but a form-valid scheduled form without times is still refused |
| ReminderForm.DefaultFormNeedsMessage | src/hooks/useReminderForm.ts:6-15 | the default form is refused for its empty message |
| ReminderForm.Form.constructor | src/hooks/useReminderForm.ts:17-20 | the form starts from the given data or the default form |
| ReminderForm.Form.UpdateFormData | src/hooks/useReminderForm.ts:22-24 | the form becomes the merge of the patch into it |
| ReminderForm.Form.ResetForm | src/hooks/useReminderForm.ts:26-28 | the form becomes the default form, so a second reset changes nothing |
| TimeManagement.WithDefaultTime | src/hooks/useTimeManagement.ts:9-13 | the list gains "09:00" at the end and keeps its other entries |
| TimeManagement.SpliceStart | src/hooks/useTimeManagement.ts:18 | the start of `splice` lies within the list |
| TimeManagement.SplicedRemovesOne | src/hooks/useTimeManagement.ts:15-22 | an index inside the list removes exactly that entry and keeps the order; past the end nothing changes; a negative index counts from the end |
| TimeManagement.AddTime | src/hooks/useTimeManagement.ts:9-13 | missing times count as []; "09:00" is appended |
| TimeManagement.CopyOf | src/hooks/useTimeManagement.ts:17 | the copy is a fresh array with the same entries |
| TimeManagement.SpliceOne | src/hooks/useTimeManagement.ts:18 | the in-place shift leaves the array holding the spliced list |
| TimeManagement.RemoveTime | src/hooks/useTimeManagement.ts:15-22 | the form's times become the spliced copy |
| TimeManagement.UpdatedReplacesOne | src/hooks/useTimeManagement.ts:24-31 | an index inside the list replaces only that entry and keeps the length |
| TimeManagement.UpdateTime | src/hooks/useTimeManagement.ts:24-31 | the form's times become the updated copy |
| SettingsStore.MergeFields | src/store/settingsStore.ts:34-37 | each field comes from the patch when supplied, else is kept |
| SettingsStore.MergeIdempotent | src/store/settingsStore.ts:34-37 | merging twice is merging once, and the empty patch changes nothing |
| SettingsStore.FlipDarkMode | src/store/settingsStore.ts:39-42 | only dark mode changes, and it flips |
| SettingsStore.FlipSound | src/store/settingsStore.ts:44-50 | only sound changes, and it flips |
| SettingsStore.FlipTwice | src/store/settingsStore.ts:39-50 | each toggle applied twice is the identity |
| SettingsStore.Settings.constructor | src/store/settingsStore.ts:26-32 | light mode, reminders on, sound on at 30, settings panel hidden |
| SettingsStore.Settings.UpdateSettings | src/store/settingsStore.ts:34-37 | the settings become the merge |
| SettingsStore.Settings.ToggleDarkMode | src/store/settingsStore.ts:39-42 | the settings become the dark-mode flip |
| SettingsStore.Settings.ToggleSound | src/store/settingsStore.ts:44-50 | the settings become the sound flip |
| SettingsStore.Settings.SetSoundVolume | src/store/settingsStore.ts:52-55 | the volume is stored as given, without clamping, and nothing else changes |
| SettingsStore.Settings.SetShowSettings | src/store/settingsStore.ts:57 | the panel flag becomes the given value |
| Sound.ClampPercent | src/utils/sound.ts:119 | the volume is clamped to 0..100 and kept when already inside |
| Sound.ClampMonotone | src/utils/sound.ts:119 | clamping is monotone and idempotent |
| Sound.SilentInv | src/utils/sound.ts:24-27 | the initial state satisfies the one-loop invariant |
| Sound.StopRepeatedKeepsInv | src/utils/sound.ts:265-274 | stopping keeps the invariant and leaves no loop |
| Sound.PlayKeepsInv | src/utils/sound.ts:104-155 | a play keeps the invariant |
| Sound.PlayRepeatedlyKeepsOneLoop | src/utils/sound.ts:241-262 | after starting a repeat, exactly one loop is live, at the given volume and period (default 5000 ms), and the sound is playing at the clamped volume |
| Sound.RepeatTickKeepsInv | src/utils/sound.ts:254-258 | a repeat tick keeps the invariant and the loops |
| Sound.StopRepeatedIdempotent | src/utils/sound.ts:265-274 | stopping leaves no loop; stopping twice is stopping once; stopping when nothing was started changes nothing |
| Sound.StopAllClears | src/utils/sound.ts:277-315 | stop-all leaves no loop and no play reference, and silences and rewinds the audio |
| Sound.StaleSettleKeepsNewerPlay | src/utils/sound.ts:145-149 | an older play settling leaves the newer play's reference; the newer play's own settling clears it |
| Sound.AudioCreatedOnce | src/utils/sound.ts:30-36 | the element exists afterwards and is created only when there was none |
| Sound.SoundPlayer.constructor | src/utils/sound.ts:24-27 | no audio, no loop, no play |
| Sound.SoundPlayer.GetAudioElement | src/utils/sound.ts:30-36 | performs the lazy creation |
| Sound.SoundPlayer.PlayNotificationSound | src/utils/sound.ts:104-155 | performs the play and returns the handle now in the play reference |
| Sound.SoundPlayer.PlaySettled | src/utils/sound.ts:145-149 | performs the `finally` |
| Sound.SoundPlayer.StopRepeatedSound | src/utils/sound.ts:265-274 | performs the stop |
| Sound.SoundPlayer.StopAllSounds | src/utils/sound.ts:277-315 | performs stop-all |
| Sound.SoundPlayer.PlayNotificationSoundRepeatedly | src/utils/sound.ts:241-262 | performs the repeat start and returns the handle now in `soundInterval` |
| Sound.SoundPlayer.RepeatTick | src/utils/sound.ts:254-258 | the loop plays again at its volume |

## Left out

- Overlay HTML, CSS and the in-page script (`generateOverlayHTML` and the template in `electron/main.ts`). Also window geometry, BrowserWindow options, the tray menu, the preload bridge and IPC routing. These are foreign library calls and templating with no decision logic.
- `executeJavaScript` calls, including `stopOverlaySound` and the sound read in `getSoundSettings`. The read's outcome is the `SettingsRead` argument of `MainProcess.GetSoundSettings`.
- `electron/services/soundService.ts` is not part of this model. Its `getSoundSettings` has the same fallback as the modelled one in `electron/main.ts`.
- `showNotification` and `playSoundFromMainWindow` in `electron/main.ts`: the legacy scheduler's fire is the `Scheduler.Notice` it returns, and the effect selection is modelled once, in `Notification`.
- Real timers, `Date`, and the ordering of asynchronous work (`await`, the audio load promise). Timers are handles, callbacks are method calls, and the clock is an argument. Host clamping of very long timer delays is not modelled.
- Overlay.OverlayManager methods promise the transition on `Snapshot()`, not `Valid()`. The invariant is carried by the `*KeepsInv` lemmas. `Overlay.ReadyKeepsInv` assumes "ready-to-show" arrives once, for a window that is shown and not yet armed.
- MainProcess.Process methods likewise promise the transition, and the `MainProcess.*KeepsInv` lemmas carry `SlotInv`.
- Js.Number: only digit strings are read. Any other string (signs, blanks, decimals) is treated as not a number, so it matches no clock hour, as `NaN` does.
- The volume is an integer percentage, not a float in 0..1. Audio playback, its events, and exceptions thrown while creating the element are left out.
- `playNotificationSoundUntilEnd` in `src/utils/sound.ts` is not modelled.
- Patches are `Option` fields: a key present with the value `undefined` is treated as absent.
- JSON parsing and stringifying, uuid generation and zustand persistence. `ReminderStore.Store.ImportData` takes the parsed value (`None` when parsing fails), and new ids are arguments. An exception raised after parsing is not modelled.
- `window.electronAPI` is taken to be present. Each call on it is a `Command` appended to `sent`.
- ReminderStore.Store methods send the corrected payload (`ReminderStore.ToElectronReminder`, which keeps the type). The payload as written is modelled separately; see Findings.
- TimeManagement.UpdateTime: an index more than one past the end is excluded by its precondition. In JavaScript it would leave holes in the array.
- Scheduler.Registry.ScheduleReminder: the interval is not clamped to a minimum, because the code does not clamp it. A zero or missing interval registers nothing.

## Findings

| source | as written | input that shows it | evidently intended | confidence | as-written member | corrected member |
|---|---|---|---|---|---|---|
| src/store/reminderStore.ts:14 | the payload renames type "scheduled" to "fixed", but the main-process scheduler (electron/main.ts:14-17, electron/services/reminderScheduler.ts:33-34) only installs a checker for "scheduled" | an enabled reminder with type "scheduled" and times ["09:00"] | the type is passed through, as `toElectronReminder` in src/utils/reminder.ts does, so the reminder gets a daily checker | not executed | ReminderStore.MorningStretchAsWrittenNeverFires | ReminderStore.PayloadSchedulesAsStored |
| electron/windows/overlayWindow.ts:482-485 | the "closed" handler of any overlay without an id clears the legacy timeout and empties the legacy slot, even when a newer overlay holds them | two test notifications in a row, the first window's "closed" event arriving after the second is shown | only the window in the legacy slot clears it | not executed | Overlay.StaleClosedHandlerAsWritten | Overlay.StaleClosedHandlerCorrected |
| electron/main.ts:339-342 | the "closed" handler empties the `overlayWindow` slot whichever window it holds | two overlays in a row, the first window's "closed" event arriving after the second is created | only the window in the slot empties it, so the second overlay can still be closed | not executed | MainProcess.StaleClosedHandlerAsWritten | MainProcess.StaleClosedHandlerCorrected |
