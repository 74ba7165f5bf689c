/**
 * The renderer's reminder store (src/store/reminderStore.ts): the list of
 * reminders and the global on/off switch, the conversions applied to
 * stored and imported records, and the scheduler commands each action
 * sends to the main process.
 *
 * `window.electronAPI` is taken to be present; each call on it is appended
 * to the command log `sent`. Record ids are arguments (the source draws them
 * from uuid).
 */
module ReminderStore {
  import opened Js
  import opened Wire
  import Scheduler
  import SettingsStore

  const DefaultIcon := "\U{1F4A7}"
  const DefaultTime := "09:00"
  const FixedType := "fixed"

  /**
   * A reminder as the store holds it and as it is sent to the main process:
   * the current fields, and the older names (emoji, intervalMinutes,
   * fixedTime, durationMinutes) that records written by earlier versions
   * carry and that the payload repeats for them.
   */
  datatype Record = Record(
    id: string,
    message: string,
    icon: Option<string>,
    emoji: Option<string>,
    color: string,
    kind: Option<string>,
    interval: Option<int>,
    intervalMinutes: Option<int>,
    times: Option<seq<string>>,
    fixedTime: Option<string>,
    displayMinutes: Option<int>,
    durationMinutes: Option<int>,
    enabled: Option<bool>)

  /** A scheduler command sent over `window.electronAPI`. */
  datatype Command = Schedule(payload: Record) | Clear(id: string) | ClearAll

  /** What the main process reads of a payload. */
  function Received(p: Record): Reminder {
    Reminder(p.id, p.message, p.icon, p.color, p.kind, p.interval, p.times, p.displayMinutes, p.enabled)
  }

  // ---------------------------------------------------------------------
  // The payload conversion
  // ---------------------------------------------------------------------

  /** `reminder.times?.[0]` */
  function FirstTime(times: Option<seq<string>>): Option<string> {
    if times.Some? && |times.value| > 0 then Some(times.value[0]) else None
  }

  /**
   * The payload as src/store/reminderStore.ts builds it: the current fields
   * repeated under their older names, and type "scheduled" renamed "fixed".
   */
  function ToElectronReminderAsWritten(r: Record): (p: Record) {
    Record(r.id, r.message, r.icon, r.icon, r.color,
           if r.kind == Some(ScheduledType) then Some(FixedType) else r.kind,
           r.interval, r.interval, r.times, FirstTime(r.times),
           r.displayMinutes, r.displayMinutes, r.enabled)
  }

  /** The payload with the type passed through unchanged; the store sends this one. */
  function ToElectronReminder(r: Record): (p: Record) {
    Record(r.id, r.message, r.icon, r.icon, r.color, r.kind,
           r.interval, r.interval, r.times, FirstTime(r.times),
           r.displayMinutes, r.displayMinutes, r.enabled)
  }

  /**
   * As written, the main process receives every field of the reminder but
   * the type, and a scheduled reminder arrives with a type the scheduler
   * does not know, so it registers no timer for it.
   */
  lemma ScheduledReminderNeverRegistered(r: Record)
    ensures Received(ToElectronReminderAsWritten(r)) ==
              Received(r).(kind := if r.kind == Some(ScheduledType) then Some(FixedType) else r.kind)
    ensures r.kind == Some(ScheduledType) ==> Scheduler.PlanOf(Received(ToElectronReminderAsWritten(r))) == Scheduler.NoTimer
  {
  }

  /** An enabled daily reminder at 09:00, as the add form produces it. */
  const MorningStretch := Record("stretch", "Stretch", Some(DefaultIcon), None, "#8b5cf6", Some(ScheduledType),
                                 None, None, Some([DefaultTime]), None, Some(1), None, Some(true))

  /** MorningStretch, sent as written, gets no timer; sent with its type it gets a daily checker for 09:00. */
  lemma MorningStretchAsWrittenNeverFires()
    ensures Scheduler.PlanOf(Received(ToElectronReminderAsWritten(MorningStretch))) == Scheduler.NoTimer
    ensures Scheduler.PlanOf(Received(ToElectronReminder(MorningStretch))) == Scheduler.DailyAt([DefaultTime])
  {
    ScheduledReminderNeverRegistered(MorningStretch);
  }

  /** The payload the store sends carries exactly the reminder's fields, so the scheduler plans the reminder itself. */
  lemma PayloadSchedulesAsStored(r: Record)
    ensures Received(ToElectronReminder(r)) == Received(r)
    ensures Scheduler.PlanOf(Received(ToElectronReminder(r))) == Scheduler.PlanOf(Received(r))
    ensures var p := ToElectronReminder(r);
            p.emoji == r.icon && p.intervalMinutes == r.interval && p.durationMinutes == r.displayMinutes
            && p.fixedTime == FirstTime(r.times)
  {
  }

  // ---------------------------------------------------------------------
  // Legacy records
  // ---------------------------------------------------------------------

  /** A record in the current format: it has an icon and a known type. */
  predicate IsCurrent(r: Record) {
    r.icon.Some? && (r.kind == Some(IntervalType) || r.kind == Some(ScheduledType))
  }

  /** `convertLegacyReminder(legacy)` */
  function ConvertLegacyReminder(legacy: Record): (r: Record)
    ensures IsCurrent(r)
    ensures IsCurrent(legacy) ==> r == legacy
    ensures !IsCurrent(legacy) ==>
              && r.id == legacy.id && r.message == legacy.message && r.color == legacy.color
              && r.emoji.None? && r.intervalMinutes.None? && r.fixedTime.None? && r.durationMinutes.None?
              && r.icon == Some(StrOr(legacy.icon, StrOr(legacy.emoji, DefaultIcon)))
              && r.displayMinutes == Some(NumOr(legacy.displayMinutes, NumOr(legacy.durationMinutes, 1)))
              && r.enabled == Some(legacy.enabled.GetOr(true))
              && (r.kind == Some(IntervalType) <==> r.interval.Some?)
              && (r.kind == Some(ScheduledType) <==> r.times.Some?)
  {
    if IsCurrent(legacy) then legacy
    else
      var icon := Some(StrOr(legacy.icon, StrOr(legacy.emoji, DefaultIcon)));
      var displayMinutes := Some(NumOr(legacy.displayMinutes, NumOr(legacy.durationMinutes, 1)));
      var enabled := Some(legacy.enabled.GetOr(true));
      if legacy.kind == Some(IntervalType) || (!StrTruthy(legacy.kind) && NumTruthy(legacy.intervalMinutes)) then
        Record(legacy.id, legacy.message, icon, None, legacy.color, Some(IntervalType),
               Some(NumOr(legacy.interval, NumOr(legacy.intervalMinutes, 30))), None, None, None,
               displayMinutes, None, enabled)
      else if legacy.kind == Some(ScheduledType) || (legacy.kind == Some(FixedType) && StrTruthy(legacy.fixedTime)) then
        Record(legacy.id, legacy.message, icon, None, legacy.color, Some(ScheduledType), None, None,
               Some(if legacy.times.Some? then legacy.times.value
                    else if StrTruthy(legacy.fixedTime) then [legacy.fixedTime.value] else [DefaultTime]),
               None, displayMinutes, None, enabled)
      else
        Record(legacy.id, legacy.message, icon, None, legacy.color, Some(IntervalType), Some(30), None, None, None,
               displayMinutes, None, enabled)
  }

  /** Converting twice is converting once. */
  lemma ConvertIdempotent(legacy: Record)
    ensures ConvertLegacyReminder(ConvertLegacyReminder(legacy)) == ConvertLegacyReminder(legacy)
  {
  }

  /** Which converted kind, and which interval or times, each older record gets. */
  lemma LegacyDefaults(legacy: Record)
    requires !IsCurrent(legacy)
    // an interval record, or an untyped one that has an `intervalMinutes`
    ensures legacy.kind == Some(IntervalType) || (!StrTruthy(legacy.kind) && NumTruthy(legacy.intervalMinutes)) ==>
              && ConvertLegacyReminder(legacy).kind == Some(IntervalType)
              && ConvertLegacyReminder(legacy).interval == Some(NumOr(legacy.interval, NumOr(legacy.intervalMinutes, 30)))
    // a scheduled record keeps its times, else takes its fixed time, else "09:00"
    ensures legacy.kind == Some(ScheduledType) ==> ConvertLegacyReminder(legacy).kind == Some(ScheduledType)
    ensures legacy.kind == Some(ScheduledType) && legacy.times.Some? ==>
              ConvertLegacyReminder(legacy).times == legacy.times
    ensures legacy.kind == Some(ScheduledType) && legacy.times.None? && !StrTruthy(legacy.fixedTime) ==>
              ConvertLegacyReminder(legacy).times == Some([DefaultTime])
    // a fixed record becomes scheduled only when it has a fixed time
    ensures legacy.kind == Some(FixedType) && StrTruthy(legacy.fixedTime) ==>
              ConvertLegacyReminder(legacy).kind == Some(ScheduledType)
    ensures (legacy.kind == Some(ScheduledType) || legacy.kind == Some(FixedType)) &&
            StrTruthy(legacy.fixedTime) && legacy.times.None? ==>
              ConvertLegacyReminder(legacy).times == Some([legacy.fixedTime.value])
    // everything else: a fixed record without a fixed time, any other type, an untyped record
    // without `intervalMinutes` -- becomes an interval of 30 minutes
    ensures (legacy.kind == Some(FixedType) && !StrTruthy(legacy.fixedTime))
            || (StrTruthy(legacy.kind) && legacy.kind !in {Some(IntervalType), Some(ScheduledType), Some(FixedType)})
            || (!StrTruthy(legacy.kind) && !NumTruthy(legacy.intervalMinutes)) ==>
              && ConvertLegacyReminder(legacy).kind == Some(IntervalType)
              && ConvertLegacyReminder(legacy).interval == Some(30)
              && ConvertLegacyReminder(legacy).times.None?
  {
  }

  /** `reminders.map(convertLegacyReminder)` */
  function ConvertAll(rs: seq<Record>): (out: seq<Record>)
    ensures |out| == |rs|
    ensures forall i | 0 <= i < |rs| :: out[i] == ConvertLegacyReminder(rs[i]) && IsCurrent(out[i])
  {
    seq(|rs|, i requires 0 <= i < |rs| => ConvertLegacyReminder(rs[i]))
  }

  // ---------------------------------------------------------------------
  // New reminders
  // ---------------------------------------------------------------------

  /**
   * The reminder `addReminder(data)` appends under the new id: the form
   * data itself when it has an icon and a known type, otherwise a record
   * converted from the older form fields.
   */
  function NewReminder(data: Record, newId: string): (r: Record)
    ensures r.id == newId && r.message == data.message && r.color == data.color
    ensures IsCurrent(data) ==> r == data.(id := newId)
    ensures !IsCurrent(data) ==>
              && r.icon == Some(StrOr(data.emoji, StrOr(data.icon, DefaultIcon)))
              && r.enabled == Some(data.enabled.GetOr(true))
              && r.kind == Some(if data.kind == Some(FixedType) then ScheduledType else IntervalType)
              && (r.interval.Some? <==> data.kind == Some(IntervalType))
              && (r.times.Some? <==> data.kind == Some(FixedType))
  {
    if IsCurrent(data) then data.(id := newId)
    else
      Record(newId, data.message, Some(StrOr(data.emoji, StrOr(data.icon, DefaultIcon))), None, data.color,
             Some(if data.kind == Some(FixedType) then ScheduledType else IntervalType),
             if data.kind == Some(IntervalType) then Some(NumOr(data.intervalMinutes, NumOr(data.interval, 30))) else None,
             None,
             if data.kind == Some(FixedType) then Some(if StrTruthy(data.fixedTime) then [data.fixedTime.value] else [DefaultTime])
             else None,
             None,
             Some(NumOr(data.durationMinutes, NumOr(data.displayMinutes, 1))), None,
             Some(data.enabled.GetOr(true)))
  }

  // ---------------------------------------------------------------------
  // List operations
  // ---------------------------------------------------------------------

  /** A `Partial<Reminder>`: the fields present replace the record's. */
  datatype Patch = Patch(
    id: Option<string>,
    message: Option<string>,
    icon: Option<string>,
    color: Option<string>,
    kind: Option<string>,
    interval: Option<int>,
    times: Option<seq<string>>,
    displayMinutes: Option<int>,
    enabled: Option<bool>)

  /** A field of `{ ...r, ...patch }` that the record may lack. */
  function Override<T>(patched: Option<T>, current: Option<T>): Option<T> {
    if patched.Some? then patched else current
  }

  /** `{ ...r, ...patch }` */
  function MergeRecord(r: Record, p: Patch): Record {
    r.(id := p.id.GetOr(r.id), message := p.message.GetOr(r.message), icon := Override(p.icon, r.icon),
       color := p.color.GetOr(r.color), kind := Override(p.kind, r.kind), interval := Override(p.interval, r.interval),
       times := Override(p.times, r.times), displayMinutes := Override(p.displayMinutes, r.displayMinutes),
       enabled := Override(p.enabled, r.enabled))
  }

  /** Applying a patch twice is applying it once; the older-name fields are never touched. */
  lemma MergeRecordIdempotent(r: Record, p: Patch)
    ensures MergeRecord(MergeRecord(r, p), p) == MergeRecord(r, p)
    ensures var m := MergeRecord(r, p);
            m.emoji == r.emoji && m.intervalMinutes == r.intervalMinutes
            && m.fixedTime == r.fixedTime && m.durationMinutes == r.durationMinutes
  {
  }

  /** `rs.map(r => r.id === id ? f(r) : r)` */
  function MapWhere(rs: seq<Record>, id: string, f: Record -> Record): (out: seq<Record>) {
    if rs == [] then []
    else [if rs[0].id == id then f(rs[0]) else rs[0]] + MapWhere(rs[1..], id, f)
  }

  /** The map keeps length and order: each entry with the id is replaced by f of it, every other entry is kept. */
  lemma {:induction false} MapWhereAt(rs: seq<Record>, id: string, f: Record -> Record)
    ensures |MapWhere(rs, id, f)| == |rs|
    ensures forall i | 0 <= i < |rs| :: MapWhere(rs, id, f)[i] == if rs[i].id == id then f(rs[i]) else rs[i]
  {
    if rs != [] {
      MapWhereAt(rs[1..], id, f);
      forall i | 1 <= i < |rs|
        ensures MapWhere(rs, id, f)[i] == if rs[i].id == id then f(rs[i]) else rs[i]
      {
        assert rs[i] == rs[1..][i - 1];
      }
    }
  }

  /** `rs.filter(r => r.id !== id)` */
  function WithoutId(rs: seq<Record>, id: string): (out: seq<Record>)
    ensures |out| <= |rs|
    ensures forall r | r in out :: r in rs && r.id != id
  {
    if rs == [] then []
    else WithoutId(rs[..|rs| - 1], id) + (if rs[|rs| - 1].id == id then [] else [rs[|rs| - 1]])
  }

  /** Every entry with another id survives the filter. */
  lemma {:induction false} WithoutIdKeeps(rs: seq<Record>, id: string, r: Record)
    requires r in rs && r.id != id
    ensures r in WithoutId(rs, id)
  {
    var last := rs[|rs| - 1];
    if r != last {
      assert r in rs[..|rs| - 1] by {
        var i :| 0 <= i < |rs| && rs[i] == r;
        assert i < |rs| - 1;
        assert rs[..|rs| - 1][i] == r;
      }
      WithoutIdKeeps(rs[..|rs| - 1], id, r);
    }
  }

  /** The filter keeps order: filtering a concatenation filters each part. */
  lemma {:induction false} WithoutIdAppend(a: seq<Record>, b: seq<Record>, id: string)
    ensures WithoutId(a + b, id) == WithoutId(a, id) + WithoutId(b, id)
    decreases |b|
  {
    if b != [] {
      var b' := b[..|b| - 1];
      assert (a + b)[..|a + b| - 1] == a + b';
      assert (a + b)[|a + b| - 1] == b[|b| - 1];
      WithoutIdAppend(a, b', id);
    } else {
      assert a + b == a;
    }
  }

  /** A list in which no entry has the id is unchanged by the filter. */
  lemma {:induction false} WithoutAbsentId(rs: seq<Record>, id: string)
    requires forall r | r in rs :: r.id != id
    ensures WithoutId(rs, id) == rs
  {
    if rs != [] {
      assert rs[..|rs| - 1] + [rs[|rs| - 1]] == rs;
      WithoutAbsentId(rs[..|rs| - 1], id);
    }
  }

  /** `rs.findIndex(r => r.id === id)`: the first index with the id, or -1. */
  function FirstIndexWithId(rs: seq<Record>, id: string): (i: int)
    ensures -1 <= i < |rs|
    ensures i >= 0 ==> rs[i].id == id
    ensures forall j | 0 <= j < |rs| && (i < 0 || j < i) :: rs[j].id != id
  {
    if rs == [] then -1
    else if rs[0].id == id then 0
    else
      var k := FirstIndexWithId(rs[1..], id);
      assert forall j | 1 <= j < |rs| :: rs[j] == rs[1..][j - 1];
      if k < 0 then -1 else k + 1
  }

  /** The last index with the id, or -1. */
  function LastIndexWithId(rs: seq<Record>, id: string): (i: int)
    ensures -1 <= i < |rs|
    ensures i >= 0 ==> rs[i].id == id
    ensures forall j | 0 <= j < |rs| && i < j :: rs[j].id != id
  {
    if rs == [] then -1
    else if rs[|rs| - 1].id == id then |rs| - 1
    else
      var k := LastIndexWithId(rs[..|rs| - 1], id);
      assert forall j | 0 <= j < |rs| - 1 :: rs[j] == rs[..|rs| - 1][j];
      k
  }

  /** `rs.find(r => r.id === id)`: the first entry with the id. */
  function FirstWithId(rs: seq<Record>, id: string): Option<Record> {
    var i := FirstIndexWithId(rs, id);
    if i < 0 then None else Some(rs[i])
  }

  /** The entry the `map` in `updateReminder` last replaced: the last one with the id. */
  function LastWithId(rs: seq<Record>, id: string): Option<Record> {
    var i := LastIndexWithId(rs, id);
    if i < 0 then None else Some(rs[i])
  }

  /** The schedule commands the `forEach` over the reminders sends: one per enabled reminder, in list order. */
  function ScheduleEnabled(rs: seq<Record>): (cmds: seq<Command>)
    ensures |cmds| <= |rs|
    ensures forall c | c in cmds :: c.Schedule?
  {
    if rs == [] then []
    else ScheduleEnabled(rs[..|rs| - 1])
         + (if BoolTruthy(rs[|rs| - 1].enabled) then [Schedule(ToElectronReminder(rs[|rs| - 1]))] else [])
  }

  /** A reminder is scheduled by the `forEach` exactly when it is enabled. */
  lemma {:induction false} ScheduleEnabledExactly(rs: seq<Record>, c: Command)
    ensures c in ScheduleEnabled(rs) <==>
              exists i | 0 <= i < |rs| :: BoolTruthy(rs[i].enabled) && c == Schedule(ToElectronReminder(rs[i]))
  {
    if rs != [] {
      var init := rs[..|rs| - 1];
      ScheduleEnabledExactly(init, c);
      assert forall i | 0 <= i < |init| :: init[i] == rs[i];
      if exists i | 0 <= i < |rs| :: BoolTruthy(rs[i].enabled) && c == Schedule(ToElectronReminder(rs[i])) {
        var i :| 0 <= i < |rs| && BoolTruthy(rs[i].enabled) && c == Schedule(ToElectronReminder(rs[i]));
        if i < |init| {
          assert init[i] == rs[i];
        }
      }
    }
  }

  /** What `updateReminder(id, patch)` sends: nothing when no entry has the id, else clear, then schedule when enabled. */
  function UpdateCommands(rs: seq<Record>, id: string, p: Patch, globalEnabled: bool): (cmds: seq<Command>)
    ensures LastWithId(rs, id).None? ==> cmds == []
    ensures LastWithId(rs, id).Some? ==> |cmds| >= 1 && cmds[0] == Clear(id)
  {
    match LastWithId(rs, id)
    case None => []
    case Some(r) =>
      var updated := MergeRecord(r, p);
      [Clear(id)] + (if globalEnabled && BoolTruthy(updated.enabled) then [Schedule(ToElectronReminder(updated))] else [])
  }

  /** What `toggleReminder(id)` sends for the first entry with the id. */
  function ToggleCommand(r: Record, globalEnabled: bool): (c: Command)
    ensures c.Schedule? <==> !BoolTruthy(r.enabled) && globalEnabled
    ensures c.Schedule? ==> c.payload.enabled == Some(true) && c.payload.id == r.id
    ensures c.Clear? ==> c.id == r.id
  {
    if !BoolTruthy(r.enabled) && globalEnabled then Schedule(ToElectronReminder(r.(enabled := Some(true))))
    else Clear(r.id)
  }

  // ---------------------------------------------------------------------
  // Imported data
  // ---------------------------------------------------------------------

  datatype ImportedSettings = ImportedSettings(
    enabled: Option<bool>,
    darkMode: Option<bool>,
    soundEnabled: Option<bool>,
    soundVolume: Option<int>)

  /** The parsed export file; absent parts are `None`. */
  datatype Imported = Imported(reminders: Option<seq<Record>>, settings: Option<ImportedSettings>)

  /** The settings update an import applies: each missing field takes its default. */
  function ImportedPatch(s: ImportedSettings): (p: SettingsStore.SettingsPatch)
    ensures p.enabled.None? && p.darkMode.Some? && p.soundEnabled.Some? && p.soundVolume.Some?
    ensures s.darkMode.None? ==> !p.darkMode.value
    ensures s.soundEnabled.None? ==> p.soundEnabled.value
    ensures s.soundVolume.None? ==> p.soundVolume.value == 30
  {
    SettingsStore.SettingsPatch(Some(s.darkMode.GetOr(false)), None,
                                Some(s.soundEnabled.GetOr(true)), Some(s.soundVolume.GetOr(30)))
  }

  /** The settings update `resetAll` applies. */
  const ResetPatch := SettingsStore.SettingsPatch(Some(false), None, Some(true), Some(30))

  // ---------------------------------------------------------------------
  // The store
  // ---------------------------------------------------------------------

  class Store {
    var reminders: seq<Record>
    var globalEnabled: bool
    /** Every scheduler command sent so far, oldest first. */
    var sent: seq<Command>

    constructor ()
      ensures reminders == [] && globalEnabled && sent == []
    {
      reminders, globalEnabled, sent := [], true, [];
    }

    /** `addReminder(data)` with the new id: append one reminder and schedule it when it and the store are enabled. */
    method AddReminder(data: Record, newId: string)
      modifies this`reminders, this`sent
      ensures reminders == old(reminders) + [NewReminder(data, newId)]
      ensures sent == old(sent) + if globalEnabled && BoolTruthy(NewReminder(data, newId).enabled)
                                  then [Schedule(ToElectronReminder(NewReminder(data, newId)))] else []
    {
      var newReminder := NewReminder(data, newId);
      reminders := reminders + [newReminder];
      if globalEnabled && BoolTruthy(newReminder.enabled) {
        sent := sent + [Schedule(ToElectronReminder(newReminder))];
      }
    }

    /** `updateReminder(id, patch)`: patch every entry with the id; if there was one, clear it and reschedule the last. */
    method UpdateReminder(id: string, p: Patch)
      modifies this`reminders, this`sent
      ensures reminders == MapWhere(old(reminders), id, r => MergeRecord(r, p))
      ensures sent == old(sent) + UpdateCommands(old(reminders), id, p, globalEnabled)
    {
      var updatedReminder := LastWithId(reminders, id);
      reminders := MapWhere(reminders, id, r => MergeRecord(r, p));
      if updatedReminder.Some? {
        var updated := MergeRecord(updatedReminder.value, p);
        sent := sent + [Clear(id)];
        if globalEnabled && BoolTruthy(updated.enabled) {
          sent := sent + [Schedule(ToElectronReminder(updated))];
        }
      }
    }

    /** `deleteReminder(id)`: clear the id's scheduler and drop every entry with the id. */
    method DeleteReminder(id: string)
      modifies this`reminders, this`sent
      ensures sent == old(sent) + [Clear(id)]
      ensures reminders == WithoutId(old(reminders), id)
    {
      sent := sent + [Clear(id)];
      reminders := WithoutId(reminders, id);
    }

    /**
     * `toggleReminder(id)`: every entry with the id takes the negation of
     * the first one's `enabled`, which is then scheduled or cleared.
     */
    method ToggleReminder(id: string)
      modifies this`reminders, this`sent
      ensures FirstWithId(old(reminders), id).None? ==> reminders == old(reminders) && sent == old(sent)
      ensures FirstWithId(old(reminders), id).Some? ==>
                var r := FirstWithId(old(reminders), id).value;
                && reminders == MapWhere(old(reminders), id, (x: Record) => x.(enabled := Some(!BoolTruthy(r.enabled))))
                && sent == old(sent) + [ToggleCommand(r, globalEnabled)]
    {
      var reminder := FirstWithId(reminders, id);
      if reminder.Some? {
        var newEnabled := !BoolTruthy(reminder.value.enabled);
        reminders := MapWhere(reminders, id, (x: Record) => x.(enabled := Some(newEnabled)));
        if newEnabled && globalEnabled {
          sent := sent + [Schedule(ToElectronReminder(reminder.value.(enabled := Some(true))))];
        } else {
          sent := sent + [Clear(id)];
        }
      }
    }

    /** The `forEach` that schedules every enabled reminder. */
    method ScheduleAllEnabled()
      modifies this`sent
      ensures sent == old(sent) + ScheduleEnabled(reminders)
    {
      var i := 0;
      while i < |reminders|
        invariant 0 <= i <= |reminders|
        invariant sent == old(sent) + ScheduleEnabled(reminders[..i])
      {
        assert reminders[..i + 1][..i] == reminders[..i];
        if BoolTruthy(reminders[i].enabled) {
          sent := sent + [Schedule(ToElectronReminder(reminders[i]))];
        }
        i := i + 1;
      }
      assert reminders[..i] == reminders;
    }

    /** `toggleGlobalEnabled()`: switching on schedules every enabled reminder, switching off clears all. */
    method ToggleGlobalEnabled()
      modifies this`globalEnabled, this`sent
      ensures globalEnabled == !old(globalEnabled)
      ensures sent == old(sent) + if globalEnabled then ScheduleEnabled(reminders) else [ClearAll]
    {
      globalEnabled := !globalEnabled;
      if globalEnabled {
        ScheduleAllEnabled();
      } else {
        sent := sent + [ClearAll];
      }
    }

    /** `syncAllReminders()`: clear all, then schedule every enabled reminder when the store is enabled. */
    method SyncAllReminders()
      modifies this`sent
      ensures sent == old(sent) + [ClearAll] + if globalEnabled then ScheduleEnabled(reminders) else []
    {
      sent := sent + [ClearAll];
      if globalEnabled {
        ScheduleAllEnabled();
      }
    }

    /**
     * `importData(...)` from the parsed file (`None` when parsing failed):
     * without reminders or settings nothing changes; otherwise the converted
     * reminders and the switch replace the store's, the settings store gets
     * the imported settings, and everything is synced.
     */
    method ImportData(parsed: Option<Imported>, settingsStore: SettingsStore.Settings?) returns (ok: bool)
      modifies this`reminders, this`globalEnabled, this`sent, settingsStore
      ensures ok <==> parsed.Some? && parsed.value.reminders.Some? && parsed.value.settings.Some?
      ensures !ok ==> reminders == old(reminders) && globalEnabled == old(globalEnabled) && sent == old(sent)
      ensures !ok && settingsStore != null ==> settingsStore.settings == old(settingsStore.settings)
      ensures ok ==>
                && reminders == ConvertAll(parsed.value.reminders.value)
                && globalEnabled == (parsed.value.settings.value.enabled != Some(false))
                && sent == old(sent) + [ClearAll] + if globalEnabled then ScheduleEnabled(reminders) else []
      ensures ok && settingsStore != null ==>
                settingsStore.settings == SettingsStore.Merge(old(settingsStore.settings), ImportedPatch(parsed.value.settings.value))
    {
      if parsed.None? || parsed.value.reminders.None? || parsed.value.settings.None? {
        return false;
      }
      var data := parsed.value;
      reminders := ConvertAll(data.reminders.value);
      globalEnabled := data.settings.value.enabled != Some(false);
      if settingsStore != null {
        settingsStore.UpdateSettings(ImportedPatch(data.settings.value));
      }
      SyncAllReminders();
      return true;
    }

    /** `resetAll()`: clear all, empty the list, switch on, and restore the default sound and theme settings. */
    method ResetAll(settingsStore: SettingsStore.Settings?)
      modifies this`reminders, this`globalEnabled, this`sent, settingsStore
      ensures reminders == [] && globalEnabled
      ensures sent == old(sent) + [ClearAll]
      ensures settingsStore != null ==> settingsStore.settings == SettingsStore.Merge(old(settingsStore.settings), ResetPatch)
    {
      sent := sent + [ClearAll];
      reminders, globalEnabled := [], true;
      if settingsStore != null {
        settingsStore.UpdateSettings(ResetPatch);
      }
    }
  }

  /** After a reset the store is empty and switched on, and the settings are the defaults for sound and theme. */
  lemma ResetRestoresDefaults(s: SettingsStore.AppSettings)
    ensures var r := SettingsStore.Merge(s, ResetPatch);
            !r.darkMode && r.soundEnabled && r.soundVolume == 30 && r.enabled == s.enabled
  {
  }
}
