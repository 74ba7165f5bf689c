/**
 * The renderer's reminder helpers (src/utils/reminder.ts): the type tests,
 * the repeat and preview captions (as the translation key they select and
 * its arguments), the conversion to the record the main process reads,
 * and the validation of the add/edit form.
 */
module ReminderUtils {
  import opened Js
  import Wire
  import Scheduler

  /** The add/edit form's data (`ReminderFormData`). */
  datatype FormData = FormData(
    message: string,
    icon: string,
    color: string,
    kind: string,
    interval: Option<int>,
    times: Option<seq<string>>,
    displayMinutes: int,
    enabled: bool)

  /** A stored reminder as these helpers read it. */
  datatype Reminder = Reminder(
    id: string,
    message: string,
    icon: string,
    color: string,
    kind: string,
    interval: Option<int>,
    times: Option<seq<string>>,
    displayMinutes: int,
    enabled: bool)

  predicate IsIntervalType(kind: string) {
    kind == Wire.IntervalType
  }

  predicate IsScheduledType(kind: string) {
    kind == Wire.ScheduledType
  }

  /** No type is both. */
  lemma TypesExclusive(kind: string)
    ensures !(IsIntervalType(kind) && IsScheduledType(kind))
  {
    assert Wire.IntervalType[0] != Wire.ScheduledType[0];
  }

  /** `times && times.length > 0` */
  predicate HasTimes(times: Option<seq<string>>) {
    times.Some? && |times.value| > 0
  }

  /** The caption on a reminder card: a translation key with its argument. */
  datatype RepeatText =
    | RepeatEveryMinutes(minutes: int)
    | DailyAt(time: string)
    | TimesADay(count: nat)
    | NoRepeatText

  /** `getRepeatText(reminder)` */
  function GetRepeatText(r: Reminder): (text: RepeatText)
    ensures text.RepeatEveryMinutes? <==> IsIntervalType(r.kind) && NumTruthy(r.interval)
    ensures text.DailyAt? <==> IsScheduledType(r.kind) && r.times.Some? && |r.times.value| == 1
    ensures text.TimesADay? <==> IsScheduledType(r.kind) && r.times.Some? && |r.times.value| > 1
    ensures text.RepeatEveryMinutes? ==> text.minutes == r.interval.value
    ensures text.DailyAt? ==> text.time == r.times.value[0]
    ensures text.TimesADay? ==> text.count == |r.times.value|
  {
    if IsIntervalType(r.kind) && NumTruthy(r.interval) then RepeatEveryMinutes(r.interval.value)
    else if IsScheduledType(r.kind) && HasTimes(r.times) then
      if |r.times.value| == 1 then DailyAt(r.times.value[0]) else TimesADay(|r.times.value|)
    else NoRepeatText
  }

  /** The caption under the form's preview. */
  datatype PreviewText =
    | RepeatsEvery(minutes: int)
    | TimesDaily(count: nat, times: string)
    | NoPreviewText

  /** `getPreviewText(formData)` */
  function GetPreviewText(f: FormData): (text: PreviewText)
    ensures text.RepeatsEvery? <==> IsIntervalType(f.kind) && NumTruthy(f.interval)
    ensures text.TimesDaily? <==> IsScheduledType(f.kind) && HasTimes(f.times)
    ensures text.RepeatsEvery? ==> text.minutes == f.interval.value
    ensures text.TimesDaily? ==> text.count == |f.times.value| && text.times == Join(f.times.value, ", ")
  {
    if IsIntervalType(f.kind) && NumTruthy(f.interval) then RepeatsEvery(f.interval.value)
    else if IsScheduledType(f.kind) && HasTimes(f.times) then TimesDaily(|f.times.value|, Join(f.times.value, ", "))
    else NoPreviewText
  }

  /** `toElectronReminder(reminder)`: the nine fields, copied unchanged. */
  function ToElectronReminder(r: Reminder): (w: Wire.Reminder) {
    Wire.Reminder(r.id, r.message, Some(r.icon), r.color, Some(r.kind), r.interval, r.times,
                  Some(r.displayMinutes), Some(r.enabled))
  }

  /**
   * Because the type is copied unchanged, the scheduler plans exactly what
   * the card's caption describes: an interval timer of that many minutes, a
   * daily checker at the listed times, or (no caption) nothing.
   */
  lemma CaptionMatchesSchedule(r: Reminder)
    requires r.enabled
    ensures var plan := Scheduler.PlanOf(ToElectronReminder(r));
            var text := GetRepeatText(r);
            && (text.RepeatEveryMinutes? <==> plan.Every?)
            && (text.RepeatEveryMinutes? ==> plan.periodMs == text.minutes * 60000)
            && (text.DailyAt? ==> plan == Scheduler.DailyAt([text.time]))
            && (text.TimesADay? ==> plan.DailyAt? && |plan.times| == text.count)
            && (text.NoRepeatText? <==> plan.NoTimer?)
  {
    if GetRepeatText(r).DailyAt? {
      assert r.times.value == [r.times.value[0]];
    }
  }

  /** Why a form is refused. */
  datatype FormError = MessageRequired | AddTimeRequired

  datatype Validation = Valid | Invalid(error: FormError)

  /** `validateReminderForm(formData)`: the message is checked first, then the times of a scheduled form. */
  function ValidateReminderForm(f: FormData): (v: Validation) {
    if Trim(f.message) == "" then Invalid(MessageRequired)
    else if IsScheduledType(f.kind) && !HasTimes(f.times) then Invalid(AddTimeRequired)
    else Valid
  }

  /**
   * A form is valid exactly when its message is not all white space and,
   * for a scheduled form, it has a time; a blank message is reported
   * whatever else is wrong, and the interval is never checked.
   */
  lemma ValidateReminderFormIff(f: FormData)
    ensures ValidateReminderForm(f) == Invalid(MessageRequired) <==> IsBlank(f.message)
    ensures ValidateReminderForm(f) == Invalid(AddTimeRequired) <==>
              !IsBlank(f.message) && IsScheduledType(f.kind) && !HasTimes(f.times)
    ensures ValidateReminderForm(f) == Valid <==>
              !IsBlank(f.message) && (IsScheduledType(f.kind) ==> HasTimes(f.times))
    ensures forall n :: ValidateReminderForm(f.(interval := n)) == ValidateReminderForm(f)
  {
    TrimEmptyIffBlank(f.message);
  }

  /** The reminder the store makes of a valid enabled scheduled form gets a daily checker at the form's times. */
  lemma ValidScheduledFormIsScheduled(f: FormData, id: string)
    requires ValidateReminderForm(f) == Valid && IsScheduledType(f.kind) && f.enabled
    ensures Scheduler.PlanOf(ToElectronReminder(Reminder(id, f.message, f.icon, f.color, f.kind, f.interval,
                                                         f.times, f.displayMinutes, f.enabled)))
            == Scheduler.DailyAt(f.times.value)
  {
    TypesExclusive(f.kind);
  }
}
