/**
 * The add/edit form's state (src/hooks/useReminderForm.ts): the form data
 * record, replaced by a merge or a reset, and the quick validity flag.
 */
module ReminderForm {
  import opened Js
  import opened ReminderUtils
  import Wire

  const DefaultIcon := "\U{1F4A7}"
  const DefaultTime := "09:00"
  /** The first preset colour. */
  const FirstPresetColor := "#8b5cf6"

  /** An empty message, the droplet, the first colour, every 30 minutes (or daily at 09:00), shown for 1 minute, enabled. */
  const DefaultFormData := FormData("", DefaultIcon, FirstPresetColor, Wire.IntervalType, Some(30), Some([DefaultTime]), 1, true)

  /** A `Partial<ReminderFormData>`: the fields present replace the form's. */
  datatype FormPatch = FormPatch(
    message: Option<string>,
    icon: Option<string>,
    color: Option<string>,
    kind: Option<string>,
    interval: Option<int>,
    times: Option<seq<string>>,
    displayMinutes: Option<int>,
    enabled: Option<bool>)

  /** A patch that sets only the times. */
  function TimesPatch(times: seq<string>): FormPatch {
    FormPatch(None, None, None, None, None, Some(times), None, None)
  }

  /** `{ ...prev, ...patch }` */
  function MergeForm(f: FormData, p: FormPatch): FormData {
    FormData(p.message.GetOr(f.message), p.icon.GetOr(f.icon), p.color.GetOr(f.color), p.kind.GetOr(f.kind),
             if p.interval.Some? then p.interval else f.interval,
             if p.times.Some? then p.times else f.times,
             p.displayMinutes.GetOr(f.displayMinutes), p.enabled.GetOr(f.enabled))
  }

  /** A merge overwrites exactly the fields the patch supplies; merging the same patch again changes nothing. */
  lemma MergeFormFields(f: FormData, p: FormPatch)
    ensures var m := MergeForm(f, p);
            && m.message == (if p.message.Some? then p.message.value else f.message)
            && m.icon == (if p.icon.Some? then p.icon.value else f.icon)
            && m.color == (if p.color.Some? then p.color.value else f.color)
            && m.kind == (if p.kind.Some? then p.kind.value else f.kind)
            && m.times == (if p.times.Some? then p.times else f.times)
            && m.interval == (if p.interval.Some? then p.interval else f.interval)
            && m.displayMinutes == (if p.displayMinutes.Some? then p.displayMinutes.value else f.displayMinutes)
            && m.enabled == (if p.enabled.Some? then p.enabled.value else f.enabled)
    ensures MergeForm(MergeForm(f, p), p) == MergeForm(f, p)
    ensures MergeForm(f, TimesPatch(if f.times.Some? then f.times.value else [])) ==
              f.(times := Some(if f.times.Some? then f.times.value else []))
  {
  }

  /** `isFormValid`: the trimmed message is not empty. */
  function IsFormValid(f: FormData): (valid: bool)
    ensures valid <==> !IsBlank(f.message)
  {
    TrimEmptyIffBlank(f.message);
    |Trim(f.message)| > 0
  }

  /** A form that passes validation is form-valid, but a scheduled form without times is form-valid and still refused. */
  lemma FormValidIsWeaker(f: FormData)
    ensures ValidateReminderForm(f) == Valid ==> IsFormValid(f)
    ensures IsFormValid(f) && f.kind == Wire.ScheduledType && f.times == Some([]) ==>
              ValidateReminderForm(f) == Invalid(AddTimeRequired)
  {
    ValidateReminderFormIff(f);
  }

  /** The default form is not valid until a message is typed. */
  lemma DefaultFormNeedsMessage()
    ensures !IsFormValid(DefaultFormData)
    ensures ValidateReminderForm(DefaultFormData) == Invalid(MessageRequired)
  {
  }

  class Form {
    var formData: FormData

    /** `useReminderForm(initialData)`: the given data, or the default form. */
    constructor (initialData: Option<FormData>)
      ensures formData == (if initialData.Some? then initialData.value else DefaultFormData)
    {
      formData := initialData.GetOr(DefaultFormData);
    }

    /** `updateFormData(patch)` */
    method UpdateFormData(p: FormPatch)
      modifies this
      ensures formData == MergeForm(old(formData), p)
    {
      formData := MergeForm(formData, p);
    }

    /** `resetForm()`; resetting again changes nothing. */
    method ResetForm()
      modifies this
      ensures formData == DefaultFormData
    {
      formData := DefaultFormData;
    }
  }
}
