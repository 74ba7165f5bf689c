/**
 * Editing the time list of a scheduled reminder's form
 * (src/hooks/useTimeManagement.ts): append the default time, remove an
 * entry with `splice`, replace an entry. Each operation works on a fresh
 * copy of the list and hands it to the form's `updateFormData`.
 */
module TimeManagement {
  import opened Js
  import opened ReminderUtils
  import opened ReminderForm

  /** `formData.times || []` */
  function TimesOf(f: FormData): seq<string> {
    if f.times.Some? then f.times.value else []
  }

  /** `[...times, "09:00"]` */
  function WithDefaultTime(times: seq<string>): (r: seq<string>)
    ensures |r| == |times| + 1 && r[..|times|] == times && r[|times|] == DefaultTime
  {
    times + [DefaultTime]
  }

  /** Where `splice(index, 1)` starts: a negative index counts from the end, and the start is clamped to the list. */
  function SpliceStart(length: nat, index: int): (k: nat)
    ensures k <= length
  {
    if index < 0 then (if length + index < 0 then 0 else length + index)
    else if index > length then length else index
  }

  /** The list after `splice(index, 1)`. */
  function Spliced(times: seq<string>, index: int): seq<string> {
    var k := SpliceStart(|times|, index);
    if k < |times| then times[..k] + times[k + 1..] else times
  }

  /** For an index inside the list exactly that entry goes, the others keep their order; past the end nothing goes. */
  lemma SplicedRemovesOne(times: seq<string>, index: int)
    ensures 0 <= index < |times| ==>
              && |Spliced(times, index)| == |times| - 1
              && (forall j | 0 <= j < index :: Spliced(times, index)[j] == times[j])
              && (forall j | index <= j < |times| - 1 :: Spliced(times, index)[j] == times[j + 1])
    ensures index >= |times| ==> Spliced(times, index) == times
    ensures -|times| <= index < 0 ==> Spliced(times, index) == Spliced(times, |times| + index)
  {
  }

  /** `addTime()` */
  method AddTime(form: Form)
    modifies form
    ensures form.formData == old(form.formData).(times := Some(WithDefaultTime(TimesOf(old(form.formData)))))
  {
    form.UpdateFormData(TimesPatch(WithDefaultTime(TimesOf(form.formData))));
  }

  /** Copy a list into a fresh array (`[...times]`). */
  method CopyOf(times: seq<string>) returns (a: array<string>)
    ensures fresh(a) && a[..] == times
  {
    a := new string[|times|](i requires 0 <= i < |times| => times[i]);
  }

  /** `splice(index, 1)` on the array, returning the list it then holds. */
  method SpliceOne(a: array<string>, index: int) returns (r: seq<string>)
    modifies a
    ensures r == Spliced(old(a[..]), index)
  {
    ghost var s := a[..];
    var k := SpliceStart(a.Length, index);
    if k >= a.Length {
      return a[..];
    }
    var j := k;
    while j < a.Length - 1
      invariant k <= j <= a.Length - 1 && a.Length == |s|
      invariant forall i | 0 <= i < k :: a[i] == s[i]
      invariant forall i | k <= i < j :: a[i] == s[i + 1]
      invariant forall i | j < i < a.Length :: a[i] == s[i]
    {
      a[j] := a[j + 1];
      j := j + 1;
    }
    r := a[..a.Length - 1];
    assert |r| == |s[..k] + s[k + 1..]|;
    assert forall i | 0 <= i < |r| :: r[i] == (s[..k] + s[k + 1..])[i];
  }

  /** `removeTime(index)` */
  method RemoveTime(form: Form, index: int)
    modifies form
    ensures form.formData == old(form.formData).(times := Some(Spliced(TimesOf(old(form.formData)), index)))
  {
    var newTimes := CopyOf(TimesOf(form.formData));
    var spliced := SpliceOne(newTimes, index);
    form.UpdateFormData(TimesPatch(spliced));
  }

  /**
   * `updateTime(index, time)`: an entry inside the list is replaced, an
   * index just past the end appends, and a negative index leaves the
   * entries as they are.
   */
  function Updated(times: seq<string>, index: int, time: string): (r: seq<string>)
    requires index <= |times|
  {
    if index < 0 then times
    else if index == |times| then times + [time]
    else times[index := time]
  }

  lemma UpdatedReplacesOne(times: seq<string>, index: int, time: string)
    requires 0 <= index < |times|
    ensures |Updated(times, index, time)| == |times|
    ensures Updated(times, index, time)[index] == time
    ensures forall j | 0 <= j < |times| && j != index :: Updated(times, index, time)[j] == times[j]
  {
  }

  method UpdateTime(form: Form, index: int, time: string)
    requires index <= |TimesOf(form.formData)|
    modifies form
    ensures form.formData == old(form.formData).(times := Some(Updated(TimesOf(old(form.formData)), index, time)))
  {
    var times := TimesOf(form.formData);
    var newTimes: seq<string>;
    if 0 <= index < |times| {
      var a := CopyOf(times);
      a[index] := time;
      newTimes := a[..];
    } else if index == |times| {
      newTimes := times + [time];
    } else {
      newTimes := times;
    }
    form.UpdateFormData(TimesPatch(newTimes));
  }
}
