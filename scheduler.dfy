/**
 * The scheduler registry of the Electron main process
 * (electron/services/reminderScheduler.ts, and the older copy in
 * electron/main.ts): one interval timer or one fixed-time checker per
 * reminder id, and a per-id memo of the minute a fixed-time reminder last
 * fired.
 *
 * Timer handles are abstract naturals. The host's timer table is the map
 * `running` from live handles to the id whose callback they run;
 * `setInterval` adds to it and `clearInterval` removes from it. The clock is
 * an argument of `Tick`, and a fire is reported as the `Notice` the callback
 * hands to the notification dispatcher.
 */
module Scheduler {
  import opened Js
  import opened Wire

  /** The icon used when a reminder has none. */
  const DefaultIcon := "\U{1F4A7}"
  /** The same default as electron/main.ts spells it: the droplet's UTF-8 bytes read as Windows-1252. */
  const LegacyDefaultIcon := "\U{00F0}\U{0178}\U{2019}\U{00A7}"
  /** A fixed-time checker runs once a minute. */
  const CheckPeriodMs := 60000

  /** What a firing timer passes to the notification dispatcher. */
  datatype Notice = Notice(icon: string, message: string, color: string, displayMinutes: int, reminderId: Option<string>)

  datatype Timer =
    | IntervalTimer(handle: nat, periodMs: int, notice: Notice)
    | FixedTimeChecker(handle: nat, times: seq<string>, notice: Notice)

  /** Which timer `scheduleReminder` installs for a reminder. */
  datatype Plan = NoTimer | Every(periodMs: int) | DailyAt(times: seq<string>)

  function PlanOf(r: Reminder): Plan {
    if !BoolTruthy(r.enabled) then NoTimer
    else if r.kind == Some(IntervalType) && NumTruthy(r.interval) then Every(r.interval.value * 60 * 1000)
    else if r.kind == Some(ScheduledType) && r.times.Some? && |r.times.value| > 0 then DailyAt(r.times.value)
    else NoTimer
  }

  function NoticeOf(r: Reminder, defaultIcon: string, tagsReminderId: bool): Notice {
    Notice(StrOr(r.icon, defaultIcon), r.message, r.color, NumOr(r.displayMinutes, 1),
           if tagsReminderId then Some(r.id) else None)
  }

  /** A plan is a timer only for an enabled reminder of a known type, and an interval timer never has period 0. */
  lemma PlanRules(r: Reminder)
    ensures !BoolTruthy(r.enabled) ==> PlanOf(r) == NoTimer
    ensures r.kind != Some(IntervalType) && r.kind != Some(ScheduledType) ==> PlanOf(r) == NoTimer
    ensures r.kind == Some(IntervalType) && !NumTruthy(r.interval) ==> PlanOf(r) == NoTimer
    ensures r.kind == Some(ScheduledType) && (r.times.None? || r.times.value == []) ==> PlanOf(r) == NoTimer
    ensures PlanOf(r).Every? ==> PlanOf(r).periodMs != 0 && PlanOf(r).periodMs == r.interval.value * 60000
    ensures PlanOf(r).DailyAt? ==> PlanOf(r).times == r.times.value && |PlanOf(r).times| > 0
  {
  }

  /** The notice defaults: an empty icon becomes the default icon and a zero duration becomes 1. */
  lemma NoticeDefaults(r: Reminder, defaultIcon: string, tagsReminderId: bool)
    ensures NoticeOf(r, defaultIcon, tagsReminderId).icon == (if StrTruthy(r.icon) then r.icon.value else defaultIcon)
    ensures NoticeOf(r, defaultIcon, tagsReminderId).displayMinutes != 0
    ensures NoticeOf(r, defaultIcon, tagsReminderId).displayMinutes == (if NumTruthy(r.displayMinutes) then r.displayMinutes.value else 1)
    ensures NoticeOf(r, defaultIcon, tagsReminderId).reminderId == (if tagsReminderId then Some(r.id) else None)
  {
  }

  // ---------------------------------------------------------------------
  // The fixed-time rule
  // ---------------------------------------------------------------------

  /** The `${hours}:${minutes}` memo key of a clock minute (no zero padding). */
  function MinuteKey(hour: nat, minute: nat): string {
    Decimal(hour) + ":" + Decimal(minute)
  }

  /** A time entry matches when `Number` of its first two ':'-separated parts equals the clock's hour and minute. */
  predicate EntryMatches(time: string, hour: nat, minute: nat) {
    var parts := Split(time, ':');
    Number(parts[0]) == Some(hour) && |parts| >= 2 && Number(parts[1]) == Some(minute)
  }

  /** `times.some(...)`: some entry matches the clock. */
  predicate ShouldTrigger(times: seq<string>, hour: nat, minute: nat) {
    exists i :: 0 <= i < |times| && EntryMatches(times[i], hour, minute)
  }

  /** One tick of a fixed-time checker: whether it fires, and the memo afterwards. */
  function TickStep(times: seq<string>, last: Option<string>, hour: nat, minute: nat): (bool, Option<string>) {
    var key := MinuteKey(hour, minute);
    if ShouldTrigger(times, hour, minute) && last != Some(key) then (true, Some(key)) else (false, last)
  }

  lemma SplitMinuteKey(hour: nat, minute: nat)
    ensures Split(MinuteKey(hour, minute), ':') == [Decimal(hour), Decimal(minute)]
  {
    DecimalHasNoColon(hour);
    DecimalHasNoColon(minute);
    SplitAtFirst(Decimal(hour), Decimal(minute), ':');
    assert MinuteKey(hour, minute) == Decimal(hour) + [':'] + Decimal(minute);
  }

  /** Distinct clock minutes have distinct memo keys. */
  lemma MinuteKeyInjective(h1: nat, m1: nat, h2: nat, m2: nat)
    requires MinuteKey(h1, m1) == MinuteKey(h2, m2)
    ensures h1 == h2 && m1 == m2
  {
    SplitMinuteKey(h1, m1);
    SplitMinuteKey(h2, m2);
    NumberOfDecimal(h1);
    NumberOfDecimal(m1);
    NumberOfDecimal(h2);
    NumberOfDecimal(m2);
  }

  /** The memo key, read back as a time entry, matches its own minute. */
  lemma MinuteKeyMatchesItsMinute(hour: nat, minute: nat)
    ensures EntryMatches(MinuteKey(hour, minute), hour, minute)
  {
    SplitMinuteKey(hour, minute);
    NumberOfDecimal(hour);
    NumberOfDecimal(minute);
  }

  /** A zero-padded "HH:MM" entry (what the time input produces) matches exactly its hour and minute. */
  lemma PaddedEntryMatches(hour: nat, minute: nat, h: nat, m: nat)
    requires hour < 100 && minute < 100
    ensures EntryMatches(Pad2(hour) + ":" + Pad2(minute), h, m) <==> h == hour && m == minute
  {
    NumberOfPad2(hour);
    NumberOfPad2(minute);
    SplitAtFirst(Pad2(hour), Pad2(minute), ':');
    assert Pad2(hour) + ":" + Pad2(minute) == Pad2(hour) + [':'] + Pad2(minute);
  }

  /** Two ticks in the same minute fire at most once. */
  lemma SameMinuteFiresOnce(times: seq<string>, last: Option<string>, hour: nat, minute: nat)
    ensures !TickStep(times, TickStep(times, last, hour, minute).1, hour, minute).0
  {
  }

  /** After firing, the next matching minute that is a different minute fires again. */
  lemma NextMatchingMinuteFires(times: seq<string>, last: Option<string>, h1: nat, m1: nat, h2: nat, m2: nat)
    requires TickStep(times, last, h1, m1).0
    requires ShouldTrigger(times, h2, m2) && (h1 != h2 || m1 != m2)
    ensures TickStep(times, TickStep(times, last, h1, m1).1, h2, m2).0
  {
    if MinuteKey(h1, m1) == MinuteKey(h2, m2) {
      MinuteKeyInjective(h1, m1, h2, m2);
    }
  }

  /** A reminder with times ["09:00"] fires at 9:00 and the second tick at 9:00 stays silent. */
  lemma NineOClockFiresExactlyOnce(last: Option<string>)
    requires last != Some(MinuteKey(9, 0))
    ensures TickStep(["09:00"], last, 9, 0) == (true, Some(MinuteKey(9, 0)))
    ensures !TickStep(["09:00"], Some(MinuteKey(9, 0)), 9, 0).0
  {
    PaddedEntryMatches(9, 0, 9, 0);
    assert Pad2(9) + ":" + Pad2(0) == "09:00";
    assert EntryMatches(["09:00"][0], 9, 0);
  }

  /** `times.some(...)` as the tick computes it: stop at the first entry that matches. */
  method SomeTimeMatches(times: seq<string>, hour: nat, minute: nat) returns (b: bool)
    ensures b <==> ShouldTrigger(times, hour, minute)
  {
    b := false;
    var i := 0;
    while i < |times| && !b
      invariant 0 <= i <= |times|
      invariant b <==> exists j :: 0 <= j < i && EntryMatches(times[j], hour, minute)
    {
      b := EntryMatches(times[i], hour, minute);
      i := i + 1;
    }
  }

  // ---------------------------------------------------------------------
  // The registry
  // ---------------------------------------------------------------------

  class Registry {
    /** The icon a reminder without one gets. */
    const defaultIcon: string
    /** Whether a fire passes the reminder id on (the services copy does, main.ts does not). */
    const tagsReminderId: bool

    var intervals: map<string, Timer>
    var checkers: map<string, Timer>
    var lastTriggers: map<string, string>
    /** The host's table of live timers: handle to the reminder id whose callback it runs. */
    var running: map<nat, string>
    var nextHandle: nat

    /**
     * Every live timer is the one registered for its id, every registered
     * timer is live, an id has an interval timer or a checker but not both,
     * and a memo only exists beside a checker.
     */
    ghost predicate Valid()
      reads this
    {
      && intervals.Keys !! checkers.Keys
      && lastTriggers.Keys <= checkers.Keys
      && (forall id | id in intervals ::
            intervals[id].IntervalTimer? && intervals[id].handle in running && running[intervals[id].handle] == id)
      && (forall id | id in checkers ::
            checkers[id].FixedTimeChecker? && checkers[id].handle in running && running[checkers[id].handle] == id)
      && (forall h | h in running ::
            h < nextHandle
            && ((running[h] in intervals && intervals[running[h]].handle == h)
                || (running[h] in checkers && checkers[running[h]].handle == h)))
    }

    /** The memo of an id, `lastFixedTimeTriggers.get(id)`. */
    function Memo(id: string): Option<string>
      reads this
    {
      if id in lastTriggers then Some(lastTriggers[id]) else None
    }

    constructor (defaultIcon: string, tagsReminderId: bool)
      ensures Valid()
      ensures this.defaultIcon == defaultIcon && this.tagsReminderId == tagsReminderId
      ensures intervals == map[] && checkers == map[] && lastTriggers == map[] && running == map[]
    {
      this.defaultIcon := defaultIcon;
      this.tagsReminderId := tagsReminderId;
      intervals, checkers, lastTriggers, running := map[], map[], map[], map[];
      nextHandle := 0;
    }

    /** `clearReminderScheduler(id)`: stop and forget that id's timer and memo; other ids keep theirs. */
    method ClearReminderScheduler(id: string)
      requires Valid()
      modifies this
      ensures Valid()
      ensures intervals == old(intervals) - {id} && checkers == old(checkers) - {id}
      ensures lastTriggers == old(lastTriggers) - {id}
      ensures forall h :: h in running <==> h in old(running) && old(running)[h] != id
      ensures forall h | h in running :: running[h] == old(running)[h]
      ensures nextHandle == old(nextHandle)
    {
      if id in intervals {
        running := running - {intervals[id].handle};
        intervals := intervals - {id};
      }
      if id in checkers {
        running := running - {checkers[id].handle};
        checkers := checkers - {id};
      }
      lastTriggers := lastTriggers - {id};
    }

    /**
     * `scheduleReminder(r)`: replace whatever r.id had by the timer PlanOf(r)
     * names; the timers and memos of other ids are untouched.
     */
    method ScheduleReminder(r: Reminder)
      requires Valid()
      modifies this
      ensures Valid()
      ensures lastTriggers == old(lastTriggers) - {r.id}
      ensures intervals - {r.id} == old(intervals) - {r.id}
      ensures checkers - {r.id} == old(checkers) - {r.id}
      ensures r.id in intervals <==> PlanOf(r).Every?
      ensures r.id in checkers <==> PlanOf(r).DailyAt?
      ensures r.id in intervals ==>
                intervals[r.id].periodMs == PlanOf(r).periodMs
                && intervals[r.id].notice == NoticeOf(r, defaultIcon, tagsReminderId)
      ensures r.id in checkers ==>
                checkers[r.id].times == PlanOf(r).times
                && checkers[r.id].notice == NoticeOf(r, defaultIcon, tagsReminderId)
      ensures forall h | h in old(running) && old(running)[h] != r.id :: h in running && running[h] == old(running)[h]
      ensures forall h | h in running && running[h] != r.id :: h in old(running)
      ensures forall h | h in old(running) && old(running)[h] == r.id :: h !in running
      ensures r.id in intervals ==> intervals[r.id].handle == old(nextHandle) && old(nextHandle) !in old(running)
      ensures r.id in checkers ==> checkers[r.id].handle == old(nextHandle) && old(nextHandle) !in old(running)
    {
      ClearReminderScheduler(r.id);
      if !BoolTruthy(r.enabled) {
        return;
      }
      var notice := Notice(StrOr(r.icon, defaultIcon), r.message, r.color, NumOr(r.displayMinutes, 1),
                           if tagsReminderId then Some(r.id) else None);
      if r.kind == Some(IntervalType) && NumTruthy(r.interval) {
        var intervalMs := r.interval.value * 60 * 1000;
        Start(r.id, IntervalTimer(nextHandle, intervalMs, notice));
      } else if r.kind == Some(ScheduledType) && r.times.Some? && |r.times.value| > 0 {
        Start(r.id, FixedTimeChecker(nextHandle, r.times.value, notice));
      }
    }

    /** `setInterval` for an id that has no timer: the new handle is fresh and becomes the id's timer. */
    method Start(id: string, t: Timer)
      requires Valid()
      requires id !in intervals && id !in checkers && id !in lastTriggers
      requires forall h | h in running :: running[h] != id
      requires t.handle == nextHandle
      modifies this
      ensures Valid()
      ensures lastTriggers == old(lastTriggers) && nextHandle == old(nextHandle) + 1
      ensures running == old(running)[t.handle := id]
      ensures t.IntervalTimer? ==> intervals == old(intervals)[id := t] && checkers == old(checkers)
      ensures t.FixedTimeChecker? ==> checkers == old(checkers)[id := t] && intervals == old(intervals)
    {
      nextHandle := nextHandle + 1;
      running := running[t.handle := id];
      if t.IntervalTimer? {
        intervals := intervals[id := t];
      } else {
        checkers := checkers[id := t];
      }
    }

    /** An interval timer's callback: it fires every time with the notice captured at scheduling. */
    method IntervalElapsed(id: string) returns (notice: Notice)
      requires id in intervals
      ensures notice == intervals[id].notice
    {
      notice := intervals[id].notice;
    }

    /**
     * A fixed-time checker's callback at clock hour:minute: it fires iff some
     * entry matches and the memo is not this minute's key, and then the memo
     * becomes that key.
     */
    method Tick(id: string, hour: nat, minute: nat) returns (fired: bool, notice: Option<Notice>)
      requires Valid() && id in checkers
      modifies this`lastTriggers
      ensures Valid()
      ensures (fired, Memo(id)) == TickStep(checkers[id].times, old(Memo(id)), hour, minute)
      ensures lastTriggers - {id} == old(lastTriggers) - {id}
      ensures notice == if fired then Some(checkers[id].notice) else None
    {
      var currentTimeKey := MinuteKey(hour, minute);
      var lastTrigger := Memo(id);
      var shouldTrigger := SomeTimeMatches(checkers[id].times, hour, minute);
      if shouldTrigger && lastTrigger != Some(currentTimeKey) {
        lastTriggers := lastTriggers[id := currentTimeKey];
        fired, notice := true, Some(checkers[id].notice);
      } else {
        fired, notice := false, None;
      }
    }

    /** `clearAllSchedulers()`: every live timer is cleared and all three maps end empty. */
    method ClearAllSchedulers()
      requires Valid()
      modifies this
      ensures Valid()
      ensures intervals == map[] && checkers == map[] && lastTriggers == map[] && running == map[]
      ensures nextHandle == old(nextHandle)
    {
      var pending := intervals.Keys;
      while pending != {}
        invariant pending <= intervals.Keys
        invariant intervals == old(intervals) && checkers == old(checkers) && nextHandle == old(nextHandle)
        invariant forall h | h in running ::
                    (running[h] in pending && intervals[running[h]].handle == h)
                    || (running[h] in checkers && checkers[running[h]].handle == h)
        decreases pending
      {
        var id :| id in pending;
        running := running - {intervals[id].handle};
        pending := pending - {id};
      }
      pending := checkers.Keys;
      while pending != {}
        invariant pending <= checkers.Keys
        invariant intervals == old(intervals) && checkers == old(checkers) && nextHandle == old(nextHandle)
        invariant forall h | h in running :: running[h] in pending && checkers[running[h]].handle == h
        decreases pending
      {
        var id :| id in pending;
        running := running - {checkers[id].handle};
        pending := pending - {id};
      }
      assert running.Keys == {};
      intervals, checkers, lastTriggers := map[], map[], map[];
    }
  }

  /** In a valid registry no id owns two live timers. */
  lemma AtMostOneTimerPerId(reg: Registry)
    requires reg.Valid()
    ensures forall h1, h2 | h1 in reg.running && h2 in reg.running && reg.running[h1] == reg.running[h2] :: h1 == h2
  {
  }
}
