/**
 * The renderer's sound state (src/utils/sound.ts): the lazily created audio
 * element, the repeat loop `soundInterval` and the reference to the latest
 * play, `currentPlayPromise`. The audio itself is reduced to its volume
 * (as an integer percentage), whether it is playing and whether it is
 * rewound; timer handles and plays are abstract naturals drawn from one
 * counter, and the host's live repeat timers are the map `loops`.
 */
module Sound {
  import opened Js

  /** The default repeat period. */
  const DefaultRepeatMs := 5000

  /** A live repeat timer: the volume it plays at and its period. */
  datatype Loop = Loop(volume: int, periodMs: int)

  datatype SoundState = SoundState(
    hasAudio: bool,
    created: nat,
    volumePercent: int,
    playing: bool,
    atStart: bool,
    soundInterval: Option<nat>,
    loops: map<nat, Loop>,
    currentPlay: Option<nat>,
    nextHandle: nat)

  const Silent := SoundState(false, 0, 100, false, true, None, map[], None, 0)

  /** At most one repeat timer is live, and it is the one `soundInterval` holds; handles are below the counter. */
  ghost predicate Inv(s: SoundState) {
    && (s.soundInterval.Some? ==> s.soundInterval.value in s.loops)
    && (forall h | h in s.loops :: s.soundInterval == Some(h))
    && (forall h | h in s.loops :: h < s.nextHandle)
    && (s.currentPlay.Some? ==> s.currentPlay.value < s.nextHandle)
  }

  /** `Math.max(0, Math.min(1, volume / 100))`, as a percentage. */
  function ClampPercent(volume: int): (p: int)
    ensures 0 <= p <= 100
    ensures 0 <= volume <= 100 ==> p == volume
    ensures volume < 0 ==> p == 0
    ensures volume > 100 ==> p == 100
  {
    if volume < 0 then 0 else if volume > 100 then 100 else volume
  }

  /** Clamping is monotone and clamping a clamped volume changes nothing. */
  lemma ClampMonotone(v1: int, v2: int)
    ensures v1 <= v2 ==> ClampPercent(v1) <= ClampPercent(v2)
    ensures ClampPercent(ClampPercent(v1)) == ClampPercent(v1)
  {
  }

  /** `getAudioElement()`: the element is created only when there is none. */
  function AfterGetAudio(s: SoundState): SoundState {
    if s.hasAudio then s else s.(hasAudio := true, created := s.created + 1)
  }

  /** `playNotificationSound(volume)` up to the `await`: set the volume, rewind, play, and record the play. */
  function AfterPlay(s: SoundState, volume: int): SoundState {
    var a := AfterGetAudio(s);
    a.(volumePercent := ClampPercent(volume), atStart := false, playing := true,
       currentPlay := Some(a.nextHandle), nextHandle := a.nextHandle + 1)
  }

  /** The play's `finally`: the reference is dropped only if it still names this play. */
  function AfterSettled(s: SoundState, play: nat): SoundState {
    if s.currentPlay == Some(play) then s.(currentPlay := None) else s
  }

  /** `stopRepeatedSound()` */
  function AfterStopRepeated(s: SoundState): SoundState {
    var c := if s.soundInterval.Some? then s.(loops := s.loops - {s.soundInterval.value}, soundInterval := None) else s;
    if c.hasAudio then c.(playing := false, atStart := true) else c
  }

  /** `stopAllSounds()` */
  function AfterStopAll(s: SoundState): SoundState {
    AfterStopRepeated(s).(currentPlay := None)
  }

  /** `playNotificationSoundRepeatedly(volume, intervalMs)`: stop, play once, and start a new repeat timer. */
  function AfterPlayRepeatedly(s: SoundState, volume: int, intervalMs: Option<int>): SoundState {
    var p := AfterPlay(AfterStopRepeated(s), volume);
    var h := p.nextHandle;
    p.(soundInterval := Some(h), loops := p.loops[h := Loop(volume, intervalMs.GetOr(DefaultRepeatMs))],
       nextHandle := h + 1)
  }

  /** A repeat timer fires: it plays again at its volume. */
  function AfterRepeatTick(s: SoundState, h: nat): SoundState
    requires h in s.loops
  {
    AfterPlay(s, s.loops[h].volume)
  }

  lemma SilentInv()
    ensures Inv(Silent)
  {
  }

  lemma StopRepeatedKeepsInv(s: SoundState)
    requires Inv(s)
    ensures Inv(AfterStopRepeated(s)) && AfterStopRepeated(s).loops == map[]
  {
  }

  lemma PlayKeepsInv(s: SoundState, volume: int)
    requires Inv(s)
    ensures Inv(AfterPlay(s, volume))
  {
  }

  /** Starting a repeat stops the previous one first: afterwards exactly one repeat timer is live. */
  lemma PlayRepeatedlyKeepsOneLoop(s: SoundState, volume: int, intervalMs: Option<int>)
    requires Inv(s)
    ensures var r := AfterPlayRepeatedly(s, volume, intervalMs);
            && Inv(r)
            && r.soundInterval.Some?
            && r.loops == map[r.soundInterval.value := Loop(volume, if intervalMs.Some? then intervalMs.value else 5000)]
            && r.playing && r.volumePercent == ClampPercent(volume)
  {
    StopRepeatedKeepsInv(s);
  }

  lemma RepeatTickKeepsInv(s: SoundState, h: nat)
    requires Inv(s) && h in s.loops
    ensures Inv(AfterRepeatTick(s, h)) && AfterRepeatTick(s, h).loops == s.loops
  {
  }

  /** Stopping leaves no repeat timer; stopping twice is stopping once; stopping when nothing was started changes nothing. */
  lemma StopRepeatedIdempotent(s: SoundState)
    requires Inv(s)
    ensures AfterStopRepeated(s).soundInterval.None? && AfterStopRepeated(s).loops == map[]
    ensures AfterStopRepeated(AfterStopRepeated(s)) == AfterStopRepeated(s)
    ensures s.soundInterval.None? && !s.hasAudio ==> AfterStopRepeated(s) == s
  {
  }

  /** `stopAllSounds()` clears the loop and the play reference, and keeps the invariant. */
  lemma StopAllClears(s: SoundState)
    requires Inv(s)
    ensures var r := AfterStopAll(s);
            && Inv(r) && r.soundInterval.None? && r.loops == map[] && r.currentPlay.None?
            && (s.hasAudio ==> !r.playing && r.atStart)
  {
  }

  /** An older play settling after a newer one started leaves the newer play's reference alone. */
  lemma StaleSettleKeepsNewerPlay(s: SoundState, v1: int, v2: int)
    requires Inv(s)
    ensures var first := AfterPlay(s, v1);
            var second := AfterPlay(first, v2);
            && first.currentPlay.Some? && second.currentPlay.Some?
            && first.currentPlay != second.currentPlay
            && AfterSettled(second, first.currentPlay.value) == second
            && AfterSettled(second, second.currentPlay.value).currentPlay.None?
  {
  }

  /** The audio element is created once, by the first call. */
  lemma AudioCreatedOnce(s: SoundState)
    ensures AfterGetAudio(s).hasAudio
    ensures AfterGetAudio(s).created == s.created + (if s.hasAudio then 0 else 1)
    ensures AfterGetAudio(AfterGetAudio(s)) == AfterGetAudio(s)
  {
  }

  /** The module's variables, with the audio reduced to volume, playing and rewound. */
  class SoundPlayer {
    var hasAudio: bool
    var created: nat
    var volumePercent: int
    var playing: bool
    var atStart: bool
    var soundInterval: Option<nat>
    var loops: map<nat, Loop>
    var currentPlay: Option<nat>
    var nextHandle: nat

    function Snapshot(): SoundState
      reads this
    {
      SoundState(hasAudio, created, volumePercent, playing, atStart, soundInterval, loops, currentPlay, nextHandle)
    }

    constructor ()
      ensures Snapshot() == Silent
    {
      hasAudio, created, volumePercent, playing, atStart := false, 0, 100, false, true;
      soundInterval, loops, currentPlay, nextHandle := None, map[], None, 0;
    }

    /** `getAudioElement()` */
    method GetAudioElement()
      modifies this
      ensures Snapshot() == AfterGetAudio(old(Snapshot()))
    {
      if !hasAudio {
        hasAudio := true;
        created := created + 1;
      }
    }

    /** `playNotificationSound(volume)`: the returned handle names this play. */
    method PlayNotificationSound(volume: int) returns (play: nat)
      modifies this
      ensures Snapshot() == AfterPlay(old(Snapshot()), volume)
      ensures currentPlay == Some(play)
    {
      GetAudioElement();
      volumePercent := ClampPercent(volume);
      atStart := false;
      playing := true;
      play := nextHandle;
      nextHandle := nextHandle + 1;
      currentPlay := Some(play);
    }

    /** The `finally` of a play. */
    method PlaySettled(play: nat)
      modifies this
      ensures Snapshot() == AfterSettled(old(Snapshot()), play)
    {
      if currentPlay == Some(play) {
        currentPlay := None;
      }
    }

    /** `stopRepeatedSound()` */
    method StopRepeatedSound()
      modifies this
      ensures Snapshot() == AfterStopRepeated(old(Snapshot()))
    {
      if soundInterval.Some? {
        loops := loops - {soundInterval.value};
        soundInterval := None;
      }
      if hasAudio {
        playing := false;
        atStart := true;
      }
    }

    /** `stopAllSounds()` */
    method StopAllSounds()
      modifies this
      ensures Snapshot() == AfterStopAll(old(Snapshot()))
    {
      StopRepeatedSound();
      currentPlay := None;
    }

    /** `playNotificationSoundRepeatedly(volume, intervalMs)`; the stop function it returns is `StopRepeatedSound`. */
    method PlayNotificationSoundRepeatedly(volume: int, intervalMs: Option<int>) returns (timer: nat)
      modifies this
      ensures Snapshot() == AfterPlayRepeatedly(old(Snapshot()), volume, intervalMs)
      ensures soundInterval == Some(timer)
    {
      StopRepeatedSound();
      var _ := PlayNotificationSound(volume);
      timer := nextHandle;
      nextHandle := nextHandle + 1;
      soundInterval := Some(timer);
      loops := loops[timer := Loop(volume, intervalMs.GetOr(DefaultRepeatMs))];
    }

    /** The repeat timer h fires. */
    method RepeatTick(h: nat)
      requires h in loops
      modifies this
      ensures Snapshot() == AfterRepeatTick(old(Snapshot()), h)
    {
      var _ := PlayNotificationSound(loops[h].volume);
    }
  }
}
