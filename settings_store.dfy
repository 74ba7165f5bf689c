/**
 * The renderer's settings store (src/store/settingsStore.ts): the app
 * settings record and the settings-panel flag, replaced field by field by
 * its actions.
 */
module SettingsStore {
  import opened Js

  datatype AppSettings = AppSettings(darkMode: bool, enabled: bool, soundEnabled: bool, soundVolume: int)

  /** Light mode, reminders on, sound on at volume 30. */
  const DefaultSettings := AppSettings(false, true, true, 30)

  /** A `Partial<AppSettings>`: the fields present override, the others are kept. */
  datatype SettingsPatch = SettingsPatch(
    darkMode: Option<bool>,
    enabled: Option<bool>,
    soundEnabled: Option<bool>,
    soundVolume: Option<int>)

  /** `{ ...settings, ...patch }` */
  function Merge(s: AppSettings, p: SettingsPatch): (r: AppSettings) {
    AppSettings(p.darkMode.GetOr(s.darkMode), p.enabled.GetOr(s.enabled),
                p.soundEnabled.GetOr(s.soundEnabled), p.soundVolume.GetOr(s.soundVolume))
  }

  /** A merge takes each field from the patch when the patch has it and keeps it otherwise. */
  lemma MergeFields(s: AppSettings, p: SettingsPatch)
    ensures Merge(s, p).darkMode == (if p.darkMode.Some? then p.darkMode.value else s.darkMode)
    ensures Merge(s, p).enabled == (if p.enabled.Some? then p.enabled.value else s.enabled)
    ensures Merge(s, p).soundEnabled == (if p.soundEnabled.Some? then p.soundEnabled.value else s.soundEnabled)
    ensures Merge(s, p).soundVolume == (if p.soundVolume.Some? then p.soundVolume.value else s.soundVolume)
  {
  }

  /** Merging the same patch twice is merging it once, and the empty patch changes nothing. */
  lemma MergeIdempotent(s: AppSettings, p: SettingsPatch)
    ensures Merge(Merge(s, p), p) == Merge(s, p)
    ensures Merge(s, SettingsPatch(None, None, None, None)) == s
  {
  }

  /** The settings with dark mode flipped. */
  function FlipDarkMode(s: AppSettings): (r: AppSettings)
    ensures r.darkMode != s.darkMode
    ensures r.enabled == s.enabled && r.soundEnabled == s.soundEnabled && r.soundVolume == s.soundVolume
  {
    s.(darkMode := !s.darkMode)
  }

  /** The settings with sound flipped. */
  function FlipSound(s: AppSettings): (r: AppSettings)
    ensures r.soundEnabled != s.soundEnabled
    ensures r.darkMode == s.darkMode && r.enabled == s.enabled && r.soundVolume == s.soundVolume
  {
    s.(soundEnabled := !s.soundEnabled)
  }

  /** Toggling twice gives back the settings toggled. */
  lemma FlipTwice(s: AppSettings)
    ensures FlipDarkMode(FlipDarkMode(s)) == s
    ensures FlipSound(FlipSound(s)) == s
  {
  }

  class Settings {
    var settings: AppSettings
    var showSettings: bool

    constructor ()
      ensures settings == DefaultSettings && !showSettings
    {
      settings := DefaultSettings;
      showSettings := false;
    }

    /** `updateSettings(patch)` */
    method UpdateSettings(p: SettingsPatch)
      modifies this`settings
      ensures settings == Merge(old(settings), p)
    {
      settings := Merge(settings, p);
    }

    /** `toggleDarkMode()` */
    method ToggleDarkMode()
      modifies this`settings
      ensures settings == FlipDarkMode(old(settings))
    {
      settings := settings.(darkMode := !settings.darkMode);
    }

    /** `toggleSound()` */
    method ToggleSound()
      modifies this`settings
      ensures settings == FlipSound(old(settings))
    {
      settings := settings.(soundEnabled := !settings.soundEnabled);
    }

    /** `setSoundVolume(volume)`: the value is stored as given, with no clamping. */
    method SetSoundVolume(volume: int)
      modifies this`settings
      ensures settings == old(settings).(soundVolume := volume)
    {
      settings := settings.(soundVolume := volume);
    }

    /** `setShowSettings(show)` */
    method SetShowSettings(show: bool)
      modifies this`showSettings
      ensures showSettings == show
    {
      showSettings := show;
    }
  }
}
