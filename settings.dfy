/**
 * SettingsStore: seven typed preferences kept in a `UserDefaults`, each
 * under its own key, with fallbacks registered when the store is created.
 */
module Settings {
  import opened Optional
  import opened Defaults
  import ThemeOptions

  /** The storage keys, one per preference. */
  const DebugEnabledKey := "DebugEnabled"
  const AlphabetizeListKey := "AlphabetizeList"
  const UseHapticsKey := "UseHaptics"
  const OpenSettingsOnLeftEdgeSlideKey := "OpenSettingsOnLeftEdgeSlide"
  const AutoDeleteTaskOnCheckoffKey := "AutoDeleteTaskOnCheckoff"
  const ThemeBgKey := "ThemeBackground"
  const ThemeAccentKey := "ThemeAccent"

  const AllKeys: seq<string> := [
    DebugEnabledKey, AlphabetizeListKey, UseHapticsKey, OpenSettingsOnLeftEdgeSlideKey,
    AutoDeleteTaskOnCheckoffKey, ThemeBgKey, ThemeAccentKey
  ]

  /** The fallback values the store registers when it is created. */
  const RegisteredDefaults: map<string, Value> := map[
    DebugEnabledKey := BoolValue(false),
    AlphabetizeListKey := BoolValue(true),
    UseHapticsKey := BoolValue(true),
    OpenSettingsOnLeftEdgeSlideKey := BoolValue(true),
    AutoDeleteTaskOnCheckoffKey := BoolValue(false),
    ThemeBgKey := StringValue(ThemeOptions.BackgroundRawValue(ThemeOptions.System)),
    ThemeAccentKey := StringValue(ThemeOptions.AccentRawValue(ThemeOptions.Purple))
  ]

  /** What the seven getters read, taken together. */
  datatype Preferences = Preferences(
    isDebugEnabled: bool,
    shouldAlphabetizeList: bool,
    shouldUseHaptics: bool,
    shouldOpenSettingsOnLeftEdgeSlide: bool,
    shouldAutoDeleteTaskOnCheckoff: bool,
    themeBg: ThemeOptions.ThemeBackground,
    themeAccent: ThemeOptions.ThemeAccent)

  /** The preferences of a store in which none of the seven keys is persisted. */
  const Fallbacks := Preferences(false, true, true, true, false, ThemeOptions.System, ThemeOptions.Purple)

  /** The seven keys are seven different strings, and they are exactly the registered ones. */
  lemma KeysDistinct()
    ensures |AllKeys| == 7
    ensures forall i, j :: 0 <= i < j < |AllKeys| ==> AllKeys[i] != AllKeys[j]
    ensures forall k :: k in RegisteredDefaults <==> k in AllKeys
  {
  }

  class SettingsStore {
    const defaults: UserDefaults

    /** The fallbacks registered at creation are still in the registration layer. */
    ghost predicate Valid()
      reads this, defaults
    {
      forall k :: k in RegisteredDefaults ==>
        k in defaults.registration && defaults.registration[k] == RegisteredDefaults[k]
    }

    /**
     * Registers the fallbacks. Values persisted by earlier runs stay as they
     * are and still win over the fallbacks.
     */
    constructor (defaults: UserDefaults)
      modifies defaults
      ensures this.defaults == defaults && Valid()
      ensures defaults.persisted == old(defaults.persisted)
      ensures defaults.registration == old(defaults.registration) + RegisteredDefaults
      ensures forall k :: k in old(defaults.persisted) ==>
        defaults.ObjectForKey(k) == Some(old(defaults.persisted)[k])
      ensures (forall k :: k in AllKeys ==> k !in old(defaults.persisted)) ==> Snapshot() == Fallbacks
    {
      this.defaults := defaults;
      new;
      defaults.Register(RegisteredDefaults);
      if forall k :: k in AllKeys ==> k !in defaults.persisted {
        NothingPersistedGivesFallbacks(this);
      }
    }

    /** The persisted Boolean under "DebugEnabled". An unset key reads the registered `false`. */
    function IsDebugEnabled(): (r: bool)
      reads this, defaults
      ensures DebugEnabledKey in defaults.persisted && defaults.persisted[DebugEnabledKey].BoolValue? ==>
        r == defaults.persisted[DebugEnabledKey].b
      ensures Valid() && DebugEnabledKey !in defaults.persisted ==> r == false
    {
      defaults.BoolForKey(DebugEnabledKey)
    }

    /** The persisted Boolean under "AlphabetizeList". An unset key reads the registered `true`. */
    function ShouldAlphabetizeList(): (r: bool)
      reads this, defaults
      ensures AlphabetizeListKey in defaults.persisted && defaults.persisted[AlphabetizeListKey].BoolValue? ==>
        r == defaults.persisted[AlphabetizeListKey].b
      ensures Valid() && AlphabetizeListKey !in defaults.persisted ==> r == true
    {
      defaults.BoolForKey(AlphabetizeListKey)
    }

    /** The persisted Boolean under "UseHaptics". An unset key reads the registered `true`. */
    function ShouldUseHaptics(): (r: bool)
      reads this, defaults
      ensures UseHapticsKey in defaults.persisted && defaults.persisted[UseHapticsKey].BoolValue? ==>
        r == defaults.persisted[UseHapticsKey].b
      ensures Valid() && UseHapticsKey !in defaults.persisted ==> r == true
    {
      defaults.BoolForKey(UseHapticsKey)
    }

    /** The persisted Boolean under "OpenSettingsOnLeftEdgeSlide". An unset key reads the registered `true`. */
    function ShouldOpenSettingsOnLeftEdgeSlide(): (r: bool)
      reads this, defaults
      ensures OpenSettingsOnLeftEdgeSlideKey in defaults.persisted && defaults.persisted[OpenSettingsOnLeftEdgeSlideKey].BoolValue? ==>
        r == defaults.persisted[OpenSettingsOnLeftEdgeSlideKey].b
      ensures Valid() && OpenSettingsOnLeftEdgeSlideKey !in defaults.persisted ==> r == true
    {
      defaults.BoolForKey(OpenSettingsOnLeftEdgeSlideKey)
    }

    /** The persisted Boolean under "AutoDeleteTaskOnCheckoff". An unset key reads the registered `false`. */
    function ShouldAutoDeleteTaskOnCheckoff(): (r: bool)
      reads this, defaults
      ensures AutoDeleteTaskOnCheckoffKey in defaults.persisted && defaults.persisted[AutoDeleteTaskOnCheckoffKey].BoolValue? ==>
        r == defaults.persisted[AutoDeleteTaskOnCheckoffKey].b
      ensures Valid() && AutoDeleteTaskOnCheckoffKey !in defaults.persisted ==> r == false
    {
      defaults.BoolForKey(AutoDeleteTaskOnCheckoffKey)
    }

    /**
     * The stored string parsed as a background; `.system` when nothing is
     * stored or the string is not a raw value.
     */
    function ThemeBg(): (r: ThemeOptions.ThemeBackground)
      reads this, defaults
      ensures forall c :: defaults.StringForKey(ThemeBgKey) == Some(ThemeOptions.BackgroundRawValue(c)) ==> r == c
      ensures defaults.StringForKey(ThemeBgKey).None? ==> r == ThemeOptions.System
      ensures Valid() && ThemeBgKey !in defaults.persisted ==> r == ThemeOptions.System
      ensures (defaults.StringForKey(ThemeBgKey).Some? &&
               ThemeOptions.ParseBackground(defaults.StringForKey(ThemeBgKey).value).None?) ==> r == ThemeOptions.System
    {
      match defaults.StringForKey(ThemeBgKey)
      case Some(raw) => ThemeOptions.ParseBackground(raw).GetOr(ThemeOptions.System)
      case None => ThemeOptions.System
    }

    /**
     * The stored string parsed as an accent; `.purple` when nothing is
     * stored or the string is not a raw value.
     */
    function ThemeAccent(): (r: ThemeOptions.ThemeAccent)
      reads this, defaults
      ensures forall c :: defaults.StringForKey(ThemeAccentKey) == Some(ThemeOptions.AccentRawValue(c)) ==> r == c
      ensures defaults.StringForKey(ThemeAccentKey).None? ==> r == ThemeOptions.Purple
      ensures Valid() && ThemeAccentKey !in defaults.persisted ==> r == ThemeOptions.Purple
      ensures (defaults.StringForKey(ThemeAccentKey).Some? &&
               ThemeOptions.ParseAccent(defaults.StringForKey(ThemeAccentKey).value).None?) ==> r == ThemeOptions.Purple
    {
      match defaults.StringForKey(ThemeAccentKey)
      case Some(raw) => ThemeOptions.ParseAccent(raw).GetOr(ThemeOptions.Purple)
      case None => ThemeOptions.Purple
    }

    /** All seven getters at once. */
    function Snapshot(): Preferences
      reads this, defaults
    {
      Preferences(IsDebugEnabled(), ShouldAlphabetizeList(), ShouldUseHaptics(),
                  ShouldOpenSettingsOnLeftEdgeSlide(), ShouldAutoDeleteTaskOnCheckoff(),
                  ThemeBg(), ThemeAccent())
    }

    /*
     * The setters. Each writes one key; since the keys differ, every other
     * getter reads what it read before.
     */

    method SetIsDebugEnabled(newValue: bool)
      modifies defaults
      ensures defaults.persisted == old(defaults.persisted)[DebugEnabledKey := BoolValue(newValue)]
      ensures defaults.registration == old(defaults.registration)
      ensures Snapshot() == old(Snapshot()).(isDebugEnabled := newValue)
    {
      defaults.Set(BoolValue(newValue), DebugEnabledKey);
    }

    method SetShouldAlphabetizeList(newValue: bool)
      modifies defaults
      ensures defaults.persisted == old(defaults.persisted)[AlphabetizeListKey := BoolValue(newValue)]
      ensures defaults.registration == old(defaults.registration)
      ensures Snapshot() == old(Snapshot()).(shouldAlphabetizeList := newValue)
    {
      defaults.Set(BoolValue(newValue), AlphabetizeListKey);
    }

    method SetShouldUseHaptics(newValue: bool)
      modifies defaults
      ensures defaults.persisted == old(defaults.persisted)[UseHapticsKey := BoolValue(newValue)]
      ensures defaults.registration == old(defaults.registration)
      ensures Snapshot() == old(Snapshot()).(shouldUseHaptics := newValue)
    {
      defaults.Set(BoolValue(newValue), UseHapticsKey);
    }

    method SetShouldOpenSettingsOnLeftEdgeSlide(newValue: bool)
      modifies defaults
      ensures defaults.persisted == old(defaults.persisted)[OpenSettingsOnLeftEdgeSlideKey := BoolValue(newValue)]
      ensures defaults.registration == old(defaults.registration)
      ensures Snapshot() == old(Snapshot()).(shouldOpenSettingsOnLeftEdgeSlide := newValue)
    {
      defaults.Set(BoolValue(newValue), OpenSettingsOnLeftEdgeSlideKey);
    }

    method SetShouldAutoDeleteTaskOnCheckoff(newValue: bool)
      modifies defaults
      ensures defaults.persisted == old(defaults.persisted)[AutoDeleteTaskOnCheckoffKey := BoolValue(newValue)]
      ensures defaults.registration == old(defaults.registration)
      ensures Snapshot() == old(Snapshot()).(shouldAutoDeleteTaskOnCheckoff := newValue)
    {
      defaults.Set(BoolValue(newValue), AutoDeleteTaskOnCheckoffKey);
    }

    /** Stores the case's raw value, which the getter parses back to the same case. */
    method SetThemeBg(newValue: ThemeOptions.ThemeBackground)
      modifies defaults
      ensures defaults.persisted ==
        old(defaults.persisted)[ThemeBgKey := StringValue(ThemeOptions.BackgroundRawValue(newValue))]
      ensures defaults.registration == old(defaults.registration)
      ensures Snapshot() == old(Snapshot()).(themeBg := newValue)
    {
      defaults.Set(StringValue(ThemeOptions.BackgroundRawValue(newValue)), ThemeBgKey);
      ThemeOptions.BackgroundRoundTrip(newValue);
    }

    method SetThemeAccent(newValue: ThemeOptions.ThemeAccent)
      modifies defaults
      ensures defaults.persisted ==
        old(defaults.persisted)[ThemeAccentKey := StringValue(ThemeOptions.AccentRawValue(newValue))]
      ensures defaults.registration == old(defaults.registration)
      ensures Snapshot() == old(Snapshot()).(themeAccent := newValue)
    {
      defaults.Set(StringValue(ThemeOptions.AccentRawValue(newValue)), ThemeAccentKey);
      ThemeOptions.AccentRoundTrip(newValue);
    }
  }

  /** Each preference whose key is not persisted reads its registered fallback, whatever the other keys hold. */
  lemma UnpersistedKeyFallsBack(store: SettingsStore)
    requires store.Valid()
    ensures DebugEnabledKey !in store.defaults.persisted ==> !store.IsDebugEnabled()
    ensures AlphabetizeListKey !in store.defaults.persisted ==> store.ShouldAlphabetizeList()
    ensures UseHapticsKey !in store.defaults.persisted ==> store.ShouldUseHaptics()
    ensures OpenSettingsOnLeftEdgeSlideKey !in store.defaults.persisted ==> store.ShouldOpenSettingsOnLeftEdgeSlide()
    ensures AutoDeleteTaskOnCheckoffKey !in store.defaults.persisted ==> !store.ShouldAutoDeleteTaskOnCheckoff()
    ensures ThemeBgKey !in store.defaults.persisted ==> store.ThemeBg() == ThemeOptions.System
    ensures ThemeAccentKey !in store.defaults.persisted ==> store.ThemeAccent() == ThemeOptions.Purple
  {
  }

  /** With none of the seven keys persisted, every getter returns its registered fallback. */
  lemma NothingPersistedGivesFallbacks(store: SettingsStore)
    requires store.Valid()
    requires forall k :: k in AllKeys ==> k !in store.defaults.persisted
    ensures store.Snapshot() == Fallbacks
  {
    assert ThemeBgKey in AllKeys && ThemeAccentKey in AllKeys;
    UnpersistedKeyFallsBack(store);
  }
}
