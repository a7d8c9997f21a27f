/** components/SettingsProvider.tsx: the settings state shared by every page, loaded once
    from localStorage and persisted on every update. */
module SettingsProvider {
  import opened Wrappers
  import opened Settings
  import Storage

  /** `{ ...prev, ...updates }`: a field the update carries replaces the previous value. */
  function Overlay(prev: Settings, updates: PartialSettings): PartialSettings {
    PartialSettings(
      Some(updates.defaultContext.GetOr(prev.defaultContext)),
      Some(updates.disabledTestTypes.GetOr(prev.disabledTestTypes)),
      Some(updates.boilerplateSampleSize.GetOr(prev.boilerplateSampleSize)),
      Some(updates.disabledBoilerplates.GetOr(prev.disabledBoilerplates)))
  }

  /** The state after the mount effect: a stored value replaces `current` only through
      `sanitizeSettings`. A missing or empty entry, and a string that does not parse, keep
      `current`; a JSON value without settings fields sanitises to the defaults. */
  function LoadedSettings(current: Settings, stored: Option<Storage.Value>): (s: Settings)
    ensures !Storage.Truthy(stored) ==> s == current
    ensures stored.Some? && stored.value.Prefs? ==> s == Sanitize(stored.value.prefs)
  {
    if stored.None? || stored.value.Text? || stored.value.Unparseable? then current
    else if stored.value.Prefs? then Sanitize(stored.value.prefs)
    else Sanitize(NoSettings)
  }

  /** Whatever is stored, the loaded state of a sanitised state is sanitised. */
  lemma LoadedSettingsSanitized(current: Settings, stored: Option<Storage.Value>)
    requires IsSanitized(current)
    ensures IsSanitized(LoadedSettings(current, stored))
  {
    var s := LoadedSettings(current, stored);
    if s != current {
      assert stored.Some?;
      var p := if stored.value.Prefs? then stored.value.prefs else NoSettings;
      assert s == Sanitize(p);
      SanitizeIdempotent(p);
      SanitizedIffFixedPoint(s);
    }
  }

  /** Fields an update leaves out keep their previous values. */
  lemma UpdateKeepsAbsentFields(prev: Settings, updates: PartialSettings)
    requires IsSanitized(prev)
    ensures var s := Sanitize(Overlay(prev, updates));
      && (updates.defaultContext.None? ==> s.defaultContext == prev.defaultContext)
      && (updates.disabledTestTypes.None? ==> s.disabledTestTypes == prev.disabledTestTypes)
      && (updates.boilerplateSampleSize.None? ==> s.boilerplateSampleSize == prev.boilerplateSampleSize)
      && (updates.disabledBoilerplates.None? ==> s.disabledBoilerplates == prev.disabledBoilerplates)
  {
    SanitizedIffFixedPoint(prev);
    var s := Sanitize(Overlay(prev, updates));
    var back := Sanitize(AsPartial(prev));
    if updates.disabledTestTypes.None? {
      assert s.disabledTestTypes == back.disabledTestTypes;
    }
    if updates.disabledBoilerplates.None? {
      assert s.disabledBoilerplates == back.disabledBoilerplates;
    }
  }

  /** A flag map in an update replaces the previous one wholesale: a known key the new map
      lacks goes back to its default (enabled), whatever it was before. */
  lemma UpdateReplacesFlagMaps(prev: Settings, updates: PartialSettings, key: string)
    ensures var s := Sanitize(Overlay(prev, updates));
      && (updates.disabledTestTypes.Some? && key in DefaultSettings.disabledTestTypes && key !in updates.disabledTestTypes.value
          ==> s.disabledTestTypes[key] == false)
      && (updates.disabledBoilerplates.Some? && key in DefaultSettings.disabledBoilerplates && key !in updates.disabledBoilerplates.value
          ==> s.disabledBoilerplates[key] == false)
      && (updates.disabledTestTypes.Some? ==> s.disabledTestTypes.Keys == DefaultSettings.disabledTestTypes.Keys + updates.disabledTestTypes.value.Keys)
      && (updates.disabledBoilerplates.Some? ==>
            s.disabledBoilerplates.Keys == DefaultSettings.disabledBoilerplates.Keys + updates.disabledBoilerplates.value.Keys)
  {
    DefaultsEnableEverything();
  }

  /** The provider's state. */
  class SettingsStore {
    var settings: Settings

    /** Every state the provider holds has passed through `sanitizeSettings`. */
    predicate Valid()
      reads this
    {
      IsSanitized(settings)
    }

    /** `useState(defaultSettings)`. */
    constructor()
      ensures settings == DefaultSettings && Valid()
    {
      settings := DefaultSettings;
      SanitizeDefaults();
      SanitizedIffFixedPoint(DefaultSettings);
    }

    /** The mount effect: read `tcg_settings` and sanitise what it holds. */
    method Load(b: Storage.Browser)
      requires Valid()
      modifies this
      ensures settings == LoadedSettings(old(settings), Storage.Get(b.local, SettingsStorageKey))
      ensures Valid()
    {
      LoadedSettingsSanitized(settings, Storage.Get(b.local, SettingsStorageKey));
      settings := LoadedSettings(settings, Storage.Get(b.local, SettingsStorageKey));
    }

    /** `updateSettings`: merge, sanitise, persist, and make the result the new state. */
    method Update(updates: PartialSettings, b: Storage.Browser)
      requires Valid()
      modifies this, b
      ensures settings == Sanitize(Overlay(old(settings), updates))
      ensures 1 <= settings.boilerplateSampleSize <= 5
      ensures b.local == old(b.local)[SettingsStorageKey := Storage.Prefs(AsPartial(settings))]
      ensures b.session == old(b.session)
      ensures Valid()
    {
      var merged := Sanitize(Overlay(settings, updates));
      SanitizeIdempotent(Overlay(settings, updates));
      SanitizedIffFixedPoint(merged);
      b.local := b.local[SettingsStorageKey := Storage.Prefs(AsPartial(merged))];
      settings := merged;
    }
  }

  /** What `Update` persists loads back as the same state on the next visit. */
  lemma PersistedSettingsReload(current: Settings, s: Settings)
    requires IsSanitized(s)
    ensures LoadedSettings(current, Some(Storage.Prefs(AsPartial(s)))) == s
  {
    SanitizedIffFixedPoint(s);
  }
}
