/** lib/settings.ts: the user's preferences, their defaults, and `sanitizeSettings`, which
    fills in what is missing, merges the two flag maps key by key over the defaults and
    clamps the boilerplate sample size to [1, 5]. */
module Settings {
  import opened Wrappers
  import Domain

  /** `boilerplateOptions`: the eight framework keys, in registry order. */
  const BoilerplateOptions: seq<string> :=
    ["vitest", "jest", "pytest", "unittest", "junit", "phpunit", "rspec", "mocha"]

  /** `SETTINGS_STORAGE_KEY`. */
  const SettingsStorageKey: string := "tcg_settings"

  /** A flag map: `true` means "disabled". Keys are strings, since a stored object may carry
      keys beyond the known ones and the spread in `sanitizeSettings` keeps them. */
  type Flags = map<string, bool>

  datatype Settings = Settings(
    defaultContext: string,
    disabledTestTypes: Flags,
    boilerplateSampleSize: int,
    disabledBoilerplates: Flags)

  /** `Partial<Settings>`: `None` is a field that is absent or `undefined`; for the sample
      size it is also any value whose `typeof` is not "number". */
  datatype PartialSettings = PartialSettings(
    defaultContext: Option<string>,
    disabledTestTypes: Option<Flags>,
    boilerplateSampleSize: Option<int>,
    disabledBoilerplates: Option<Flags>)

  /** The argument `undefined`. */
  const NoSettings: PartialSettings := PartialSettings(None, None, None, None)

  /** The `reduce` that builds a map with every key set to `false`. */
  function AllEnabled(keys: seq<string>): (flags: Flags)
    ensures flags.Keys == set k | k in keys
    ensures forall k :: k in flags ==> !flags[k]
  {
    if keys == [] then map[]
    else AllEnabled(keys[..|keys| - 1])[keys[|keys| - 1] := false]
  }

  const DefaultTestTypeFlags: Flags :=
    map["unit" := false, "integration" := false, "feature" := false, "performance" := false, "manual" := false]

  /** `defaultSettings`. */
  const DefaultSettings: Settings :=
    Settings("", DefaultTestTypeFlags, 5, AllEnabled(BoilerplateOptions))

  /** `Math.min(5, Math.max(1, n))`. */
  function ClampSampleSize(n: int): (r: int)
    ensures 1 <= r <= 5
    ensures 1 <= n <= 5 ==> r == n
    ensures n < 1 ==> r == 1
    ensures n > 5 ==> r == 5
  {
    if n < 1 then 1 else if n > 5 then 5 else n
  }

  /** `sanitizeSettings`. */
  function Sanitize(partial: PartialSettings): (s: Settings)
    ensures 1 <= s.boilerplateSampleSize <= 5
  {
    Settings(
      partial.defaultContext.GetOr(DefaultSettings.defaultContext),
      DefaultSettings.disabledTestTypes + partial.disabledTestTypes.GetOr(map[]),
      ClampSampleSize(partial.boilerplateSampleSize.GetOr(DefaultSettings.boilerplateSampleSize)),
      DefaultSettings.disabledBoilerplates + partial.disabledBoilerplates.GetOr(map[]))
  }

  /** A complete settings object read back as a partial one: every field present. */
  function AsPartial(s: Settings): PartialSettings {
    PartialSettings(Some(s.defaultContext), Some(s.disabledTestTypes), Some(s.boilerplateSampleSize), Some(s.disabledBoilerplates))
  }

  /** `{ ...defaults, ...overrides }`: every default key is present, a key the overrides
      carry takes their value, a default key they lack keeps the default, and no other key
      appears. */
  predicate MergedOver(result: Flags, defaults: Flags, overrides: Option<Flags>) {
    var o := overrides.GetOr(map[]);
    && result.Keys == defaults.Keys + o.Keys
    && (forall k :: k in o ==> result[k] == o[k])
    && (forall k :: k in defaults && k !in o ==> result[k] == defaults[k])
  }

  lemma SanitizeFields(partial: PartialSettings)
    ensures var s := Sanitize(partial);
      && s.defaultContext == (if partial.defaultContext.Some? then partial.defaultContext.value else "")
      && s.boilerplateSampleSize == (if partial.boilerplateSampleSize.Some? then ClampSampleSize(partial.boilerplateSampleSize.value) else 5)
      && MergedOver(s.disabledTestTypes, DefaultSettings.disabledTestTypes, partial.disabledTestTypes)
      && MergedOver(s.disabledBoilerplates, DefaultSettings.disabledBoilerplates, partial.disabledBoilerplates)
  {
  }

  /** The defaults enable every test type and every framework and sample five cases. */
  lemma DefaultsEnableEverything()
    ensures DefaultSettings.disabledTestTypes.Keys == set t | t in Domain.TestTypeOptions
    ensures DefaultSettings.disabledBoilerplates.Keys == set k | k in BoilerplateOptions
    ensures forall k :: k in DefaultSettings.disabledTestTypes ==> !DefaultSettings.disabledTestTypes[k]
    ensures forall k :: k in DefaultSettings.disabledBoilerplates ==> !DefaultSettings.disabledBoilerplates[k]
    ensures DefaultSettings.boilerplateSampleSize == 5 && DefaultSettings.defaultContext == ""
  {
  }

  /** Sanitising a sanitised value changes nothing. */
  lemma SanitizeIdempotent(partial: PartialSettings)
    ensures Sanitize(AsPartial(Sanitize(partial))) == Sanitize(partial)
  {
    var s := Sanitize(partial);
    var t := Sanitize(AsPartial(s));
    assert t.disabledTestTypes == s.disabledTestTypes;
    assert t.disabledBoilerplates == s.disabledBoilerplates;
  }

  /** `sanitizeSettings(undefined)` and `sanitizeSettings(defaultSettings)` are the defaults. */
  lemma SanitizeDefaults()
    ensures Sanitize(NoSettings) == DefaultSettings
    ensures Sanitize(AsPartial(DefaultSettings)) == DefaultSettings
  {
    assert Sanitize(NoSettings).disabledTestTypes == DefaultSettings.disabledTestTypes;
    assert Sanitize(NoSettings).disabledBoilerplates == DefaultSettings.disabledBoilerplates;
    SanitizeIdempotent(NoSettings);
  }

  /** A sanitised value: the sample size is in range and every default key is present. */
  predicate IsSanitized(s: Settings) {
    && 1 <= s.boilerplateSampleSize <= 5
    && DefaultSettings.disabledTestTypes.Keys <= s.disabledTestTypes.Keys
    && DefaultSettings.disabledBoilerplates.Keys <= s.disabledBoilerplates.Keys
  }

  /** The sanitised values are exactly the fixed points of `Sanitize`. */
  lemma SanitizedIffFixedPoint(s: Settings)
    ensures IsSanitized(s) <==> Sanitize(AsPartial(s)) == s
  {
    if IsSanitized(s) {
      assert Sanitize(AsPartial(s)).disabledTestTypes == s.disabledTestTypes;
      assert Sanitize(AsPartial(s)).disabledBoilerplates == s.disabledBoilerplates;
    }
  }
}
