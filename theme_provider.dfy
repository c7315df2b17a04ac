/** The theme provider (ThemeProvider.swift): the current theme and preferred
    appearance, loaded from a key-value store and written back on change, and
    the four asset lookups. */
module ThemeProvider {
  import opened Wrappers
  import opened Appearance
  import opened FontSet
  import opened SemanticFont
  import opened MainThemeColor
  import opened MainThemeFont
  import opened MainThemeGradient
  import opened Themes

  /** `Key.theme.rawValue` and `Key.preferredAppearance.rawValue`. */
  const ThemeKey: string := "theming.theme.key"
  const PreferredAppearanceKey: string := "theming.preferredAppearance.key"

  /** What the store holds under a key: an encoded theme, an encoded
      preference, or data that decodes as neither. */
  datatype StoredValue =
    | ThemeValue(theme: Theme)
    | AppearanceValue(appearance: PreferredAppearance)
    | Undecodable(data: seq<int>)

  /** One `set` call on the store. */
  datatype Write = Write(key: string, value: StoredValue)

  /** `ThemeProviderPersisting`: a key-value store whose typed `get` yields a
      value only when the stored data decodes as the requested type. `writes`
      records every `set` call, in order. */
  class PersistentStore {
    var entries: map<string, StoredValue>
    var writes: seq<Write>

    constructor(entries: map<string, StoredValue>)
      ensures this.entries == entries && writes == []
    {
      this.entries := entries;
      writes := [];
    }

    /** `get(Theme.self, key:)`. */
    function GetTheme(key: string): (r: Option<Theme>)
      reads this
      ensures r.Some? <==> key in entries && entries[key].ThemeValue?
      ensures r.Some? ==> entries[key] == ThemeValue(r.value)
    {
      if key in entries && entries[key].ThemeValue? then Some(entries[key].theme) else None
    }

    /** `get(PreferredAppearance.self, key:)`. */
    function GetAppearance(key: string): (r: Option<PreferredAppearance>)
      reads this
      ensures r.Some? <==> key in entries && entries[key].AppearanceValue?
      ensures r.Some? ==> entries[key] == AppearanceValue(r.value)
    {
      if key in entries && entries[key].AppearanceValue? then Some(entries[key].appearance) else None
    }

    /** `set(_:key:)`. */
    method Set(value: StoredValue, key: string)
      modifies this
      ensures entries == old(entries)[key := value]
      ensures writes == old(writes) + [Write(key, value)]
    {
      entries := entries[key := value];
      writes := writes + [Write(key, value)];
    }
  }

  class ThemeProvider {
    const persistentStorage: PersistentStore
    var theme: Theme
    var preferredAppearance: PreferredAppearance

    /** Loads both fields from the store, falling back to the defaults when a
        key is absent or does not decode. Reading changes nothing. */
    constructor(persistentStorage: PersistentStore, defaultTheme: Theme, defaultPreferredAppearance: PreferredAppearance)
      ensures this.persistentStorage == persistentStorage
      ensures theme == persistentStorage.GetTheme(ThemeKey).GetOr(defaultTheme)
      ensures preferredAppearance == persistentStorage.GetAppearance(PreferredAppearanceKey).GetOr(defaultPreferredAppearance)
    {
      this.persistentStorage := persistentStorage;
      theme := persistentStorage.GetTheme(ThemeKey).GetOr(defaultTheme);
      preferredAppearance := persistentStorage.GetAppearance(PreferredAppearanceKey).GetOr(defaultPreferredAppearance);
    }

    /** The theme and preference a lookup uses: the override, else the
        current one. */
    function ThemeFor(on: Option<Theme>): Theme
      reads this
    {
      on.GetOr(theme)
    }

    function PreferenceFor(preferred: Option<PreferredAppearance>): PreferredAppearance
      reads this
    {
      preferred.GetOr(preferredAppearance)
    }

    /** `color(for:preferredAppearance:on:)`. `current` is the system style at
        the time of the call. Every main-theme colour is static, so the result
        is the table's colour whatever the preference and the style. */
    function Color(asset: AnyAsset<SemanticColor>, preferred: Option<PreferredAppearance>, on: Option<Theme>,
                   current: UserInterfaceStyle): (r: UIColor)
      reads this
      requires Resolvable(ThemeFor(on), asset)
      ensures r == MainThemeColor.ColorSet(asset.key).value
    {
      Resolve(ColorSetOn(ThemeFor(on), asset), PreferenceFor(preferred), current)
    }

    /** `font(for:preferredAppearance:on:)`: the resolved font and the font
        set's metrics, passed through unchanged. */
    function Font(asset: AnyAsset<SemanticFont>, preferred: Option<PreferredAppearance>, on: Option<Theme>,
                  current: UserInterfaceStyle): (r: (UIFont, FontMetrics))
      reads this
      requires Resolvable(ThemeFor(on), asset)
      ensures r.1 == FontSetFor(asset.key).fontMetrics
      ensures r.0 == FontSetFor(asset.key).appearance.value
    {
      var fontSet := FontSetOn(ThemeFor(on), asset);
      (Resolve(fontSet.appearance, PreferenceFor(preferred), current), fontSet.fontMetrics)
    }

    /** `gradient(for:preferredAppearance:on:)`. */
    function Gradient(asset: AnyAsset<SemanticGradient>, preferred: Option<PreferredAppearance>, on: Option<Theme>,
                      current: UserInterfaceStyle): (r: MainThemeGradient.Gradient)
      reads this
      requires Resolvable(ThemeFor(on), asset)
      ensures r == GradientSet(asset.key).value
    {
      Resolve(GradientSetOn(ThemeFor(on), asset), PreferenceFor(preferred), current)
    }

    /** `setTheme(with:)`: nothing happens for the current theme; otherwise the
        field changes and the new theme is written under its key, and only
        there. */
    method SetTheme(newTheme: Theme)
      modifies this, persistentStorage
      ensures preferredAppearance == old(preferredAppearance)
      ensures theme == newTheme
      ensures old(theme) == newTheme ==>
        persistentStorage.entries == old(persistentStorage.entries) && persistentStorage.writes == old(persistentStorage.writes)
      ensures old(theme) != newTheme ==>
        && persistentStorage.entries == old(persistentStorage.entries)[ThemeKey := ThemeValue(newTheme)]
        && persistentStorage.writes == old(persistentStorage.writes) + [Write(ThemeKey, ThemeValue(newTheme))]
    {
      if theme == newTheme {
        return;
      }
      theme := newTheme;
      persistentStorage.Set(ThemeValue(newTheme), ThemeKey);
    }

    /** `setPreferredAppearance(with:)`: the same rule under the preference's
        own key. */
    method SetPreferredAppearance(appearance: PreferredAppearance)
      modifies this, persistentStorage
      ensures theme == old(theme)
      ensures preferredAppearance == appearance
      ensures old(preferredAppearance) == appearance ==>
        persistentStorage.entries == old(persistentStorage.entries) && persistentStorage.writes == old(persistentStorage.writes)
      ensures old(preferredAppearance) != appearance ==>
        && persistentStorage.entries == old(persistentStorage.entries)[PreferredAppearanceKey := AppearanceValue(appearance)]
        && persistentStorage.writes == old(persistentStorage.writes) + [Write(PreferredAppearanceKey, AppearanceValue(appearance))]
    {
      if preferredAppearance == appearance {
        return;
      }
      preferredAppearance := appearance;
      persistentStorage.Set(AppearanceValue(appearance), PreferredAppearanceKey);
    }
  }

  /** Setting the same theme twice in a row writes to the store at most once. */
  method SetThemeTwiceWritesAtMostOnce(provider: ThemeProvider, newTheme: Theme)
    modifies provider, provider.persistentStorage
    ensures provider.theme == newTheme
    ensures |provider.persistentStorage.writes| <= |old(provider.persistentStorage.writes)| + 1
  {
    provider.SetTheme(newTheme);
    ghost var once := provider.persistentStorage.writes;
    provider.SetTheme(newTheme);
    assert provider.persistentStorage.writes == once;
  }

  /** A changed theme survives a restart: a new provider over the same store,
      whatever its defaults, starts with it; the stored preference is kept. */
  method SetThemeThenReload(provider: ThemeProvider, newTheme: Theme,
                            defaultTheme: Theme, defaultPreferredAppearance: PreferredAppearance)
    returns (reloaded: ThemeProvider)
    requires newTheme != provider.theme
    modifies provider, provider.persistentStorage
    ensures reloaded.theme == newTheme
    ensures reloaded.preferredAppearance == old(provider.persistentStorage.GetAppearance(PreferredAppearanceKey)).GetOr(defaultPreferredAppearance)
  {
    provider.SetTheme(newTheme);
    reloaded := new ThemeProvider(provider.persistentStorage, defaultTheme, defaultPreferredAppearance);
  }

  /** The same for a changed preference. */
  method SetPreferredAppearanceThenReload(provider: ThemeProvider, appearance: PreferredAppearance,
                                          defaultTheme: Theme, defaultPreferredAppearance: PreferredAppearance)
    returns (reloaded: ThemeProvider)
    requires appearance != provider.preferredAppearance
    modifies provider, provider.persistentStorage
    ensures reloaded.preferredAppearance == appearance
    ensures reloaded.theme == old(provider.persistentStorage.GetTheme(ThemeKey)).GetOr(defaultTheme)
  {
    provider.SetPreferredAppearance(appearance);
    reloaded := new ThemeProvider(provider.persistentStorage, defaultTheme, defaultPreferredAppearance);
  }

  /** With an empty store the provider starts with its defaults. */
  method FreshStoreUsesDefaults() returns (provider: ThemeProvider)
    ensures provider.theme == MainTheme && provider.preferredAppearance == System
  {
    var store := new PersistentStore(map[]);
    provider := new ThemeProvider(store, MainTheme, System);
  }
}
