/** Themes and the dispatch from a theme and an asset key to the theme's asset
    table (AllThemes.swift, Assetable.swift, EmptyAsset.swift). The source's
    asset protocols are open; here each asset kind is closed over the main
    theme's key type and `EmptyAsset`, the only asset types in the program. */
module Themes {
  import opened Appearance
  import opened FontSet
  import opened SemanticFont
  import opened MainThemeColor
  import opened MainThemeFont
  import opened MainThemeGradient

  /** A theme, identified by its key. */
  datatype Theme = Theme(key: string)

  const MainTheme: Theme := Theme("mainTheme")

  /** `Theme.themed()` knows only the main theme; any other key is fatal. */
  predicate IsDefinedTheme(theme: Theme) {
    theme == MainTheme
  }

  /** An asset key of one kind: a key of the theme's own enumeration, or
      `EmptyAsset`. Looking up `EmptyAsset` in a theme whose key type is an
      enumeration is a failed forced downcast, which is fatal. */
  datatype AnyAsset<K> = Key(key: K) | EmptyAsset

  /** The lookups below are defined exactly when neither fatal path is taken. */
  predicate Resolvable<K>(theme: Theme, asset: AnyAsset<K>) {
    IsDefinedTheme(theme) && asset.Key?
  }

  /** `theme.colorSet(for:)` through `_colorSet`. */
  function ColorSetOn(theme: Theme, asset: AnyAsset<SemanticColor>): (a: Appearance<UIColor>)
    requires Resolvable(theme, asset)
    ensures a.Static?
  {
    ColorSet(asset.key)
  }

  /** `theme.fontSet(for:)` through `_fontSet`. */
  function FontSetOn(theme: Theme, asset: AnyAsset<SemanticFont>): (s: FontSet<UIFont>)
    requires Resolvable(theme, asset)
    ensures s.appearance.Static?
  {
    FontSetFor(asset.key)
  }

  /** `theme.gradientSet(for:)` through `_gradientSet`. */
  function GradientSetOn(theme: Theme, asset: AnyAsset<SemanticGradient>): (a: Appearance<Gradient>)
    requires Resolvable(theme, asset)
    ensures a.Static?
  {
    GradientSet(asset.key)
  }
}
