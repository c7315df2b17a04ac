/** The semantic-font conveniences on a theme provider (SemanticFont.swift,
    `ThemeProviding.semanticFont(_:)` and `ThemeProviding.font(_:)`). */
module SemanticFontLookup {
  import opened Wrappers
  import opened Appearance
  import opened FontSet
  import opened SemanticFont
  import opened MainThemeFont
  import opened Themes
  import opened ThemeProvider

  /** SwiftUI's `Font(_: UIFont)`. */
  datatype SwiftUIFont = Font(uiFont: UIFont)

  /** `semanticFont(_:)`: the font component of the provider's lookup. */
  function SemanticFontOf(provider: ThemeProvider, f: SemanticFont, preferred: Option<PreferredAppearance>,
                          on: Option<Theme>, current: UserInterfaceStyle): (r: UIFont)
    reads provider
    requires Resolvable(provider.ThemeFor(on), Key(f))
    ensures r == ScaledFont(TextStyleOf(f), Properties(f).name, Properties(f).size)
  {
    provider.Font(Key(f), preferred, on, current).0
  }

  /** `font(_:)`: the lookup's font wrapped for SwiftUI, the line height the
      platform measures for it (`measure` stands for `UIFont.lineHeight`) and
      the lookup's metrics unchanged. */
  function FontOf(provider: ThemeProvider, f: SemanticFont, preferred: Option<PreferredAppearance>,
                  on: Option<Theme>, current: UserInterfaceStyle, measure: UIFont -> int): (r: FontAndMetrics<SwiftUIFont>)
    reads provider
    requires Resolvable(provider.ThemeFor(on), Key(f))
    ensures r.metrics == FontSetFor(f).fontMetrics
    ensures r.metrics.pointSize == Properties(f).size && r.metrics.lineHeight == Some(Properties(f).lineHeight)
    ensures r.font == Font(SemanticFontOf(provider, f, preferred, on, current))
    ensures r.measuredLineHeight == measure(r.font.uiFont)
  {
    var (font, metrics) := provider.Font(Key(f), preferred, on, current);
    FontAndMetrics(Font(font), measure(font), metrics)
  }

  /** Ignoring the line height of a looked-up font keeps the table's size and
      spacing and drops only the line height. */
  lemma FontOfIgnoringLineHeight(provider: ThemeProvider, f: SemanticFont, preferred: Option<PreferredAppearance>,
                                 on: Option<Theme>, current: UserInterfaceStyle, measure: UIFont -> int)
    requires Resolvable(provider.ThemeFor(on), Key(f))
    ensures var r := IgnoringLineHeight(FontOf(provider, f, preferred, on, current, measure));
      r.metrics == FontMetrics(Properties(f).size, None, Pct(0))
  {
  }
}
