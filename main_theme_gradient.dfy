/** The main theme's gradient table (MainTheme+SemanticGradient.swift,
    SemanticGradient.swift). */
module MainThemeGradient {
  import opened Appearance
  import opened MainThemeColor

  datatype SemanticGradient = MainColorBg

  /** A SwiftUI `Gradient` by its colour stops, in order. */
  datatype Gradient = Gradient(colors: seq<UIColor>)

  /** `MainTheme.gradientSet`: the background gradient, a static pair of
      opaque colours. */
  function GradientSet(asset: SemanticGradient): (a: Appearance<Gradient>)
    ensures a.Static? && |a.value.colors| == 2
    ensures forall i :: 0 <= i < |a.value.colors| ==> a.value.colors[i].alpha == 1.0
  {
    match asset
    case MainColorBg => Static(Gradient([UIColorRgb(0xFFFAF0, 1.0), UIColorRgb(0xFFF4E1, 1.0)]))
  }
}
