/** Font metrics and font sets (FontSet.swift). `CGFloat` sizes are modelled as
    integers: every size and line height the themes use is integral. */
module FontSet {
  import opened Wrappers
  import opened Appearance

  /** Letter spacing in absolute points or as a percentage of the point size. */
  datatype LetterSpacing = Px(kern: int) | Pct(percent: int)

  /** Point size, optional line height and letter spacing carried beside a font. */
  datatype FontMetrics = FontMetrics(pointSize: int, lineHeight: Option<int>, letterSpacing: LetterSpacing)

  /** A font appearance together with the metrics of the token. */
  datatype FontSet<F> = FontSet(appearance: Appearance<F>, fontMetrics: FontMetrics)
}
