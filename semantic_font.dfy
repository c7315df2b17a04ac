/** The semantic typography scale and `FontAndMetrics` (SemanticFont.swift). */
module SemanticFont {
  import opened Wrappers
  import opened FontSet

  /** The semantic font tokens, in declaration order. */
  datatype SemanticFont =
    | LargeTitle
    | Title1 | Title2 | Title3
    | Headline
    | BodyRegular | BodyMedium | BodyEmphasized
    | CalloutRegular | CalloutEmphasized
    | SubheadRegular | SubheadMedium | SubheadEmphasized
    | FootnoteRegular | FootnoteMedium | FootnoteEmphasized
    | Caption1Regular | Caption1Emphasized
    | Caption2Regular | Caption2Emphasized

  /** A resolved font with the line height the platform measured for it and
      the token's metrics. `F` is the SwiftUI font type. */
  datatype FontAndMetrics<F> = FontAndMetrics(font: F, measuredLineHeight: int, metrics: FontMetrics)

  /** The same font and metrics with the line height dropped, so that the
      caller lays out text with the font's own line height. */
  function IgnoringLineHeight<F>(fm: FontAndMetrics<F>): (r: FontAndMetrics<F>)
    ensures r.metrics.lineHeight == None
    ensures r.metrics.pointSize == fm.metrics.pointSize
    ensures r.metrics.letterSpacing == fm.metrics.letterSpacing
    ensures r.font == fm.font && r.measuredLineHeight == fm.measuredLineHeight
  {
    FontAndMetrics(fm.font, fm.measuredLineHeight,
      FontMetrics(fm.metrics.pointSize, None, fm.metrics.letterSpacing))
  }

  /** Dropping the line height twice is dropping it once; a value without a
      line height is left as it is. */
  lemma IgnoringLineHeightIdempotent<F>(fm: FontAndMetrics<F>)
    ensures IgnoringLineHeight(IgnoringLineHeight(fm)) == IgnoringLineHeight(fm)
    ensures fm.metrics.lineHeight == None ==> IgnoringLineHeight(fm) == fm
  {
  }
}
