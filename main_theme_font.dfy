/** The main theme's typography (MainTheme+SemanticFont.swift): the size and
    line-height scales, the text style and font properties of every semantic
    font, and the font set built from them. Font registration and loading are
    platform side effects; a loaded font is represented by what it was built
    from. */
module MainThemeFont {
  import opened Wrappers
  import opened Appearance
  import opened FontSet
  import opened SemanticFont

  /** The steps shared by `Typography.Size` and `Typography.LineHeight`. */
  datatype Step = S50 | S100 | S200 | S300 | S400 | S500 | S600 | S700 | S800 | S900 | S950

  /** `Typography.Size`: the point size of a step. */
  function Size(step: Step): (points: int)
    ensures 11 <= points <= 40
  {
    match step
    case S50 => 11
    case S100 => 12
    case S200 => 13
    case S300 => 15
    case S400 => 16
    case S500 => 17
    case S600 => 20
    case S700 => 22
    case S800 => 28
    case S900 => 34
    case S950 => 40
  }

  /** `Typography.LineHeight`: the line height of a step. */
  function LineHeight(step: Step): (points: int)
    ensures points > Size(step)
  {
    match step
    case S50 => 13
    case S100 => 16
    case S200 => 18
    case S300 => 20
    case S400 => 21
    case S500 => 22
    case S600 => 25
    case S700 => 28
    case S800 => 34
    case S900 => 41
    case S950 => 48
  }

  /** `UIFont.TextStyle`, the dynamic-type style a font scales with. */
  datatype TextStyle =
    | LargeTitleStyle | Title1Style | Title2Style | Title3Style | HeadlineStyle
    | BodyStyle | CalloutStyle | SubheadlineStyle | FootnoteStyle | Caption1Style | Caption2Style

  /** System font weights the table uses. */
  datatype Weight = Regular | Medium | Semibold

  /** `FontName`: a bundled font by PostScript name, or an SF Pro system font
      of a weight. */
  datatype FontName = Named(name: string) | SFProText(weight: Weight)

  const OutfitSemibold: FontName := Named("Outfit-SemiBold")

  /** The font a font set carries: the font `name` loaded at `size`, scaled by
      `UIFontMetrics` for `textStyle`. */
  datatype UIFont = ScaledFont(textStyle: TextStyle, name: FontName, size: int)

  /** `fontProperties`: the row of the typography table for one token. */
  datatype FontProperties = FontProperties(name: FontName, size: int, lineHeight: int, letterSpacing: LetterSpacing)

  /** The display family (Outfit) is used exactly for the large title and the
      three numbered titles. */
  predicate IsTitle(f: SemanticFont) {
    f == LargeTitle || f == Title1 || f == Title2 || f == Title3
  }

  /** `SemanticFont.textStyle`. */
  function TextStyleOf(f: SemanticFont): TextStyle {
    match f
    case LargeTitle => LargeTitleStyle
    case Title1 => Title1Style
    case Title2 => Title2Style
    case Title3 => Title3Style
    case Headline => HeadlineStyle
    case BodyRegular => BodyStyle
    case BodyMedium => BodyStyle
    case BodyEmphasized => BodyStyle
    case CalloutRegular => CalloutStyle
    case CalloutEmphasized => CalloutStyle
    case SubheadRegular => SubheadlineStyle
    case SubheadMedium => SubheadlineStyle
    case SubheadEmphasized => SubheadlineStyle
    case FootnoteRegular => FootnoteStyle
    case FootnoteMedium => FootnoteStyle
    case FootnoteEmphasized => FootnoteStyle
    case Caption1Regular => Caption1Style
    case Caption1Emphasized => Caption1Style
    case Caption2Regular => Caption2Style
    case Caption2Emphasized => Caption2Style
  }

  /** The typography step a token's size and line height come from. */
  function StepOf(f: SemanticFont): Step {
    match TextStyleOf(f)
    case LargeTitleStyle => S900
    case Title1Style => S800
    case Title2Style => S700
    case Title3Style => S600
    case HeadlineStyle => S500
    case BodyStyle => S500
    case CalloutStyle => S400
    case SubheadlineStyle => S300
    case FootnoteStyle => S200
    case Caption1Style => S100
    case Caption2Style => S50
  }

  /** `SemanticFont.fontProperties`. Each row's size and line height are one
      step of the typography scale; its line height exceeds its size; its
      letter spacing is 0%; only titles use the Outfit face. */
  function Properties(f: SemanticFont): (p: FontProperties)
    ensures p.size == Size(StepOf(f)) && p.lineHeight == LineHeight(StepOf(f))
    ensures p.lineHeight > p.size > 0
    ensures p.letterSpacing == Pct(0)
    ensures p.name.Named? <==> IsTitle(f)
    ensures IsTitle(f) ==> p.name == OutfitSemibold
  {
    match f
    case LargeTitle => FontProperties(OutfitSemibold, 34, 41, Pct(0))
    case Title1 => FontProperties(OutfitSemibold, 28, 34, Pct(0))
    case Title2 => FontProperties(OutfitSemibold, 22, 28, Pct(0))
    case Title3 => FontProperties(OutfitSemibold, 20, 25, Pct(0))
    case Headline => FontProperties(SFProText(Semibold), 17, 22, Pct(0))
    case BodyRegular => FontProperties(SFProText(Regular), 17, 22, Pct(0))
    case BodyMedium => FontProperties(SFProText(Medium), 17, 22, Pct(0))
    case BodyEmphasized => FontProperties(SFProText(Semibold), 17, 22, Pct(0))
    case CalloutRegular => FontProperties(SFProText(Regular), 16, 21, Pct(0))
    case CalloutEmphasized => FontProperties(SFProText(Semibold), 16, 21, Pct(0))
    case SubheadRegular => FontProperties(SFProText(Regular), 15, 20, Pct(0))
    case SubheadMedium => FontProperties(SFProText(Medium), 15, 20, Pct(0))
    case SubheadEmphasized => FontProperties(SFProText(Semibold), 15, 20, Pct(0))
    case FootnoteRegular => FontProperties(SFProText(Regular), 13, 18, Pct(0))
    case FootnoteMedium => FontProperties(SFProText(Medium), 13, 18, Pct(0))
    case FootnoteEmphasized => FontProperties(SFProText(Semibold), 13, 18, Pct(0))
    case Caption1Regular => FontProperties(SFProText(Regular), 12, 16, Pct(0))
    case Caption1Emphasized => FontProperties(SFProText(Semibold), 12, 16, Pct(0))
    case Caption2Regular => FontProperties(SFProText(Regular), 11, 13, Pct(0))
    case Caption2Emphasized => FontProperties(SFProText(Semibold), 11, 13, Pct(0))
  }

  /** Variants of one family (same text style) share size and line height. */
  lemma TextStyleDeterminesMetrics(f: SemanticFont, g: SemanticFont)
    requires TextStyleOf(f) == TextStyleOf(g)
    ensures Properties(f).size == Properties(g).size
    ensures Properties(f).lineHeight == Properties(g).lineHeight
  {
  }

  /** `MainTheme.fontSet`: a static appearance of the scaled font, with exactly
      the table's size, line height and letter spacing as its metrics. */
  function FontSetFor(f: SemanticFont): (s: FontSet<UIFont>)
    ensures s.appearance.Static?
    ensures s.appearance.value == ScaledFont(TextStyleOf(f), Properties(f).name, Properties(f).size)
    ensures s.fontMetrics.pointSize == Properties(f).size
    ensures s.fontMetrics.lineHeight == Some(Properties(f).lineHeight)
    ensures s.fontMetrics.letterSpacing == Properties(f).letterSpacing
  {
    var p := Properties(f);
    FontSet(Static(ScaledFont(TextStyleOf(f), p.name, p.size)), FontMetrics(p.size, Some(p.lineHeight), p.letterSpacing))
  }

  /** Two rows of the table against the scale they come from. */
  lemma PropertiesExamples()
    ensures Properties(LargeTitle).size == Size(S900) == 34 && Properties(LargeTitle).lineHeight == LineHeight(S900) == 41
    ensures Properties(Caption2Regular).size == Size(S50) == 11 && Properties(Caption2Regular).lineHeight == LineHeight(S50) == 13
  {
  }
}
