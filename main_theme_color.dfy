/** The main theme's colour table and the integer colour initialisers
    (MainTheme+SemanticColor.swift, SemanticColor.swift). The division of each
    channel by 255.0 is left out: a colour keeps its integer channels. */
module MainThemeColor {
  import opened Appearance

  newtype UInt32 = x: int | 0 <= x < 0x1_0000_0000

  /** The colour tokens. */
  datatype SemanticColor =
    | AccentPrimary | AccentSecondary
    | BackgroundPrimary | BackgroundSecondary
    | TextPrimary | TextSecondary

  /** A `UIColor` by its 8-bit red, green and blue channels and its alpha. */
  datatype UIColor = UIColor(red: int, green: int, blue: int, alpha: real)

  /** A SwiftUI `Color` by the same components (`opacity` for alpha). */
  datatype Color = Color(red: int, green: int, blue: int, opacity: real)

  predicate IsByte(c: int) {
    0 <= c < 0x100
  }

  /** `x >> n` for the shifts the initialisers use; on an unsigned value a
      right shift is division by 2^n. */
  function ShiftRight(x: UInt32, n: nat): int
    requires n == 0 || n == 8 || n == 16 || n == 24
  {
    x as int / (if n == 0 then 1 else if n == 8 then 0x100 else if n == 16 then 0x1_0000 else 0x100_0000)
  }

  /** `x & 0xff` on a non-negative value: its lowest byte. */
  function LowByte(x: int): int {
    x % 0x100
  }

  /** `UIColor(rgb:alpha:)`: red, green and blue from bits 16-23, 8-15 and 0-7;
      the top byte is ignored. */
  function UIColorRgb(rgb: UInt32, alpha: real): (c: UIColor)
    ensures IsByte(c.red) && IsByte(c.green) && IsByte(c.blue) && c.alpha == alpha
    ensures c.red * 0x1_0000 + c.green * 0x100 + c.blue == rgb as int % 0x100_0000
  {
    LowBytesRecombine(rgb as int);
    UIColor(LowByte(ShiftRight(rgb, 16)), LowByte(ShiftRight(rgb, 8)), LowByte(ShiftRight(rgb, 0)), alpha)
  }

  /** `UIColor(rgba:)`: four channels from the four bytes, high to low, alpha
      last (kept as its byte over 255). */
  function UIColorRgba(rgba: UInt32): (c: UIColor)
    ensures IsByte(c.red) && IsByte(c.green) && IsByte(c.blue)
    ensures c.alpha == (rgba as int % 0x100) as real / 255.0
    ensures c.red * 0x100_0000 + c.green * 0x1_0000 + c.blue * 0x100 + (rgba as int % 0x100) == rgba as int
  {
    BytesRecombine(rgba as int);
    UIColor(LowByte(ShiftRight(rgba, 24)), LowByte(ShiftRight(rgba, 16)), LowByte(ShiftRight(rgba, 8)),
      LowByte(ShiftRight(rgba, 0)) as real / 255.0)
  }

  /** The low three bytes of a value, weighted by their positions, add up
      to the value modulo 2^24. */
  lemma LowBytesRecombine(v: int)
    requires 0 <= v < 0x1_0000_0000
    ensures (v / 0x1_0000) % 0x100 * 0x1_0000 + (v / 0x100) % 0x100 * 0x100 + v % 0x100 == v % 0x100_0000
  {
    var b0, q0 := v % 0x100, v / 0x100;
    var b1, q1 := q0 % 0x100, q0 / 0x100;
    var b2, q2 := q1 % 0x100, q1 / 0x100;
    assert v == q1 * 0x1_0000 + (b1 * 0x100 + b0);
    assert v / 0x1_0000 == q1;
    assert v == q2 * 0x100_0000 + (b2 * 0x1_0000 + b1 * 0x100 + b0);
    assert v % 0x100_0000 == b2 * 0x1_0000 + b1 * 0x100 + b0;
  }

  /** The four bytes of a 32-bit value, weighted by their positions, add up to
      the value. */
  lemma BytesRecombine(v: int)
    requires 0 <= v < 0x1_0000_0000
    ensures (v / 0x100_0000) % 0x100 * 0x100_0000 + (v / 0x1_0000) % 0x100 * 0x1_0000
            + (v / 0x100) % 0x100 * 0x100 + v % 0x100 == v
  {
    var b0, q0 := v % 0x100, v / 0x100;
    var b1, q1 := q0 % 0x100, q0 / 0x100;
    var b2, q2 := q1 % 0x100, q1 / 0x100;
    assert v == q1 * 0x1_0000 + (b1 * 0x100 + b0);
    assert v / 0x1_0000 == q1;
    assert v == q2 * 0x100_0000 + (b2 * 0x1_0000 + b1 * 0x100 + b0);
    assert v / 0x100_0000 == q2;
    assert q2 < 0x100;
  }

  /** `Color(rgb:alpha:)`, written out separately in the source. */
  function ColorRgb(rgb: UInt32, alpha: real): (c: Color)
    ensures IsByte(c.red) && IsByte(c.green) && IsByte(c.blue) && c.opacity == alpha
  {
    Color(LowByte(ShiftRight(rgb, 16)), LowByte(ShiftRight(rgb, 8)), LowByte(ShiftRight(rgb, 0)), alpha)
  }

  /** `Color(rgba:)`, written out separately in the source. */
  function ColorRgba(rgba: UInt32): (c: Color)
    ensures IsByte(c.red) && IsByte(c.green) && IsByte(c.blue)
  {
    Color(LowByte(ShiftRight(rgba, 24)), LowByte(ShiftRight(rgba, 16)), LowByte(ShiftRight(rgba, 8)),
      LowByte(ShiftRight(rgba, 0)) as real / 255.0)
  }

  /** The SwiftUI initialisers extract the same channels as the UIKit ones. */
  lemma ColorMatchesUIColor(value: UInt32, alpha: real)
    ensures var u := UIColorRgb(value, alpha); ColorRgb(value, alpha) == Color(u.red, u.green, u.blue, u.alpha)
    ensures var u := UIColorRgba(value); ColorRgba(value) == Color(u.red, u.green, u.blue, u.alpha)
  {
  }

  /** The colour table (`MainTheme.colorSet`): one static colour per token. */
  function ColorSet(asset: SemanticColor): (a: Appearance<UIColor>)
    ensures a.Static?
    ensures a.value.alpha == if asset == TextSecondary then 0.65 else 1.0
  {
    match asset
    case AccentPrimary => Static(UIColorRgb(0xFCEECA, 1.0))
    case AccentSecondary => Static(UIColorRgb(0x654E13, 1.0))
    case BackgroundPrimary => Static(UIColorRgb(0xFFFAF0, 1.0))
    case BackgroundSecondary => Static(UIColorRgb(0xF4F6F7, 1.0))
    case TextPrimary => Static(UIColorRgb(0x383842, 1.0))
    case TextSecondary => Static(UIColorRgb(0x47475B, 0.65))
  }

  /** Every main-theme colour resolves to the same value whatever the
      preference and the system style. */
  lemma ColorIndependentOfAppearance(asset: SemanticColor, p: PreferredAppearance, q: PreferredAppearance,
                                      s: UserInterfaceStyle, t: UserInterfaceStyle)
    ensures Resolve(ColorSet(asset), p, s) == Resolve(ColorSet(asset), q, t)
  {
  }

  /** Two of the table's entries spelled out channel by channel. */
  lemma ColorSetExamples()
    ensures ColorSet(BackgroundPrimary).value == UIColor(0xFF, 0xFA, 0xF0, 1.0)
    ensures ColorSet(TextSecondary).value == UIColor(0x47, 0x47, 0x5B, 0.65)
  {
  }
}
