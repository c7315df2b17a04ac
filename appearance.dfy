/** The light/dark resolution strategy of one asset (Appearance.swift), the
    user's preferred appearance (PreferredAppearance.swift) and the resolver
    `Appearance.resolve` (ThemeProvider.swift). */
module Appearance {

  /** `UIUserInterfaceStyle` of a trait collection. `Unknown` stands for the
      cases a future SDK may add (the `@unknown default` branch). */
  datatype UserInterfaceStyle = Unspecified | LightStyle | DarkStyle | UnknownStyle(rawValue: int)

  /** The user's override of the system appearance. */
  datatype PreferredAppearance = System | Light | Dark

  /** One asset's value: fixed, computed from the trait collection's style, or
      one of two precomputed values. */
  datatype Appearance<T> =
    | Static(value: T)
    | Dynamic(provider: UserInterfaceStyle -> T)
    | Auto(light: T, dark: T)

  /** The style a `.auto` appearance treats as dark; unspecified and unknown
      styles fall back to light. */
  predicate IsDarkStyle(style: UserInterfaceStyle) {
    style == DarkStyle
  }

  /** Resolves `appearance` for `preferred`; `current` is the style of
      `UITraitCollection.current` at the time of the call. */
  function Resolve<T>(appearance: Appearance<T>, preferred: PreferredAppearance, current: UserInterfaceStyle): T {
    match appearance
    case Static(t) => t
    case Dynamic(provider) =>
      (match preferred
       case System => provider(current)
       case Light => provider(LightStyle)
       case Dark => provider(DarkStyle))
    case Auto(light, dark) =>
      match preferred
      case System =>
        (match current
         case LightStyle => light
         case DarkStyle => dark
         case Unspecified => light
         case UnknownStyle(_) => light)
      case Light => light
      case Dark => dark
  }

  /** A static value ignores both the preference and the system style. */
  lemma ResolveStatic<T>(v: T, preferred: PreferredAppearance, current: UserInterfaceStyle)
    ensures Resolve(Static(v), preferred, current) == v
  {
  }

  /** `.auto`: a forced preference picks its own value; `.system` picks the dark
      value exactly when the current style is dark. */
  lemma ResolveAuto<T>(light: T, dark: T, preferred: PreferredAppearance, current: UserInterfaceStyle)
    ensures preferred == Light ==> Resolve(Auto(light, dark), preferred, current) == light
    ensures preferred == Dark ==> Resolve(Auto(light, dark), preferred, current) == dark
    ensures preferred == System ==>
      Resolve(Auto(light, dark), preferred, current) == if IsDarkStyle(current) then dark else light
  {
  }

  /** `.dynamic`: the provider sees a forced light or dark style for a forced
      preference, and the current style for `.system`. */
  lemma ResolveDynamic<T>(provider: UserInterfaceStyle -> T, preferred: PreferredAppearance, current: UserInterfaceStyle)
    ensures Resolve(Dynamic(provider), preferred, current) == provider(EffectiveStyle(preferred, current))
  {
  }

  /** The style a preference makes the environment report. */
  function EffectiveStyle(preferred: PreferredAppearance, current: UserInterfaceStyle): (s: UserInterfaceStyle)
    ensures preferred == Light ==> s == LightStyle
    ensures preferred == Dark ==> s == DarkStyle
    ensures preferred == System ==> s == current
  {
    match preferred
    case System => current
    case Light => LightStyle
    case Dark => DarkStyle
  }

  /** Every appearance resolves as its dynamic form would, when `.auto` is read
      as a provider choosing by `IsDarkStyle`: the three cases agree on one
      rule, evaluated at the effective style. */
  lemma ResolveIsProviderAtEffectiveStyle<T>(appearance: Appearance<T>, preferred: PreferredAppearance, current: UserInterfaceStyle)
    ensures Resolve(appearance, preferred, current) == AsProvider(appearance)(EffectiveStyle(preferred, current))
  {
  }

  /** The reference reading of an appearance as a function of the style. */
  function AsProvider<T>(appearance: Appearance<T>): UserInterfaceStyle -> T {
    match appearance
    case Static(t) => _ => t
    case Dynamic(provider) => provider
    case Auto(light, dark) => s => if IsDarkStyle(s) then dark else light
  }
}
