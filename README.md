# Theming, string codec, diagnostics and functional utilities of an iOS app template, in Dafny

This project models the self-contained logic of an iOS application template:

- **Theming.** `Appearance.resolve` picks a value from a static, dynamic or
  light/dark appearance for a preferred appearance and the current system
  style. The `ThemeProvider` holds the current theme and preferred
  appearance. It loads both from a key-value store, writes a changed value
  back, and resolves colours, fonts and gradients through the theme's tables.
  The main theme's tables are modelled too: colours with their integer channel
  extraction, the typography scale and font properties, the font set built
  from them, and the gradient. `FontAndMetrics.ignoringLineHeight` and the
  `semanticFont`/`font` conveniences complete the theming part.
- **String codec.** The two string formats are `id(p1,p2)` and
  `id(<<<p1>>>,<<<p2>>>)`. Each has an encoder and a decoder that reads the
  text with a Foundation `Scanner`. The scanner is modelled as a cursor
  class. Each decoder is a method proved equal to a reference function of the
  input, and round trips are proved about those functions.
- **Diagnostics worker.** The log-string format and the `LogLevel` to OS log
  type table are modelled. So is the merge of the reserved `_file_`, `_line_`
  and `_function_` keys into an exception's user info. The hooks and the
  `logs` stream are recorded as sequences of calls and emissions.
- **Functional utilities.**
  - `any`/`all` (`all` is false on an empty collection), `compact`, `flatten`
    and the two `dictionary` overloads.
  - The list semantics of the stream operators `skip(while:)` and
    `zipWithPrevious`, as functions on finite sequences.

Files: `appearance.dfy`, `theme_provider.dfy`, `themes.dfy`, `font_set.dfy`,
`main_theme_color.dfy`, `main_theme_font.dfy`, `main_theme_gradient.dfy`,
`semantic_font.dfy`, `semantic_font_lookup.dfy`, `scanner.dfy`,
`string_codable.dfy`, `diagnostics.dfy`, `collection_functional.dfy`,
`sequence_functional.dfy`, `sequence_dictionary.dfy`, `skip_while.dfy`,
`zip_with_previous.dfy` and `wrappers.dfy` (Option and Result).

Modelling choices:

- **Store.** The persistent store behind `ThemeProviderPersisting` is a map
  from keys to stored values plus a log of writes. A stored value that does
  not decode as the requested type reads as absent.
- **System style.** `UITraitCollection.current` is an explicit parameter of
  the lookups. `.dynamic` holds a function from the style to the value.
- **Fatal paths become preconditions.** These are the undefined theme in
  `Theme.themed()`, the forced downcast of an asset key and the `EmptyAsset`
  fallbacks. The asset protocols are open in the source. Here each asset kind
  is closed over the main theme's key enumeration and `EmptyAsset`, which are
  the only asset types in the program.
- **Font sizes.** Sizes and line heights are integers, since every table value
  is integral. A loaded font is represented by what it was built from: its
  text style, its font name and its size.
- **Build flag and interpolation.** The `DEBUG` build flag is a constructor
  parameter of the diagnostics worker. The description of a dictionary inside
  string interpolation is a function parameter.

## Model

| member | source | states |
|---|---|---|
| `Appearance.Resolve` | src-ios/SharedLibraries/SimpleTheming/Sources/SimpleTheming/ThemeProvider/ThemeProvider.swift:166-194 | resolves an appearance for a preference and the current style; `Appearance.ResolveIsProviderAtEffectiveStyle` states it is the appearance read as a provider, at the style the preference makes it see |
| `Appearance.ResolveStatic` | src-ios/SharedLibraries/SimpleTheming/Sources/SimpleTheming/ThemeProvider/ThemeProvider.swift:168-169 | a static appearance resolves to its value for every preference and every system style |
| `Appearance.ResolveAuto` | src-ios/SharedLibraries/SimpleTheming/Sources/SimpleTheming/ThemeProvider/ThemeProvider.swift:179-192 | `.auto`: `.light` gives the light value, `.dark` the dark one, `.system` the dark one exactly when the current style is dark (unspecified and unknown styles count as light) |
| `Appearance.ResolveDynamic` | src-ios/SharedLibraries/SimpleTheming/Sources/SimpleTheming/ThemeProvider/ThemeProvider.swift:170-177 | `.dynamic(f)` applies `f` to a forced light style, a forced dark style, or the current style, for `.light`, `.dark` and `.system` |
| `Appearance.EffectiveStyle` | src-ios/SharedLibraries/SimpleTheming/Sources/SimpleTheming/ThemeProvider/ThemeProvider.swift:171-178 | the style each preference makes a provider see: forced light, forced dark, or the current style |
| `Appearance.ResolveIsProviderAtEffectiveStyle` | src-ios/SharedLibraries/SimpleTheming/Sources/SimpleTheming/ThemeProvider/ThemeProvider.swift:166-194 | all three cases agree with one reference rule: the appearance read as a function of the style, evaluated at the effective style |
| `ThemeProvider.PersistentStore.GetTheme` | src-ios/SharedLibraries/SimpleTheming/Sources/SimpleTheming/ThemeProvider/ThemeProvider.swift:9 | a typed read yields a theme exactly when the key holds a decodable theme, and then that theme |
| `ThemeProvider.PersistentStore.GetAppearance` | src-ios/SharedLibraries/SimpleTheming/Sources/SimpleTheming/ThemeProvider/ThemeProvider.swift:9 | a typed read yields a preference exactly when the key holds a decodable preference, and then that preference |
| `ThemeProvider.PersistentStore.Set` | src-ios/SharedLibraries/SimpleTheming/Sources/SimpleTheming/ThemeProvider/ThemeProvider.swift:10 | a write replaces the value under its key only, and is recorded once in the write log |
| `ThemeProvider.ThemeProvider.constructor` | src-ios/SharedLibraries/SimpleTheming/Sources/SimpleTheming/ThemeProvider/ThemeProvider.swift:85-93 | `theme` is the stored theme under `theming.theme.key` if there is one, else the default; the same for the preference under `theming.preferredAppearance.key` |
| `ThemeProvider.ThemeProvider.ThemeFor` | src-ios/SharedLibraries/SimpleTheming/Sources/SimpleTheming/ThemeProvider/ThemeProvider.swift:104 | the overriding theme when one is given, else the provider's current theme (used by every lookup) |
| `ThemeProvider.ThemeProvider.PreferenceFor` | src-ios/SharedLibraries/SimpleTheming/Sources/SimpleTheming/ThemeProvider/ThemeProvider.swift:107 | the overriding preference when one is given, else the provider's current one |
| `ThemeProvider.ThemeProvider.Color` | src-ios/SharedLibraries/SimpleTheming/Sources/SimpleTheming/ThemeProvider/ThemeProvider.swift:102-108 | the colour is the override-or-current theme table entry; every main-theme colour is the same whatever the preference and the style; no state changes (a function) |
| `ThemeProvider.ThemeProvider.Font` | src-ios/SharedLibraries/SimpleTheming/Sources/SimpleTheming/ThemeProvider/ThemeProvider.swift:132-138 | the font is the table font and the metrics are the table metrics, passed through unchanged |
| `ThemeProvider.ThemeProvider.Gradient` | src-ios/SharedLibraries/SimpleTheming/Sources/SimpleTheming/ThemeProvider/ThemeProvider.swift:140-146 | the gradient is the table entry for the token |
| `ThemeProvider.ThemeProvider.SetTheme` | src-ios/SharedLibraries/SimpleTheming/Sources/SimpleTheming/ThemeProvider/ThemeProvider.swift:150-154 | an equal theme changes nothing and writes nothing; another theme is set and written under the theme key only; the preference is untouched |
| `ThemeProvider.ThemeProvider.SetPreferredAppearance` | src-ios/SharedLibraries/SimpleTheming/Sources/SimpleTheming/ThemeProvider/ThemeProvider.swift:158-162 | the same rule for the preference, under its own key; the theme is untouched |
| `ThemeProvider.SetThemeTwiceWritesAtMostOnce` | src-ios/SharedLibraries/SimpleTheming/Sources/SimpleTheming/ThemeProvider/ThemeProvider.swift:151 | two equal `setTheme` calls in a row write to the store at most once |
| `ThemeProvider.SetThemeThenReload` | src-ios/SharedLibraries/SimpleTheming/Sources/SimpleTheming/ThemeProvider/ThemeProvider.swift:152-153 | after a changed theme, a fresh provider over the same store loads it and keeps the stored preference |
| `ThemeProvider.SetPreferredAppearanceThenReload` | src-ios/SharedLibraries/SimpleTheming/Sources/SimpleTheming/ThemeProvider/ThemeProvider.swift:160-161 | after a changed preference, a fresh provider over the same store loads it and keeps the stored theme |
| `ThemeProvider.FreshStoreUsesDefaults` | src-ios/SharedLibraries/SimpleTheming/Sources/SimpleTheming/ThemeProvider/ThemeProvider.swift:91-92 | over an empty store the provider starts with `mainTheme` and `.system` |
| `Themes.ColorSetOn` | src-ios/SharedLibraries/SimpleTheming/Sources/SimpleTheming/Asset/Assetable.swift:32-34 | defined only for the main theme and a key of its own enumeration (the forced downcast and the undefined theme are preconditions); always static |
| `Themes.FontSetOn` | src-ios/SharedLibraries/SimpleTheming/Sources/SimpleTheming/Asset/Assetable.swift:36-38 | the same preconditions for fonts; always static |
| `Themes.GradientSetOn` | src-ios/SharedLibraries/SimpleTheming/Sources/SimpleTheming/Asset/Assetable.swift:44-46 | the same preconditions for gradients; always static |
| `MainThemeColor.ColorSet` | src-ios/Libraries/Theming/Sources/Theming/MainTheme+SemanticColor.swift:12-31 | total over the six tokens, static for each, opaque except `textSecondary` at 0.65 |
| `MainThemeColor.ColorIndependentOfAppearance` | src-ios/Libraries/Theming/Sources/Theming/MainTheme+SemanticColor.swift:14-30 | a resolved main-theme colour is the same for every preference and every system style |
| `MainThemeColor.ColorSetExamples` | src-ios/Libraries/Theming/Sources/Theming/MainTheme+SemanticColor.swift:21-29 | the table entries channel by channel, e.g. `0xFFFAF0` is (255, 250, 240) |
| `MainThemeColor.UIColorRgb` | src-ios/Libraries/Theming/Sources/Theming/MainTheme+SemanticColor.swift:35-42 | each channel is a byte; the three recombine to the value modulo 2^24 (the top byte is ignored); alpha is passed through |
| `MainThemeColor.UIColorRgba` | src-ios/Libraries/Theming/Sources/Theming/MainTheme+SemanticColor.swift:44-52 | each channel is a byte; red, green, blue and the alpha byte recombine exactly to the value; alpha is that byte over 255 |
| `MainThemeColor.ColorRgb` | src-ios/Libraries/Theming/Sources/Theming/MainTheme+SemanticColor.swift:56-63 | SwiftUI `Color(rgb:alpha:)` channels are bytes |
| `MainThemeColor.ColorRgba` | src-ios/Libraries/Theming/Sources/Theming/MainTheme+SemanticColor.swift:65-73 | SwiftUI `Color(rgba:)` channels are bytes |
| `MainThemeColor.ColorMatchesUIColor` | src-ios/Libraries/Theming/Sources/Theming/MainTheme+SemanticColor.swift:55-73 | the SwiftUI initialisers extract the same channels as the UIKit ones |
| `MainThemeFont.Size` | src-ios/Libraries/Theming/Sources/Theming/MainTheme+SemanticFont.swift:23-35 | every point size of the scale lies between 11 and 40 |
| `MainThemeFont.LineHeight` | src-ios/Libraries/Theming/Sources/Theming/MainTheme+SemanticFont.swift:37-49 | every line height of the scale exceeds the point size of the same step |
| `MainThemeFont.TextStyleOf` | src-ios/Libraries/Theming/Sources/Theming/MainTheme+SemanticFont.swift:97-148 | the text style of each token; `MainThemeFont.TextStyleDeterminesMetrics` states that tokens sharing it share their metrics |
| `MainThemeFont.StepOf` | src-ios/Libraries/Theming/Sources/Theming/MainTheme+SemanticFont.swift:150-201 | the scale step of each token's row; `MainThemeFont.Properties` states that its size and line height are that step's |
| `MainThemeFont.Properties` | src-ios/Libraries/Theming/Sources/Theming/MainTheme+SemanticFont.swift:150-201 | total; size and line height are one step of `Typography.Size`/`LineHeight`; line height exceeds size; letter spacing 0%; `outfit_semibold` exactly for `largeTitle` and `title1`-`title3`, SF Pro otherwise |
| `MainThemeFont.TextStyleDeterminesMetrics` | src-ios/Libraries/Theming/Sources/Theming/MainTheme+SemanticFont.swift:97-200 | variants that share a text style share size and line height |
| `MainThemeFont.PropertiesExamples` | src-ios/Libraries/Theming/Sources/Theming/MainTheme+SemanticFont.swift:23-49 | 34/41 is step `_900` and 11/13 is step `_50` |
| `MainThemeFont.FontSetFor` | src-ios/Libraries/Theming/Sources/Theming/MainTheme+SemanticFont.swift:74-79 | a static font of the table name and size, scaled for the text style, with exactly the table size, line height and letter spacing as metrics |
| `MainThemeGradient.GradientSet` | src-ios/Libraries/Theming/Sources/Theming/MainTheme+SemanticGradient.swift:11-19 | the background gradient is static with two opaque colours |
| `SemanticFont.IgnoringLineHeight` | src-ios/Libraries/Theming/Sources/Theming/SemanticFont.swift:74-83 | the line height becomes nil; point size, letter spacing, font and measured line height are unchanged |
| `SemanticFont.IgnoringLineHeightIdempotent` | src-ios/Libraries/Theming/Sources/Theming/SemanticFont.swift:74-83 | applying it twice is applying it once; a value without a line height is unchanged |
| `SemanticFontLookup.SemanticFontOf` | src-ios/Libraries/Theming/Sources/Theming/SemanticFont.swift:87-90 | the font component of the provider lookup |
| `SemanticFontLookup.FontOf` | src-ios/Libraries/Theming/Sources/Theming/SemanticFont.swift:92-99 | the lookup font wrapped for SwiftUI, its measured line height, and the table metrics unchanged |
| `SemanticFontLookup.FontOfIgnoringLineHeight` | src-ios/Libraries/Theming/Sources/Theming/SemanticFont.swift:74-99 | a looked-up font with its line height ignored has the table size, no line height and 0% spacing |
| `Scanner.Scanner.constructor` | src-ios/SharedLibraries/StringCodable/Sources/StringCodable/StringCodable.swift:32 | a new scanner stands at the start of its text and skips whitespace and newlines |
| `Scanner.Scanner.DisableSkipping` | src-ios/SharedLibraries/StringCodable/Sources/StringCodable/StringCodable.swift:64 | skipping is off and the cursor does not move |
| `Scanner.Scanner.ScanString` | src-ios/SharedLibraries/StringCodable/Sources/StringCodable/StringCodable.swift:37 | after skipping, consumes exactly the literal or fails and leaves the cursor unchanged |
| `Scanner.Scanner.ScanUpToString` | src-ios/SharedLibraries/StringCodable/Sources/StringCodable/StringCodable.swift:72 | after skipping, consumes up to the first occurrence (or the end); yields nothing and does not move when that is zero characters |
| `Scanner.SkipFromSkipsBlanks` | src-ios/SharedLibraries/StringCodable/Sources/StringCodable/StringCodable.swift:35-53 | skipping passes over exactly the leading whitespace and newlines |
| `StringCodable.EncodedDefault` | src-ios/SharedLibraries/StringCodable/Sources/StringCodable/StringCodable.swift:17-20 | the result starts with the id and `(` and ends with `)`; with no parameters it is exactly `id()` |
| `StringCodable.EncodedDefaultPieces` | src-ios/SharedLibraries/StringCodable/Sources/StringCodable/StringCodable.swift:17-19 | between the parentheses stand the parameters, nil ones as empty strings, joined by commas: splitting there on commas gives them back, when none contains a comma |
| `StringCodable.EncodedWithAdditionalEscaping` | src-ios/SharedLibraries/StringCodable/Sources/StringCodable/StringCodable.swift:23-26 | the result is `id()` exactly when there are no parameters or one nil or empty one |
| `StringCodable.EncodedGroups` | src-ios/SharedLibraries/StringCodable/Sources/StringCodable/StringCodable.swift:23-26 | with non-empty parameters, every one is wrapped as `<<<p>>>`, separated by commas |
| `StringCodable.DecodeDefault` | src-ios/SharedLibraries/StringCodable/Sources/StringCodable/StringCodable.swift:62-79 | on success the id is a non-empty prefix of the input directly followed by `(`; the only errors are "Can't read id" and "Can't read parameters" (characterised by `StringCodable.DecodeDefaultCantReadId`, `StringCodable.DecodeDefaultCantReadParameters` and `StringCodable.DecodeDefaultOf`) |
| `StringCodable.JoinPieces` | src-ios/SharedLibraries/StringCodable/Sources/StringCodable/StringCodable.swift:77 | joining the comma pieces of a text (empty ones included) with commas gives the text back |
| `StringCodable.DecodeDefaultScanning` | src-ios/SharedLibraries/StringCodable/Sources/StringCodable/StringCodable.swift:62-79 | the scanner-based decoder computes the reference decoding, errors included |
| `StringCodable.DecodeDefaultCantReadId` | src-ios/SharedLibraries/StringCodable/Sources/StringCodable/StringCodable.swift:66-70 | "Can't read id" exactly when the input is empty, starts with `(` or has no `(` |
| `StringCodable.DecodeDefaultCantReadParameters` | src-ios/SharedLibraries/StringCodable/Sources/StringCodable/StringCodable.swift:72-75 | "Can't read parameters" exactly when the id is read but no `)` follows |
| `StringCodable.DecodeDefaultOf` | src-ios/SharedLibraries/StringCodable/Sources/StringCodable/StringCodable.swift:66-78 | on `id(body)`, the id and the body split on commas, empty pieces dropped, trimmed |
| `StringCodable.DecodeDefaultIgnoresRest` | src-ios/SharedLibraries/StringCodable/Sources/StringCodable/StringCodable.swift:72-78 | text after the first `)` does not change the result |
| `StringCodable.DefaultDecodeDropsEmpty` | src-ios/SharedLibraries/StringCodable/Sources/StringCodable/StringCodable.swift:72-77 | decoding an encoding drops the nil and empty parameters and gives back the rest in order (so `f(a,,b)` gives `a`, `b` and `f()` gives none) |
| `StringCodable.DefaultRoundTripTrims` | src-ios/SharedLibraries/StringCodable/Sources/StringCodable/StringCodable.swift:77 | whitespace padding around any parameter is trimmed away on decoding |
| `StringCodable.TrimPadded` | src-ios/SharedLibraries/StringCodable/Sources/StringCodable/StringCodable.swift:77 | trimming removes exactly the whitespace around a parameter |
| `StringCodable.DecodeDefaultErrorExamples` | src-ios/SharedLibraries/StringCodable/Sources/StringCodable/StringCodable.swift:66-75 | `(a)` cannot read the id; `f(a` cannot read the parameters |
| `StringCodable.DefaultRoundTrip` | src-ios/SharedLibraries/StringCodable/Sources/StringCodable/StringCodable.swift:17-20 | decoding an encoding gives back the id and parameters, for a non-empty id without `(` and present, non-empty parameters without `,` or `)` or surrounding whitespace |
| `StringCodable.DecodeWithAdditionalEscaping` | src-ios/SharedLibraries/StringCodable/Sources/StringCodable/StringCodable.swift:31-57 | the reference reading: the id from the first non-blank character to the first `(`, then the groups the loop collects; its error cases are stated by `StringCodable.DecodeEscapedErrors` |
| `StringCodable.DecodeWithAdditionalEscapingScanning` | src-ios/SharedLibraries/StringCodable/Sources/StringCodable/StringCodable.swift:31-57 | the scanner-based decoder computes the reference decoding, errors included |
| `StringCodable.ScanParamsAfterId` | src-ios/SharedLibraries/StringCodable/Sources/StringCodable/StringCodable.swift:42-56 | after the id and `(`, the scanner yields the reference decoding |
| `StringCodable.ScanGroup` | src-ios/SharedLibraries/StringCodable/Sources/StringCodable/StringCodable.swift:44-53 | one loop round reads a non-empty closed group and its optional comma, or reports none |
| `StringCodable.ScanClose` | src-ios/SharedLibraries/StringCodable/Sources/StringCodable/StringCodable.swift:47-53 | `>>>` is read exactly when the text has not run out, and then the cursor stands past the optional comma |
| `StringCodable.EscapedParams` | src-ios/SharedLibraries/StringCodable/Sources/StringCodable/StringCodable.swift:42-54 | the parameters of successive rounds until one finds no group; `StringCodable.EscapedParamsOfGroups` states it reads back exactly the groups of an encoding |
| `StringCodable.ScanEscapedParams` | src-ios/SharedLibraries/StringCodable/Sources/StringCodable/StringCodable.swift:42-54 | the loop collects exactly the groups the reference reading finds, in order |
| `StringCodable.NextParam` | src-ios/SharedLibraries/StringCodable/Sources/StringCodable/StringCodable.swift:44-53 | a round that reads a group moves the cursor forward |
| `StringCodable.DecodeEscapedErrors` | src-ios/SharedLibraries/StringCodable/Sources/StringCodable/StringCodable.swift:34-40 | the only error is "Can't read id", exactly when after leading blanks a `(` comes first or none comes |
| `StringCodable.EmptyGroupEndsList` | src-ios/SharedLibraries/StringCodable/Sources/StringCodable/StringCodable.swift:44-49 | an empty group `<<<>>>` ends the parameter list |
| `StringCodable.DecodeEscapedOf` | src-ios/SharedLibraries/StringCodable/Sources/StringCodable/StringCodable.swift:42-56 | after `id(`, the groups of the parameters are read back, whether or not the closing `)` is there |
| `StringCodable.EscapedRoundTrip` | src-ios/SharedLibraries/StringCodable/Sources/StringCodable/StringCodable.swift:31-57 | decoding an escaped encoding gives back the id and parameters, for a non-empty id without `(` or leading blank and present, non-empty parameters without `>` or leading blank |
| `StringCodable.EscapedEmptyParamLost` | src-ios/SharedLibraries/StringCodable/Sources/StringCodable/StringCodable.swift:23-26 | a single nil or empty parameter encodes as `id()` and decodes to no parameters |
| `Diagnostics.RawValue` | src-ios/SharedLibraries/Diagnostics/Sources/Diagnostics/Protocols/Diagnostics.swift:6-11 | each level has its emoji raw value, of one or two scalars |
| `Diagnostics.OSLogTypeOf` | src-ios/SharedLibraries/Diagnostics/Sources/Diagnostics/DiagnosticsWorker.swift:107-119 | the OS log type of a level; `Diagnostics.OSLogTypeTable` states the table and that no two levels share a type |
| `Diagnostics.OSLogTypeTable` | src-ios/SharedLibraries/Diagnostics/Sources/Diagnostics/DiagnosticsWorker.swift:108-119 | info to default, warn to info, error to error, fatal to fault; no two levels share a type |
| `Diagnostics.LogString` | src-ios/SharedLibraries/Diagnostics/Sources/Diagnostics/DiagnosticsWorker.swift:52 | the raw value, then `: `, then the message |
| `Diagnostics.LogStringInjective` | src-ios/SharedLibraries/Diagnostics/Sources/Diagnostics/DiagnosticsWorker.swift:52 | the log string determines both the level and the message |
| `Diagnostics.ReservedInfo` | src-ios/SharedLibraries/Diagnostics/Sources/Diagnostics/DiagnosticsWorker.swift:64-68 | the merge starts from exactly the `_file_`, `_line_` and `_function_` keys |
| `Diagnostics.MergeKeepingExisting` | src-ios/SharedLibraries/Diagnostics/Sources/Diagnostics/DiagnosticsWorker.swift:70 | the union of the keys; the existing value wins where both have a key |
| `Diagnostics.MergedInfo` | src-ios/SharedLibraries/Diagnostics/Sources/Diagnostics/DiagnosticsWorker.swift:64-71 | the reserved keys merged with the user info, existing values kept; `Diagnostics.MergedInfoProperties` states its keys and values |
| `Diagnostics.MergedInfoProperties` | src-ios/SharedLibraries/Diagnostics/Sources/Diagnostics/DiagnosticsWorker.swift:64-71 | the reserved keys always map to the call site; every other user-info key keeps its value; no user info gives exactly the reserved keys |
| `Diagnostics.ExceptionMessageAsWritten` | src-ios/SharedLibraries/Diagnostics/Sources/Diagnostics/DiagnosticsWorker.swift:74 | the message as written ends with the info in parentheses followed by a stray `)` |
| `Diagnostics.ExceptionMessageAsWrittenUnbalanced` | src-ios/SharedLibraries/Diagnostics/Sources/Diagnostics/DiagnosticsWorker.swift:74 | the message as written closes one parenthesis more than it opens |
| `Diagnostics.ExceptionMessage` | src-ios/SharedLibraries/Diagnostics/Sources/Diagnostics/DiagnosticsWorker.swift:74 | the corrected message ends with the info in one pair of parentheses |
| `Diagnostics.ExceptionMessageBalanced` | src-ios/SharedLibraries/Diagnostics/Sources/Diagnostics/DiagnosticsWorker.swift:74 | the corrected message adds balanced parentheses |
| `Diagnostics.DiagnosticsWorker.constructor` | src-ios/SharedLibraries/Diagnostics/Sources/Diagnostics/DiagnosticsWorker.swift:39-41 | no hooks, nothing recorded |
| `Diagnostics.DiagnosticsWorker.SetHooks` | src-ios/SharedLibraries/Diagnostics/Sources/Diagnostics/DiagnosticsWorker.swift:45-47 | the hooks are replaced and nothing is forwarded or emitted |
| `Diagnostics.DiagnosticsWorker.Log` | src-ios/SharedLibraries/Diagnostics/Sources/Diagnostics/DiagnosticsWorker.swift:51-61 | the log string goes to the log hook if set and to the system log; exactly one `(level, message)` with the unprefixed message is emitted |
| `Diagnostics.DiagnosticsWorker.Exception` | src-ios/SharedLibraries/Diagnostics/Sources/Diagnostics/DiagnosticsWorker.swift:63-79 | the merged info goes to the record hook if set; exactly one entry at level error is emitted, carrying the message as the program writes it (`Diagnostics.ExceptionMessageAsWritten`, with its extra `)`), and the same message goes to NSLog in debug builds |
| `Diagnostics.DiagnosticsWorker.SetUserID` | src-ios/SharedLibraries/Diagnostics/Sources/Diagnostics/DiagnosticsWorker.swift:89-91 | forwarded to its hook when that is set, otherwise nothing happens |
| `Diagnostics.DiagnosticsWorker.SetCustomValue` | src-ios/SharedLibraries/Diagnostics/Sources/Diagnostics/DiagnosticsWorker.swift:93-95 | forwarded to its hook when that is set, otherwise nothing happens |
| `Diagnostics.LogWithHooks` | src-ios/SharedLibraries/Diagnostics/Sources/Diagnostics/DiagnosticsWorker.swift:51-61 | with hooks, one log call with the prefixed string and one unprefixed entry |
| `Diagnostics.CallsWithoutHooks` | src-ios/SharedLibraries/Diagnostics/Sources/Diagnostics/DiagnosticsWorker.swift:89-95 | without hooks nothing is forwarded; the log entry is still emitted |
| `Diagnostics.ExceptionWithRecordHook` | src-ios/SharedLibraries/Diagnostics/Sources/Diagnostics/DiagnosticsWorker.swift:63-79 | the record hook sees the call site under the reserved keys; one entry at level error |
| `CollectionFunctional.Any` | src-ios/SharedLibraries/RxExtensions/Sources/RxExtensions/Functional/Collection+Functional.swift:8-15 | true exactly when some element satisfies the predicate |
| `CollectionFunctional.All` | src-ios/SharedLibraries/RxExtensions/Sources/RxExtensions/Functional/Collection+Functional.swift:20-23 | true exactly when the collection is non-empty and every element satisfies the predicate |
| `CollectionFunctional.AllImpliesAny` | src-ios/SharedLibraries/RxExtensions/Sources/RxExtensions/Functional/Collection+Functional.swift:20-23 | `all` implies `any` |
| `CollectionFunctional.EmptyCollection` | src-ios/SharedLibraries/RxExtensions/Sources/RxExtensionsTests/Functional/Collection+FunctionalSpec.swift:11-21 | both are false on an empty collection |
| `CollectionFunctional.EveryElementMatches` | src-ios/SharedLibraries/RxExtensions/Sources/RxExtensionsTests/Functional/Collection+FunctionalSpec.swift:22-31 | an always-true predicate: both true |
| `CollectionFunctional.OneMatches` | src-ios/SharedLibraries/RxExtensions/Sources/RxExtensionsTests/Functional/Collection+FunctionalSpec.swift:32-41 | `$0 == 0`: any true, all false |
| `CollectionFunctional.AllButOneMatch` | src-ios/SharedLibraries/RxExtensions/Sources/RxExtensionsTests/Functional/Collection+FunctionalSpec.swift:42-51 | `$0 > 0`: any true, all false |
| `CollectionFunctional.NoElementMatches` | src-ios/SharedLibraries/RxExtensions/Sources/RxExtensionsTests/Functional/Collection+FunctionalSpec.swift:52-61 | a never-true predicate: both false |
| `SequenceFunctional.Compact` | src-ios/SharedLibraries/RxExtensions/Sources/RxExtensions/Functional/Sequence+Functional.swift:7-9 | no longer than the input; contains exactly the wrapped values of the non-nil elements |
| `SequenceFunctional.CompactAtSomePositions` | src-ios/SharedLibraries/RxExtensions/Sources/RxExtensions/Functional/Sequence+Functional.swift:8 | the k-th element is the value at the k-th non-nil position: order is kept |
| `SequenceFunctional.CompactLength` | src-ios/SharedLibraries/RxExtensions/Sources/RxExtensions/Functional/Sequence+Functional.swift:8 | the length is the number of non-nil elements |
| `SequenceFunctional.CompactAppend` | src-ios/SharedLibraries/RxExtensions/Sources/RxExtensions/Functional/Sequence+Functional.swift:8 | compacting distributes over concatenation |
| `SequenceFunctional.CompactOfSomes` | src-ios/SharedLibraries/RxExtensions/Sources/RxExtensions/Functional/Sequence+Functional.swift:8 | compacting wrapped values gives them back |
| `SequenceFunctional.CompactOfNones` | src-ios/SharedLibraries/RxExtensions/Sources/RxExtensions/Functional/Sequence+Functional.swift:8 | only nils compact to nothing |
| `SequenceFunctional.CompactExample` | src-ios/SharedLibraries/RxExtensions/Sources/RxExtensionsTests/Functional/Sequence+FunctionalSpec.swift:10-14 | `[0, 1, nil, nil, 2]` gives `[0, 1, 2]` |
| `SequenceFunctional.Flatten` | src-ios/SharedLibraries/RxExtensions/Sources/RxExtensions/Functional/Sequence+Functional.swift:14-16 | every inner element appears, and nothing else |
| `SequenceFunctional.FlattenLength` | src-ios/SharedLibraries/RxExtensions/Sources/RxExtensions/Functional/Sequence+Functional.swift:15 | the length is the sum of the inner lengths |
| `SequenceFunctional.FlattenAppend` | src-ios/SharedLibraries/RxExtensions/Sources/RxExtensions/Functional/Sequence+Functional.swift:15 | flattening distributes over concatenation of the outer sequence |
| `SequenceFunctional.FlattenSingleton` | src-ios/SharedLibraries/RxExtensions/Sources/RxExtensions/Functional/Sequence+Functional.swift:15 | a single inner sequence comes out unchanged, in its own order; with `FlattenAppend` this determines `flatten` completely |
| `SequenceFunctional.FlattenAt` | src-ios/SharedLibraries/RxExtensions/Sources/RxExtensions/Functional/Sequence+Functional.swift:14-16 | element `j` of inner sequence `i` is at position (total length of the inner sequences before `i`) + `j` of the result |
| `SequenceDictionary.Dictionary` | src-ios/SharedLibraries/RxExtensions/Sources/RxExtensions/Functional/Sequence+Dictionary.swift:13-15 | with distinct keys: the key set is the pairs' keys, every pair's value is stored, and the size is the number of pairs |
| `SequenceDictionary.DictionaryUniquing` | src-ios/SharedLibraries/RxExtensions/Sources/RxExtensions/Functional/Sequence+Dictionary.swift:8-10 | the key set is the pairs' keys |
| `SequenceDictionary.DictionaryUniquingFolds` | src-ios/SharedLibraries/RxExtensions/Sources/RxExtensions/Functional/Sequence+Dictionary.swift:9 | each key maps to the left fold of `combine` over its values in order |
| `SequenceDictionary.UniquingAgreesOnDistinctKeys` | src-ios/SharedLibraries/RxExtensions/Sources/RxExtensions/Functional/Sequence+Dictionary.swift:8-15 | with distinct keys both overloads give the same dictionary |
| `SkipWhile.SkipWhile` | src-ios/SharedLibraries/RxExtensions/Sources/RxExtensions/Combine/Publisher+skipWhile.swift:7-19 | the scan followed by `compactMap`; `SkipWhile.SkipWhileDropsLeadingMatches` states it is the input without its leading run of matching elements |
| `SkipWhile.Step` | src-ios/SharedLibraries/RxExtensions/Sources/RxExtensions/Combine/Publisher+skipWhile.swift:11-15 | an element is swallowed exactly while skipping and matching; otherwise it is emitted and skipping stops |
| `SkipWhile.SkipWhileDropsLeadingMatches` | src-ios/SharedLibraries/RxExtensions/Sources/RxExtensions/Combine/Publisher+skipWhile.swift:7-19 | the output is the input without its leading run of matching elements: a suffix in order, dropped elements match, the first emitted one does not |
| `SkipWhile.EmitsAllOnceLatched` | src-ios/SharedLibraries/RxExtensions/Sources/RxExtensions/Combine/Publisher+skipWhile.swift:11-15 | once skipping has stopped every later element is emitted, matching or not |
| `SkipWhile.SkipWhileCorners` | src-ios/SharedLibraries/RxExtensions/Sources/RxExtensions/Combine/Publisher+skipWhile.swift:10-17 | all matching gives nothing; a first element that fails gives the input back |
| `SkipWhile.SkipWhileLatches` | src-ios/SharedLibraries/RxExtensions/Sources/RxExtensions/Combine/Publisher+skipWhile.swift:11-15 | once something was emitted, later input is emitted unchanged |
| `SkipWhile.SkipWhileExample` | src-ios/SharedLibraries/RxExtensions/Sources/RxExtensions/Combine/Publisher+skipWhile.swift:10-17 | `[1, 2, 0, 3]` skipping while positive gives `[0, 3]` |
| `ZipWithPrevious.Zip` | src-ios/SharedLibraries/RxExtensions/Sources/RxExtensions/Rx/ObservableType+ZipWithPrevious.swift:7-10 | pairs by position, as long as the shorter input |
| `ZipWithPrevious.ZipWithPrevious` | src-ios/SharedLibraries/RxExtensions/Sources/RxExtensions/Rx/ObservableType+ZipWithPrevious.swift:6-11 | as long as the input; pair i is `(x_i, x_{i-1})`, the first `(x_0, nil)` |
| `ZipWithPrevious.ZipWithPreviousStreams` | src-ios/SharedLibraries/RxExtensions/Sources/RxExtensionsTests/Rx/ObservableType+ZipWithPreviousSpec.swift:39-45 | each new element emits exactly one pair with its predecessor; completion emits nothing more |
| `ZipWithPrevious.ZipWithPreviousExample` | src-ios/SharedLibraries/RxExtensions/Sources/RxExtensionsTests/Rx/ObservableType+ZipWithPreviousSpec.swift:25-38 | 1 then 2 gives `(1, nil)` then `(2, 1)` |
| `ZipWithPrevious.ZipWithPreviousOptional` | src-ios/SharedLibraries/RxExtensions/Sources/RxExtensions/Rx/ObservableType+ZipWithPrevious.swift:15-20 | as long as the input; pair i is `(x_i, x_{i-1})` with a nil element and a missing one alike |
| `ZipWithPrevious.OptionalFlattensPlain` | src-ios/SharedLibraries/RxExtensions/Sources/RxExtensions/Rx/ObservableType+ZipWithPrevious.swift:15-20 | the optional variant is the plain one with its double optional flattened |
| `ZipWithPrevious.ZipWithPreviousOptionalExample` | src-ios/SharedLibraries/RxExtensions/Sources/RxExtensionsTests/Rx/ObservableType+ZipWithPreviousSpec.swift:51-89 | `[nil, 1, nil]` gives `(nil, nil)`, `(1, nil)`, `(nil, 1)` |

## Left out

- `ThemeProvider.image(for:preferredAppearance:on:)`: the main theme's image asset type and `imageSet` are not part of this model, so there is no image table to resolve against. The resolution path is the same as for colours.
- `ThemePersistentStorage` (UserDefaults and JSON coding) is not part of this model. The store is the abstract map described above, and a write never fails.
- Floating point is not modelled: the `/ 255.0` channel scaling, `LetterSpacing.toPoints`, line spacing and kerning. Colours keep their integer channels. `UIColor(rgba:)` keeps its alpha as the alpha byte over 255, a real.
- Font registration, font loading and `UIFontMetrics` scaling are CoreText/UIKit side effects and are not modelled. This includes the fallback to an 11-point system font when registration fails, and the measured `UIFont.lineHeight`, which is a parameter.
- Hook closures, `NSLog`/`os_log` and the Combine subject are recorded as sequences. What a hook does with a call is not modelled.
- The `DEBUG`-only helpers `isRunningTests` and `DEBUG_DISABLE_PRELOADING_TIMEOUT_ASSERTION` read the process environment and are not modelled.
- Stream semantics of `skip(while:)` and `zipWithPrevious` are not modelled: subscription, hot versus cold sources, threading, errors. Both are modelled on finite sequences only. `zipWithPrevious` is read as zipping the stream with `[nil] + stream + stream`, its `concat(self)` taken as a replay of the same finite stream.
- `Scanner`, `split(separator:)` and `trimmingCharacters(in:)` are modelled on Unicode scalars: grapheme clustering (a `,` followed by a combining mark is one Swift `Character` and is not split on) and locale are not modelled. The whitespace and newline sets are written out as the character sets Foundation documents.
- `Dictionary(uniqueKeysWithValues:)` traps on a duplicate key. `SequenceDictionary.Dictionary` makes distinct keys a precondition instead of modelling the trap.
- `SequenceDictionary.DictionaryUniquing`: `dictionary(uniquingKeysWith:)` is `rethrows`, so a `combine` that throws aborts the construction. The model takes a total `combine` and does not model that error path.
- `Diagnostics.DiagnosticsWorker.Log` and `Diagnostics.DiagnosticsWorker.Exception`: `NSLog` reads its argument as a format string, so `%` sequences in a message would be expanded. The model records the message verbatim as the NSLog line.
- `Any` values in user info and custom values are a closed datatype of strings, integers and opaque values.

## Findings

| source | as written | input that shows it | evidently intended | confidence | as-written member | corrected member |
|---|---|---|---|---|---|---|
| src-ios/SharedLibraries/Diagnostics/Sources/Diagnostics/DiagnosticsWorker.swift:74 | the exception message ends `(\(mergedInfo)))`, with one closing parenthesis too many | any error and any user info, e.g. an empty error description and merged info holding only the three reserved keys, described as `["_file_": "A.swift", "_line_": 1, "_function_": "f()"]`, which gives a message ending in `"f()"]))` | the info in one pair of parentheses | high (not executed) | `Diagnostics.ExceptionMessageAsWrittenUnbalanced` | `Diagnostics.ExceptionMessageBalanced` |

`Diagnostics.DiagnosticsWorker.Exception` emits the message as written, extra parenthesis included; `Diagnostics.ExceptionMessage` is the corrected form.
