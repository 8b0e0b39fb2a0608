# Theme store and themed primitives

A Dafny model of the theming core of a small React Native application: the
theme store (`ThemeProvider` / `useTheme` in `src/context/ThemeContext.tsx`)
and the style layering of the two themed primitives (`ThemedButton`,
`ThemedText`).

- `Wrappers` — `Option` (a value the source leaves `null`/`undefined`) and
  `Result` (the error `useTheme` throws).
- `ThemeContext` — the theme names, the two constant palettes, the palette
  derivation, the events that change the name (toggle, OS colour scheme),
  their pure reference semantics `Run` (a left fold in delivery order), the
  `useTheme` guard, and the class `ThemeProvider`, whose `themeName` and
  listener registration change in place. A ghost event history kept by every
  method ties the field to `Run`. Four client methods replay the store's
  scenarios against the class contracts.
- `StyleSheet` — style records as maps from property name to value;
  `Flatten` is the left fold of right-biased map union that
  `StyleSheet.flatten` performs on an array of records.
- `ThemedButton` — the container and label styles
  (`[base, theme colour, caller override]`), rendering through `useTheme`,
  and the render-toggle-render scenario.
- `ThemedText` — the text style `[theme text colour, caller override]` and
  rendering through `useTheme`. The component hands this array to `Text`
  without flattening it; `TextStyle` is the effective style the renderer
  resolves from it, not a value the component itself computes.

The OS appearance module is modelled as inputs: the scheme read at mount
and each change event are `Option<ThemeName>` arguments (`None` is the
`null` scheme). React's render cycle is modelled as plain method calls in
event order.

## Model

| member | source | states |
|---|---|---|
| ThemeContext.PaletteOf | src/context/ThemeContext.tsx:19-46 | the derived palette is one of the two constants, and it is the dark one exactly when the name is dark (no mixed palette) |
| ThemeContext.PalettesDifferEverywhere | src/context/ThemeContext.tsx:19-35 | the palettes of a name and of its toggle differ in all six colours |
| ThemeContext.Toggled | src/context/ThemeContext.tsx:63-65 | a toggle always changes the name (light to dark, dark to light) |
| ThemeContext.WithScheme | src/context/ThemeContext.tsx:49-58 | a non-null OS scheme replaces the name whatever it was; a null scheme leaves it unchanged |
| ThemeContext.Apply | src/context/ThemeContext.tsx:49-65 | one `setThemeName` call: a toggle changes the name, a non-null OS scheme replaces it, a null scheme leaves it |
| ThemeContext.Run | src/context/ThemeContext.tsx:49-65 | the name after a sequence of events in delivery order: no events leave it as it was, and a final non-null OS scheme decides it |
| ThemeContext.RunAppend | src/context/ThemeContext.tsx:54-65 | events are applied in delivery order: running a concatenation is running the second part from where the first left off |
| ThemeContext.ToggleTwice | src/context/ThemeContext.tsx:63-65 | two toggles restore the original name and palette |
| ThemeContext.TogglesParity | src/context/ThemeContext.tsx:63-65 | after a run of toggles only, the name is the original for an even count and the flipped one for an odd count |
| ThemeContext.QuietKeepsName | src/context/ThemeContext.tsx:54-58 | any number of null OS change events leave the name unchanged |
| ThemeContext.LastSystemChangeWins | src/context/ThemeContext.tsx:54-65 | after a non-null OS scheme followed only by null events, the name is that scheme, whatever toggles came before |
| ThemeContext.UseTheme | src/context/ThemeContext.tsx:74-79 | fails exactly when there is no provider, with exactly "useTheme must be used within a ThemeProvider"; otherwise returns the provider's value unchanged |
| ThemeContext.ThemeProvider.constructor | src/context/ThemeContext.tsx:44 | before any OS input the name is light, no listener is registered and no event has happened |
| ThemeContext.ThemeProvider.Value | src/context/ThemeContext.tsx:46-68 | the context value carries the current name and the palette statically associated with it |
| ThemeContext.ThemeProvider.Mount | src/context/ThemeContext.tsx:48-58 | mount adopts the OS scheme if non-null, registers the listener, and keeps the name equal to the replay of its event history |
| ThemeContext.ThemeProvider.Toggle | src/context/ThemeContext.tsx:63-65 | the name becomes its toggle, independently of the OS; the listener registration is untouched |
| ThemeContext.ThemeProvider.OnSystemChange | src/context/ThemeContext.tsx:54-58 | a registered listener sets the name to a non-null reported scheme and ignores null; after removal nothing changes |
| ThemeContext.ThemeProvider.Unmount | src/context/ThemeContext.tsx:60 | cleanup removes the listener and keeps the name tied to the event history; calling it again is harmless |
| ThemeContext.MountedName | src/context/ThemeContext.tsx:44-52 | a mounted provider is dark when the OS reports dark, light when it reports light or nothing, and its palette matches |
| ThemeContext.ToggleTwiceRestores | src/context/ThemeContext.tsx:63-65 | on a mounted provider two toggles give back the same name and palette |
| ThemeContext.SystemChangeOverridesToggle | src/context/ThemeContext.tsx:54-65 | an OS change delivered after a manual toggle decides the name, and a later null event does not undo it |
| ThemeContext.UnmountedIgnoresSystem | src/context/ThemeContext.tsx:54-60 | once cleaned up, the provider ignores OS change events |
| StyleSheet.Flatten | __tests__/ThemedButton.test.tsx:19-24 | left fold of right-biased map union; an empty array gives the empty record and a single record flattens to itself (FlattenKeys and FlattenValues state the general case) |
| StyleSheet.FlattenKeys | __tests__/ThemedButton.test.tsx:19-24 | the flattened record holds exactly the keys that some layer defines |
| StyleSheet.FlattenValues | __tests__/ThemedButton.test.tsx:19-24 | every key of the flattened record is bound to the value of the last layer that defines it |
| StyleSheet.FlattenAppend | __tests__/ThemedButton.test.tsx:19-24 | flattening a concatenation is the right-biased union of the two flattened parts |
| StyleSheet.ThemeColourUnderOverride | src/components/ThemedText.tsx:14 | `[{key: colour}, override]` flattens to `key` plus the override's keys; override values win and the theme colour holds unless overridden |
| StyleSheet.EmptyLayerIsNeutral | __tests__/ThemedButton.test.tsx:19-24 | an empty layer (an absent caller style) anywhere in the array changes nothing |
| StyleSheet.ThemeLayerUnderOverride | src/components/ThemedButton.tsx:15-26 | `[base, {key: colour}, override]` flattens to the union of the three key sets; override keys keep the override's values, the theme colour holds unless overridden, base keys hold elsewhere |
| ThemedButton.ContainerStyle | src/components/ThemedButton.tsx:15-19 | the container style has the base, `backgroundColor` and caller keys; caller values win; the theme background holds when the caller does not set it (so with no caller style it is the palette's primary button colour); base values such as `paddingVertical` 12 survive unless redefined |
| ThemedButton.LabelStyle | src/components/ThemedButton.tsx:22-26 | the label style has the base text keys, `color` and the `textStyle` keys; `textStyle` values win; the theme text colour is the default |
| ThemedButton.DefaultButtonStyles | src/components/ThemedButton.tsx:43-56 | without overrides the container is exactly the base layout (padding 12/20, radius 8, centred, margin 10) plus the palette's primary button colour, and the label exactly bold 16-point text in the palette's primary button text colour |
| ThemedButton.Render | src/components/ThemedButton.tsx:12-26 | outside a provider rendering fails with the scope-misuse error; inside one it yields the container and label styles of the provider's palette |
| ThemedButton.ToggleRestylesOnlyBackground | src/components/ThemedButton.tsx:15-19 | a theme switch leaves every container key except `backgroundColor` unchanged, and changes the background unless the caller overrides it |
| ThemedButton.RenderToggleRender | src/components/ThemedButton.tsx:15-26 | with the OS on light, the background is the light primary colour and the label the light primary text colour; after a toggle the background is the dark primary colour and no other container property changed |
| ThemedText.TextStyle | src/components/ThemedText.tsx:14 | the text style holds `color` and all caller keys; caller values win, and the theme text colour holds unless the caller sets `color` |
| ThemedText.Render | src/components/ThemedText.tsx:11-14 | outside a provider rendering fails with the scope-misuse error; inside one the style follows the provider's palette |
| ThemedText.TextColourFollowsTheme | src/components/ThemedText.tsx:11-14 | without a colour override, text under a dark provider has the dark text colour and under a light one the light text colour |

## Left out

- The React runtime: re-render scheduling, context propagation and effect timing. Methods are called in event order instead.
- The `toggleTheme` member of the context value: it is the `ThemeProvider.Toggle` method here, not a field of `ContextValue`.
- The `Appearance` native module as an asynchronous channel. The mount read and each change event are inputs, and the listener registration is the `subscribed` flag.
- ThemeContext.ThemeProvider.Mount: requires that no listener is registered yet, because React runs the mount effect again only after its cleanup.
- Colour scheme strings other than `light`, `dark` and null/undefined: the TypeScript type of the state admits only `light` and `dark`, so the model does not cover another truthy string reaching `setThemeName`.
- Style values are numbers (exact rationals, not IEEE doubles) or strings; boolean, object and array values (`shadowOffset`, `transform`) are not representable, though `Flatten` never inspects values. Colours are opaque strings with no parsing.
- `StyleSheet.flatten` is modelled as the fold over a flat array of records, as the test doubles define it (`__tests__/ThemedButton.test.tsx:19-24`); an absent caller style is an empty record. React Native's own `flatten`, which the app calls in production, also flattens nested arrays recursively; `FlattenAppend` states that this recursive reading agrees with the flat fold. The test double does not: it would spread a nested array's indices in as keys, and the model does not cover that.
- Press handling, the `title` text, and forwarding of the remaining props (`...rest`) to `TouchableOpacity`/`Text`: these are framework behaviour.
- The screens (`src/screens/`) and the navigation shell (`App.tsx`): layout, static copy and navigation wiring, with no logic of the theme core.
