/** `ThemedText`: a text element whose style is `[{color: textColor}, style]`,
    the theme text colour under the caller's override. The component passes
    the array itself to `Text`; `TextStyle` is the effective style the
    renderer resolves from it by flattening, not a value the component computes. */
module ThemedText {
  import opened Wrappers
  import opened StyleSheet
  import opened ThemeContext

  /** The effective style of `[{color: palette.textColor}, style]`: the
      caller's keys with the caller's values, and the theme text colour
      unless the caller sets `color`. */
  function TextStyle(palette: ColorPalette, style: Option<Style>): (r: Style)
    ensures r.Keys == {"color"} + style.GetOr(map[]).Keys
    ensures forall k :: k in style.GetOr(map[]) ==> r[k] == style.value[k]
    ensures "color" !in style.GetOr(map[]) ==> r["color"] == Str(palette.textColor)
  {
    ThemeColourUnderOverride("color", palette.textColor, style.GetOr(map[]));
    Flatten([map["color" := Str(palette.textColor)], style.GetOr(map[])])
  }

  /** Rendering goes through `useTheme`: outside a provider it fails with the
      scope-misuse error, inside one the style follows the current palette. */
  function Render(context: Option<ContextValue>, style: Option<Style>): (r: Result<Style, string>)
    ensures r.Failure? <==> context.None?
    ensures r.Failure? ==> r.error == ScopeError
    ensures r.Success? ==> r.value == TextStyle(context.value.currentTheme, style)
  {
    match UseTheme(context)
    case Failure(e) => Failure(e)
    case Success(v) => Success(TextStyle(v.currentTheme, style))
  }

  /** Under a provider whose name is `dark`, text without a colour override
      takes the dark palette's text colour; under `light`, the light one's. */
  lemma TextColourFollowsTheme(name: ThemeName, style: Option<Style>)
    requires "color" !in style.GetOr(map[])
    ensures var r := Render(Some(ContextValue(name, PaletteOf(name))), style);
      && r.Success?
      && r.value["color"] == Str(if name == Dark then DarkTheme.textColor else LightTheme.textColor)
  {
  }
}
