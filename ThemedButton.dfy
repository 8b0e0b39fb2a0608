/** `ThemedButton`: a pressable whose container and label styles are each the
    flattening of a base style, a theme colour and the caller's override. */
module ThemedButton {
  import opened Wrappers
  import opened StyleSheet
  import opened ThemeContext

  /** `styles.button`. */
  const ButtonBase: Style := map[
    "paddingVertical" := Num(12.0),
    "paddingHorizontal" := Num(20.0),
    "borderRadius" := Num(8.0),
    "alignItems" := Str("center"),
    "justifyContent" := Str("center"),
    "marginVertical" := Num(10.0)]

  /** `styles.buttonText`. */
  const ButtonTextBase: Style := map[
    "fontSize" := Num(16.0),
    "fontWeight" := Str("bold")]

  /** The two styles of a rendered button. */
  datatype ButtonStyles = ButtonStyles(container: Style, text: Style)

  /** `buttonCombinedStyle`: `[styles.button, {backgroundColor: primaryButtonColor}, style]`.
      The caller's keys win, the theme background is the default, and the
      base keys survive unless the caller redefines them. */
  function ContainerStyle(palette: ColorPalette, style: Option<Style>): (r: Style)
    ensures r.Keys == ButtonBase.Keys + {"backgroundColor"} + style.GetOr(map[]).Keys
    ensures forall k :: k in style.GetOr(map[]) ==> r[k] == style.value[k]
    ensures "backgroundColor" !in style.GetOr(map[]) ==> r["backgroundColor"] == Str(palette.primaryButtonColor)
    ensures forall k :: k in ButtonBase && k !in style.GetOr(map[]) ==> r[k] == ButtonBase[k]
  {
    ThemeLayerUnderOverride(ButtonBase, "backgroundColor", palette.primaryButtonColor, style.GetOr(map[]));
    Flatten([ButtonBase, map["backgroundColor" := Str(palette.primaryButtonColor)], style.GetOr(map[])])
  }

  /** `textCombinedStyle`: `[styles.buttonText, {color: primaryButtonTextColor}, textStyle]`.
      The theme text colour is the default; `textStyle` keys override and add. */
  function LabelStyle(palette: ColorPalette, textStyle: Option<Style>): (r: Style)
    ensures r.Keys == ButtonTextBase.Keys + {"color"} + textStyle.GetOr(map[]).Keys
    ensures forall k :: k in textStyle.GetOr(map[]) ==> r[k] == textStyle.value[k]
    ensures "color" !in textStyle.GetOr(map[]) ==> r["color"] == Str(palette.primaryButtonTextColor)
    ensures forall k :: k in ButtonTextBase && k !in textStyle.GetOr(map[]) ==> r[k] == ButtonTextBase[k]
  {
    ThemeLayerUnderOverride(ButtonTextBase, "color", palette.primaryButtonTextColor, textStyle.GetOr(map[]));
    Flatten([ButtonTextBase, map["color" := Str(palette.primaryButtonTextColor)], textStyle.GetOr(map[])])
  }

  /** Without overrides a button renders exactly the base styles plus the
      palette's primary colours: padding 12/20, radius 8, centred, margin 10,
      and a bold 16-point label. */
  lemma DefaultButtonStyles(palette: ColorPalette)
    ensures ContainerStyle(palette, None) == map[
      "paddingVertical" := Num(12.0),
      "paddingHorizontal" := Num(20.0),
      "borderRadius" := Num(8.0),
      "alignItems" := Str("center"),
      "justifyContent" := Str("center"),
      "marginVertical" := Num(10.0),
      "backgroundColor" := Str(palette.primaryButtonColor)]
    ensures LabelStyle(palette, None) == map[
      "fontSize" := Num(16.0),
      "fontWeight" := Str("bold"),
      "color" := Str(palette.primaryButtonTextColor)]
  {
    var container, text := ContainerStyle(palette, None), LabelStyle(palette, None);
    assert container.Keys == ButtonBase.Keys + {"backgroundColor"};
    assert text.Keys == ButtonTextBase.Keys + {"color"};
  }

  /** Rendering a button reads the theme through `useTheme`, so outside a
      provider it fails with the scope-misuse error. */
  function Render(context: Option<ContextValue>, style: Option<Style>, textStyle: Option<Style>): (r: Result<ButtonStyles, string>)
    ensures r.Failure? <==> context.None?
    ensures r.Failure? ==> r.error == ScopeError
    ensures r.Success? ==> r.value == ButtonStyles(
      ContainerStyle(context.value.currentTheme, style), LabelStyle(context.value.currentTheme, textStyle))
  {
    match UseTheme(context)
    case Failure(e) => Failure(e)
    case Success(v) => Success(ButtonStyles(ContainerStyle(v.currentTheme, style), LabelStyle(v.currentTheme, textStyle)))
  }

  /** A theme switch restyles the container's background and nothing else:
      every other key keeps its value, and the background changes unless the
      caller overrides it. */
  lemma ToggleRestylesOnlyBackground(name: ThemeName, style: Option<Style>)
    ensures var before, after := ContainerStyle(PaletteOf(name), style), ContainerStyle(PaletteOf(Toggled(name)), style);
      && before.Keys == after.Keys
      && (forall k :: k in before && k != "backgroundColor" ==> before[k] == after[k])
      && ("backgroundColor" !in style.GetOr(map[]) ==> before["backgroundColor"] != after["backgroundColor"])
  {
    PalettesDifferEverywhere(name);
  }

  /** Start with the OS reporting `light`, render a button without
      overrides, toggle, render again: the background goes from the light
      palette's primary colour to the dark one's, and nothing else changes. */
  method RenderToggleRender() returns (before: ButtonStyles, after: ButtonStyles)
    ensures "backgroundColor" in before.container && "color" in before.text && "backgroundColor" in after.container
    ensures before.container["backgroundColor"] == Str(LightTheme.primaryButtonColor)
    ensures before.text["color"] == Str(LightTheme.primaryButtonTextColor)
    ensures after.container["backgroundColor"] == Str(DarkTheme.primaryButtonColor)
    ensures after.container.Keys == before.container.Keys
    ensures forall k :: k in before.container && k != "backgroundColor" ==> after.container[k] == before.container[k]
  {
    var provider := new ThemeProvider();
    provider.Mount(Some(Light));
    assert provider.Value() == ContextValue(Light, LightTheme);
    var first := Render(Some(provider.Value()), None, None);
    provider.Toggle();
    assert provider.Value() == ContextValue(Dark, DarkTheme);
    var second := Render(Some(provider.Value()), None, None);
    before, after := first.value, second.value;
    assert before.container == ContainerStyle(LightTheme, None);
    assert after.container == ContainerStyle(DarkTheme, None);
    ToggleRestylesOnlyBackground(Light, None);
  }
}
