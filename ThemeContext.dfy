/** The theme store: the provider's current theme name, the palette derived
    from it, the events that change it, and the `useTheme` accessor. */
module ThemeContext {
  import opened Wrappers

  datatype ThemeName = Light | Dark

  /** A fixed record of named colours; colours are opaque strings. */
  datatype ColorPalette = ColorPalette(
    backgroundColor: string,
    textColor: string,
    primaryButtonColor: string,
    primaryButtonTextColor: string,
    headerBackgroundColor: string,
    headerTextColor: string)

  const LightTheme := ColorPalette("#F8F8F8", "#333333", "#007AFF", "#FFFFFF", "#FFFFFF", "#333333")
  const DarkTheme := ColorPalette("#121212", "#E0E0E0", "#BB86FC", "#000000", "#1E1E1E", "#E0E0E0")

  /** The message `useTheme` throws outside a provider. */
  const ScopeError := "useTheme must be used within a ThemeProvider"

  /** `currentTheme`: the palette statically associated with a theme name. */
  function PaletteOf(name: ThemeName): (p: ColorPalette)
    ensures p == LightTheme || p == DarkTheme
    ensures p == DarkTheme <==> name == Dark
  {
    if name == Dark then DarkTheme else LightTheme
  }

  /** The two palettes differ in every colour, so no palette is ever mistaken
      for the other one and a toggle changes every colour on screen. */
  lemma PalettesDifferEverywhere(name: ThemeName)
    ensures var p, q := PaletteOf(name), PaletteOf(Toggled(name));
      && p.backgroundColor != q.backgroundColor
      && p.textColor != q.textColor
      && p.primaryButtonColor != q.primaryButtonColor
      && p.primaryButtonTextColor != q.primaryButtonTextColor
      && p.headerBackgroundColor != q.headerBackgroundColor
      && p.headerTextColor != q.headerTextColor
  {
  }

  /** The functional update of `toggleTheme`. */
  function Toggled(name: ThemeName): (r: ThemeName)
    ensures r != name
  {
    if name == Light then Dark else Light
  }

  /** An OS colour scheme replaces the name when it is present; `null` is ignored. */
  function WithScheme(name: ThemeName, scheme: Option<ThemeName>): (r: ThemeName)
    ensures scheme.Some? ==> r == scheme.value
    ensures scheme.None? ==> r == name
  {
    match scheme
    case Some(s) => s
    case None => name
  }

  /** What can happen to the theme name: a user toggle, or a colour scheme
      reported by the OS (the initial read on mount, or a change event). */
  datatype Event = Toggle | SystemChange(scheme: Option<ThemeName>)

  /** One `setThemeName` call: a toggle flips the name, a non-null scheme
      replaces it, a null scheme leaves it. */
  function Apply(name: ThemeName, e: Event): (r: ThemeName)
    ensures e.Toggle? ==> r != name
    ensures e.SystemChange? && e.scheme.Some? ==> r == e.scheme.value
    ensures e.SystemChange? && e.scheme.None? ==> r == name
  {
    match e
    case Toggle => Toggled(name)
    case SystemChange(scheme) => WithScheme(name, scheme)
  }

  /** The theme name after the events, applied in delivery order. No events
      leave the name as it was; a final non-null scheme decides it. */
  function Run(name: ThemeName, events: seq<Event>): (r: ThemeName)
    ensures events == [] ==> r == name
    ensures events != [] && events[|events| - 1].SystemChange? && events[|events| - 1].scheme.Some?
      ==> r == events[|events| - 1].scheme.value
    decreases |events|
  {
    if events == [] then name else Apply(Run(name, events[..|events| - 1]), events[|events| - 1])
  }

  lemma {:induction false} RunAppend(name: ThemeName, a: seq<Event>, b: seq<Event>)
    ensures Run(name, a + b) == Run(Run(name, a), b)
    decreases |b|
  {
    if b == [] {
      assert a + b == a;
    } else {
      var b' := b[..|b| - 1];
      assert (a + b)[..|a + b| - 1] == a + b';
      assert (a + b)[|a + b| - 1] == b[|b| - 1];
      RunAppend(name, a, b');
    }
  }

  /** Toggling twice restores the original name, and with it the palette. */
  lemma ToggleTwice(name: ThemeName)
    ensures Run(name, [Toggle, Toggle]) == name
    ensures PaletteOf(Run(name, [Toggle, Toggle])) == PaletteOf(name)
  {
    assert [Toggle, Toggle][..1] == [Toggle];
    assert [Toggle][..0] == [];
  }

  /** A run of toggles only: an even number restores the name, an odd number flips it. */
  lemma {:induction false} TogglesParity(name: ThemeName, events: seq<Event>)
    requires forall i :: 0 <= i < |events| ==> events[i] == Toggle
    ensures Run(name, events) == if |events| % 2 == 0 then name else Toggled(name)
    decreases |events|
  {
    if events != [] {
      TogglesParity(name, events[..|events| - 1]);
    }
  }

  /** Events that leave the name alone: change events with a `null` scheme. */
  ghost predicate Quiet(events: seq<Event>)
  {
    forall i :: 0 <= i < |events| ==> events[i] == SystemChange(None)
  }

  lemma {:induction false} QuietKeepsName(name: ThemeName, events: seq<Event>)
    requires Quiet(events)
    ensures Run(name, events) == name
    decreases |events|
  {
    if events != [] {
      QuietKeepsName(name, events[..|events| - 1]);
    }
  }

  /** Last event wins: a non-null OS scheme fixes the name whatever came
      before it, manual toggles included, until the next toggle or non-null
      scheme. */
  lemma LastSystemChangeWins(name: ThemeName, before: seq<Event>, v: ThemeName, after: seq<Event>)
    requires Quiet(after)
    ensures Run(name, before + [SystemChange(Some(v))] + after) == v
  {
    RunAppend(name, before + [SystemChange(Some(v))], after);
    RunAppend(name, before, [SystemChange(Some(v))]);
    assert [SystemChange(Some(v))][..0] == [];
    QuietKeepsName(v, after);
  }

  /** The value the provider puts in the context (its `toggleTheme` is the
      `Toggle` method of `ThemeProvider`). */
  datatype ContextValue = ContextValue(themeName: ThemeName, currentTheme: ColorPalette)

  ghost predicate Consistent(v: ContextValue)
  {
    v.currentTheme == PaletteOf(v.themeName)
  }

  /** `useTheme`: the context value of the enclosing provider, or the
      scope-misuse error when there is none. */
  function UseTheme(context: Option<ContextValue>): (r: Result<ContextValue, string>)
    ensures r.Failure? <==> context.None?
    ensures r.Failure? ==> r.error == ScopeError
    ensures r.Success? ==> r.value == context.value
  {
    match context
    case None => Failure(ScopeError)
    case Some(v) => Success(v)
  }

  /** `ThemeProvider`: the state cell holding `themeName` and the change
      listener it registers with the OS while mounted. */
  class ThemeProvider {
    var themeName: ThemeName
    /** The OS change listener of this provider is registered. */
    var subscribed: bool
    /** Every event that reached the store, in delivery order. */
    ghost var history: seq<Event>

    ghost predicate Valid()
      reads this
    {
      themeName == Run(Light, history)
    }

    /** `useState('light')`: before any OS input the name is `light`. */
    constructor ()
      ensures Valid()
      ensures themeName == Light && !subscribed && history == []
    {
      themeName := Light;
      subscribed := false;
      history := [];
    }

    /** The context value: the name together with its derived palette. */
    function Value(): (v: ContextValue)
      reads this
      ensures v.themeName == themeName && Consistent(v)
    {
      ContextValue(themeName, PaletteOf(themeName))
    }

    /** The mount effect: adopt the OS scheme if there is one, then register
        the change listener. React runs it again only after the cleanup. */
    method Mount(scheme: Option<ThemeName>)
      requires Valid() && !subscribed
      modifies this
      ensures Valid()
      ensures themeName == WithScheme(old(themeName), scheme)
      ensures subscribed
      ensures history == old(history) + [SystemChange(scheme)]
    {
      if scheme.Some? {
        themeName := scheme.value;
      }
      subscribed := true;
      history := history + [SystemChange(scheme)];
    }

    /** `toggleTheme`: flip the name, whatever the OS reports. */
    method Toggle()
      requires Valid()
      modifies this`themeName, this`history
      ensures Valid()
      ensures themeName == Toggled(old(themeName))
      ensures history == old(history) + [Event.Toggle]
    {
      themeName := Toggled(themeName);
      history := history + [Event.Toggle];
    }

    /** An OS appearance change. Only a registered listener receives it; a
        `null` scheme leaves the name unchanged. */
    method OnSystemChange(scheme: Option<ThemeName>)
      requires Valid()
      modifies this`themeName, this`history
      ensures Valid()
      ensures themeName == if subscribed then WithScheme(old(themeName), scheme) else old(themeName)
      ensures history == if subscribed then old(history) + [SystemChange(scheme)] else old(history)
    {
      if subscribed {
        if scheme.Some? {
          themeName := scheme.value;
        }
        history := history + [SystemChange(scheme)];
      }
    }

    /** The effect cleanup: remove the change listener. */
    method Unmount()
      requires Valid()
      modifies this`subscribed
      ensures Valid()
      ensures !subscribed
    {
      subscribed := false;
    }
  }

  /** A freshly mounted provider: `dark` from the OS gives `dark` without any
      toggle, and a missing scheme leaves the default `light`. */
  method MountedName(scheme: Option<ThemeName>) returns (name: ThemeName, palette: ColorPalette)
    ensures name == scheme.GetOr(Light)
    ensures palette == PaletteOf(name)
  {
    var provider := new ThemeProvider();
    provider.Mount(scheme);
    name, palette := provider.themeName, provider.Value().currentTheme;
  }

  /** After mounting, toggling twice restores the name and the palette. */
  method ToggleTwiceRestores(scheme: Option<ThemeName>) returns (before: ContextValue, after: ContextValue)
    ensures after == before
    ensures before.themeName == scheme.GetOr(Light)
  {
    var provider := new ThemeProvider();
    provider.Mount(scheme);
    before := provider.Value();
    provider.Toggle();
    provider.Toggle();
    after := provider.Value();
  }

  /** An OS change after a manual toggle overrides the toggle; a later `null`
      change does not undo it. */
  method SystemChangeOverridesToggle(scheme: Option<ThemeName>, reported: ThemeName) returns (name: ThemeName)
    ensures name == reported
  {
    var provider := new ThemeProvider();
    provider.Mount(scheme);
    ghost var h0 := provider.history;
    provider.Toggle();
    provider.OnSystemChange(Some(reported));
    provider.OnSystemChange(None);
    assert provider.history == (h0 + [Event.Toggle]) + [SystemChange(Some(reported))] + [SystemChange(None)];
    LastSystemChangeWins(Light, h0 + [Event.Toggle], reported, [SystemChange(None)]);
    name := provider.themeName;
  }

  /** After the cleanup the provider no longer reacts to OS changes. */
  method UnmountedIgnoresSystem(scheme: Option<ThemeName>, reported: ThemeName) returns (name: ThemeName)
    ensures name == scheme.GetOr(Light)
  {
    var provider := new ThemeProvider();
    provider.Mount(scheme);
    provider.Unmount();
    provider.OnSystemChange(Some(reported));
    name := provider.themeName;
  }
}
