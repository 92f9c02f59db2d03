/** The page script (`js/main.js`): the theme, its toggle and the particle
    colours it hands to the background sketch, and the icons of the
    experience and award lists. */
module MainPage {
  import opened Wrappers
  import opened ColorParsing
  import opened BackgroundSketch

  /** The colour `{r: 100, g: 100, b: 100, a: 150}` returned when no theme
      variable holds a colour. */
  const DefaultParticleColor := Rgba(100, 100, 100, Finite(150.0))

  /** The four CSS variables read for particle colours, in order. */
  const ColorVars: seq<string> :=
    ["--color-p5-particle-1", "--color-p5-particle-2", "--color-p5-particle-3", "--color-p5-particle-4"]

  /** The computed style of the document: the value of each declared custom
      property. */
  type Style = map<string, string>

  /** `getPropertyValue(name)`: the declared value, or the empty string. */
  function PropertyValue(style: Style, name: string): string {
    if name in style then style[name] else ""
  }

  /** The colour a variable holds: its trimmed value read by
      `parseRGBAColorSafe`. */
  function VarColor(style: Style, name: string): Option<Rgba> {
    ParseRGBAColorSafe(JsString(Trim(PropertyValue(style, name))))
  }

  /** The colour of each variable in `style`. */
  function StyleColors(style: Style): string -> Option<Rgba> {
    (name: string) => VarColor(style, name)
  }

  /** The colours that `colorOf` gives the variables `names`, in the order
      of the names, leaving out the variables that hold none. */
  function ParsedColors(colorOf: string -> Option<Rgba>, names: seq<string>): (cs: seq<Rgba>)
    ensures |cs| <= |names|
  {
    if |names| == 0 then []
    else
      ParsedColors(colorOf, names[..|names| - 1])
      + match colorOf(names[|names| - 1]) case Some(c) => [c] case None => []
  }

  /** A colour is listed exactly when some variable holds it. */
  lemma {:induction false} ParsedColorsMembers(colorOf: string -> Option<Rgba>, names: seq<string>, c: Rgba)
    ensures c in ParsedColors(colorOf, names) <==> exists k :: 0 <= k < |names| && colorOf(names[k]) == Some(c)
  {
    if |names| > 0 {
      var init := names[..|names| - 1];
      ParsedColorsMembers(colorOf, init, c);
      assert forall k :: 0 <= k < |init| ==> init[k] == names[k];
      if exists k :: 0 <= k < |names| && colorOf(names[k]) == Some(c) {
        var k :| 0 <= k < |names| && colorOf(names[k]) == Some(c);
        if k < |init| {
          assert colorOf(init[k]) == Some(c);
        }
      }
    }
  }

  /** The colours of a list of variables are those of its first part
      followed by those of the rest: the order of the variables is kept. */
  lemma {:induction false} ParsedColorsAppend(colorOf: string -> Option<Rgba>, a: seq<string>, b: seq<string>)
    ensures ParsedColors(colorOf, a + b) == ParsedColors(colorOf, a) + ParsedColors(colorOf, b)
    decreases |b|
  {
    if |b| == 0 {
      assert a + b == a;
    } else {
      var init := b[..|b| - 1];
      assert (a + b)[..|a + b| - 1] == a + init;
      ParsedColorsAppend(colorOf, a, init);
    }
  }

  /** Every variable holds a colour exactly when none is left out. */
  lemma {:induction false} ParsedColorsAll(colorOf: string -> Option<Rgba>, names: seq<string>)
    ensures |ParsedColors(colorOf, names)| == |names| <==> forall k :: 0 <= k < |names| ==> colorOf(names[k]).Some?
  {
    if |names| > 0 {
      var init := names[..|names| - 1];
      ParsedColorsAll(colorOf, init);
      assert forall k :: 0 <= k < |init| ==> init[k] == names[k];
    }
  }

  /** No colour is listed exactly when no variable holds one. */
  lemma {:induction false} ParsedColorsEmpty(colorOf: string -> Option<Rgba>, names: seq<string>)
    ensures ParsedColors(colorOf, names) == [] <==> forall k :: 0 <= k < |names| ==> colorOf(names[k]).None?
  {
    if |names| > 0 {
      var init := names[..|names| - 1];
      ParsedColorsEmpty(colorOf, init);
      assert forall k :: 0 <= k < |init| ==> init[k] == names[k];
    }
  }

  /** What `getThemeParticleColors` returns: the colours of the four
      variables, or the default colour alone when none holds one. */
  function ThemeParticleColors(style: Style): (cs: seq<Rgba>)
    ensures 1 <= |cs| <= |ColorVars|
  {
    var parsed := ParsedColors(StyleColors(style), ColorVars);
    if parsed == [] then [DefaultParticleColor] else parsed
  }

  /** The default colour is returned alone when no variable holds a
      colour, and otherwise the variables' colours; all four when all four
      hold one. */
  lemma ThemeParticleColorsCases(style: Style)
    ensures (forall k :: 0 <= k < |ColorVars| ==> VarColor(style, ColorVars[k]).None?) ==>
              ThemeParticleColors(style) == [DefaultParticleColor]
    ensures (exists k :: 0 <= k < |ColorVars| && VarColor(style, ColorVars[k]).Some?) ==>
              ThemeParticleColors(style) == ParsedColors(StyleColors(style), ColorVars)
    ensures (forall k :: 0 <= k < |ColorVars| ==> VarColor(style, ColorVars[k]).Some?) ==>
              |ThemeParticleColors(style)| == |ColorVars|
  {
    var f := StyleColors(style);
    assert forall k :: 0 <= k < |ColorVars| ==> f(ColorVars[k]) == VarColor(style, ColorVars[k]);
    ParsedColorsEmpty(f, ColorVars);
    ParsedColorsAll(f, ColorVars);
  }

  /** `getThemeParticleColors()`: the colours of the four variables, and
      the default colour when none parsed. */
  method GetThemeParticleColors(style: Style) returns (colors: seq<Rgba>)
    ensures colors == ThemeParticleColors(style)
  {
    colors := CollectColors(style, ColorVars);
    if |colors| == 0 {
      colors := colors + [DefaultParticleColor];
    }
  }

  /** The `forEach` over the variables: each variable's trimmed value is
      parsed in turn and its colour pushed when it parses. */
  method CollectColors(style: Style, names: seq<string>) returns (colors: seq<Rgba>)
    ensures colors == ParsedColors(StyleColors(style), names)
  {
    colors := [];
    var i := 0;
    while i < |names|
      invariant 0 <= i <= |names|
      invariant colors == ParsedColors(StyleColors(style), names[..i])
    {
      var colorData := ParseRGBAColorSafe(JsString(Trim(PropertyValue(style, names[i]))));
      assert names[..i + 1][..i] == names[..i];
      assert StyleColors(style)(names[i]) == colorData;
      if colorData.Some? {
        colors := colors + [colorData.value];
      }
      i := i + 1;
    }
    assert names[..i] == names;
  }

  /** The colours as the array handed to `updateP5Theme`. */
  function AsColorData(cs: seq<Rgba>): ColorData {
    ColorArray(seq(|cs|, k requires 0 <= k < |cs| => Some(cs[k])))
  }

  /** Once p5's `color` is available, the sketch takes exactly the colours
      the page computed. */
  lemma SketchTakesThemeColors(style: Style, current: seq<Rgba>)
    ensures ThemeColors(AsColorData(ThemeParticleColors(style)), true, current) == ThemeParticleColors(style)
  {
    var cs := ThemeParticleColors(style);
    var items := AsColorData(cs).items;
    assert None !in items by {
      forall k | 0 <= k < |items|
        ensures items[k] != None
      {
        assert items[k] == Some(cs[k]);
      }
    }
  }

  // ---------------------------------------------------------------------
  // The theme

  /** The first theme: the saved one when it is a non-empty string, else
      `dark` when the user prefers a dark scheme, else `light`. */
  function InitialTheme(saved: Option<string>, prefersDark: bool): string {
    if saved.Some? && saved.value != "" then saved.value
    else if prefersDark then "dark" else "light"
  }

  /** The saved theme wins whenever there is one; the initial theme is
      never empty. */
  lemma InitialThemeChoice(saved: Option<string>, prefersDark: bool)
    ensures InitialTheme(saved, prefersDark) != ""
    ensures saved.Some? && saved.value != "" ==> InitialTheme(saved, prefersDark) == saved.value
    ensures saved.None? || saved.value == "" ==>
              (InitialTheme(saved, prefersDark) == "dark" <==> prefersDark)
  {
  }

  /** The theme after a click on the toggle, from the body's `data-theme`
      attribute (`None` when it is absent). */
  function Toggle(current: Option<string>): (next: string)
    ensures next == "light" || next == "dark"
    ensures next == "dark" <==> current == Some("light")
  {
    if current == Some("light") then "dark" else "light"
  }

  /** From `light` or `dark`, two clicks return to the start and one
      click changes the theme. */
  lemma ToggleTwice(t: string)
    requires t == "light" || t == "dark"
    ensures Toggle(Some(t)) != t
    ensures Toggle(Some(Toggle(Some(t)))) == t
  {
  }

  /** The theme after `n` clicks starting from the attribute `start`. */
  function AfterClicks(start: Option<string>, n: nat): string
    requires n > 0
  {
    if n == 1 then Toggle(start) else Toggle(Some(AfterClicks(start, n - 1)))
  }

  /** Whatever the starting attribute, after the first click the theme
      alternates: it is the same every second click. */
  lemma {:induction false} ClicksAlternate(start: Option<string>, n: nat)
    requires n > 0
    ensures AfterClicks(start, n + 2) == AfterClicks(start, n)
    ensures AfterClicks(start, n + 1) != AfterClicks(start, n)
  {
    var t := AfterClicks(start, n);
    if n == 1 {
      assert t == Toggle(start);
    } else {
      assert t == Toggle(Some(AfterClicks(start, n - 1)));
    }
    ToggleTwice(t);
  }

  /** The page: the body's `data-theme` attribute, the theme saved in
      local storage, and the animation frames requested for colour
      updates that have not run yet. `p5Present` says whether the sketch's
      `updateP5Theme` and p5 itself are loaded. */
  class Page {
    var dataTheme: Option<string>
    var storedTheme: Option<string>
    var pendingFrames: nat
    const p5Present: bool

    /** `applyTheme(theme)`. */
    method ApplyTheme(theme: string)
      modifies this
      ensures dataTheme == Some(theme) && storedTheme == Some(theme)
      ensures pendingFrames == old(pendingFrames) + (if p5Present then 1 else 0)
    {
      dataTheme := Some(theme);
      storedTheme := Some(theme);
      if p5Present {
        pendingFrames := pendingFrames + 1;
      }
    }

    /** The page script at `DOMContentLoaded`: the initial theme is applied. */
    constructor (saved: Option<string>, prefersDark: bool, p5Present: bool)
      ensures dataTheme == Some(InitialTheme(saved, prefersDark)) && storedTheme == dataTheme
      ensures this.p5Present == p5Present && pendingFrames == (if p5Present then 1 else 0)
    {
      this.p5Present := p5Present;
      dataTheme, storedTheme := None, saved;
      pendingFrames := 0;
      new;
      ApplyTheme(InitialTheme(saved, prefersDark));
    }

    /** The toggle's click handler. */
    method ToggleClicked()
      modifies this
      ensures dataTheme == Some(Toggle(old(dataTheme))) && storedTheme == dataTheme
      ensures pendingFrames == old(pendingFrames) + (if p5Present then 1 else 0)
    {
      var newTheme := Toggle(dataTheme);
      ApplyTheme(newTheme);
    }

    /** A requested animation frame runs: the colours of the current style
        are handed to the sketch. */
    method AnimationFrame(style: Style, sketch: Background)
      requires pendingFrames > 0
      modifies this, sketch`colors
      ensures pendingFrames == old(pendingFrames) - 1
      ensures dataTheme == old(dataTheme) && storedTheme == old(storedTheme)
      ensures sketch.colors == ThemeColors(AsColorData(ThemeParticleColors(style)), sketch.colorReady, old(sketch.colors))
    {
      pendingFrames := pendingFrames - 1;
      var newColors := GetThemeParticleColors(style);
      sketch.UpdateP5Theme(AsColorData(newColors));
    }
  }

  // ---------------------------------------------------------------------
  // Icons

  /** The icon of an experience entry by its `type`. */
  function ExperienceIcon(itemType: JsValue): string {
    if itemType == JsString("education") then "fa-graduation-cap" else "fa-briefcase"
  }

  lemma ExperienceIconCases(itemType: JsValue)
    ensures ExperienceIcon(itemType) == "fa-graduation-cap" <==> itemType == JsString("education")
    ensures ExperienceIcon(itemType) != "fa-graduation-cap" ==> ExperienceIcon(itemType) == "fa-briefcase"
  {
  }

  /** The award categories that have an icon of their own. */
  const KnownCategories: set<string> := {"tech", "art", "academic", "sports"}

  /** The icon of an award by its `category`. */
  function AwardIcon(category: JsValue): string {
    match category
    case JsString("tech") => "fa-microchip"
    case JsString("art") => "fa-palette"
    case JsString("academic") => "fa-award"
    case JsString("sports") => "fa-trophy"
    case _ => "fa-question-circle"
  }

  /** The default icon is used exactly for the other categories, and the
      four known categories have four different icons. */
  lemma AwardIconCases(category: JsValue, other: JsValue)
    ensures AwardIcon(category) == "fa-question-circle" <==> !(category.JsString? && category.s in KnownCategories)
    ensures (category.JsString? && category.s in KnownCategories && AwardIcon(category) == AwardIcon(other))
            ==> category == other
  {
  }
}
