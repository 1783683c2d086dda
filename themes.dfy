/** Colour themes: the four built-in palettes, applying a palette to the
    document's style properties, and building a custom palette. The root
    element's inline style is a class holding a property map. */
module Themes {
  import opened Wrappers
  import Seqs

  datatype Colors = Colors(primary: string, accent: string, background: string, foreground: string)

  datatype Theme = Theme(name: string, description: string, colors: Colors)

  const DefaultBackground: string := "210 40% 98%"
  const DefaultForeground: string := "222 47% 11%"

  const AvailableThemes: seq<Theme> := [
    Theme("default", "Tema padrão com tons de azul",
          Colors("222 89% 55%", "243 75% 59%", "210 40% 98%", "222 47% 11%")),
    Theme("purple", "Tema roxo e vibrante",
          Colors("262 83% 58%", "291 64% 54%", "260 40% 98%", "262 47% 11%")),
    Theme("green", "Tema verde e calmo",
          Colors("142 76% 36%", "160 84% 39%", "150 40% 98%", "142 47% 11%")),
    Theme("orange", "Tema laranja e acolhedor",
          Colors("24 94% 50%", "36 100% 50%", "20 40% 98%", "24 47% 11%"))
  ]

  /** The built-in palettes carry four different names. */
  lemma ThemeNames()
    ensures |AvailableThemes| == 4
    ensures AvailableThemes[0].name == "default" && AvailableThemes[1].name == "purple"
    ensures AvailableThemes[2].name == "green" && AvailableThemes[3].name == "orange"
    ensures forall i, j :: 0 <= i < j < |AvailableThemes| ==> AvailableThemes[i].name != AvailableThemes[j].name
  {
  }

  function HasName(name: string): Theme -> bool {
    (t: Theme) => t.name == name
  }

  /** `availableThemes.find(t => t.name === themeName)` */
  function FindTheme(name: string): (r: Option<Theme>)
    ensures r.None? <==> name !in {"default", "purple", "green", "orange"}
    ensures r.Some? ==> r.value in AvailableThemes && r.value.name == name
  {
    Seqs.Find(AvailableThemes, HasName(name))
  }

  /** The four custom properties a palette sets. */
  const ThemeProperties: set<string> := {"--primary", "--accent", "--background", "--foreground"}

  /** The style properties with the four colours of `c` written over them. */
  function Painted(props: map<string, string>, c: Colors): (r: map<string, string>)
    ensures r.Keys == props.Keys + ThemeProperties
    ensures r["--primary"] == c.primary && r["--accent"] == c.accent
    ensures r["--background"] == c.background && r["--foreground"] == c.foreground
    ensures forall k :: k in props && k !in ThemeProperties ==> r[k] == props[k]
  {
    props["--primary" := c.primary]["--accent" := c.accent]
         ["--background" := c.background]["--foreground" := c.foreground]
  }

  /** The style properties after applying `name` to `props`: unchanged for
      an unknown name, otherwise the palette's four colours over the rest. */
  function Applied(props: map<string, string>, name: string): map<string, string> {
    var theme := FindTheme(name);
    if theme.None? then props else Painted(props, theme.value.colors)
  }

  /** Painting the same colours twice leaves what painting once left. */
  lemma PaintedIdempotent(props: map<string, string>, c: Colors)
    ensures Painted(Painted(props, c), c) == Painted(props, c)
  {
  }

  /** Applying the same palette twice leaves what applying it once left. */
  lemma AppliedIdempotent(props: map<string, string>, name: string)
    ensures Applied(Applied(props, name), name) == Applied(props, name)
  {
    if FindTheme(name).Some? {
      PaintedIdempotent(props, FindTheme(name).value.colors);
    }
  }

  /** Painted colours do not depend on what the properties held before. */
  lemma PaintedForgets(p: map<string, string>, q: map<string, string>, c: Colors)
    ensures forall k :: k in ThemeProperties ==> Painted(p, c)[k] == Painted(q, c)[k]
  {
  }

  /** The last palette applied decides all four colours, whatever came
      before it. */
  lemma AppliedOverrides(props: map<string, string>, first: string, second: string)
    requires FindTheme(second).Some?
    ensures forall k :: k in ThemeProperties ==>
              Applied(Applied(props, first), second)[k] == Applied(props, second)[k]
  {
    PaintedForgets(Applied(props, first), props, FindTheme(second).value.colors);
  }

  /** `document.documentElement.style` */
  class StyleDeclaration {
    var props: map<string, string>

    constructor(props: map<string, string>)
      ensures this.props == props
    {
      this.props := props;
    }

    /** `style.setProperty(name, value)` */
    method SetProperty(name: string, value: string)
      modifies this
      ensures props == old(props)[name := value]
    {
      props := props[name := value];
    }
  }

  /** `applyTheme`: an unknown name reports an error and touches no style;
      a known one writes the four colour properties one after the other. */
  method ApplyTheme(style: StyleDeclaration, name: string) returns (error: Option<string>)
    modifies style
    ensures style.props == Applied(old(style.props), name)
    ensures FindTheme(name).None? ==> style.props == old(style.props)
    ensures FindTheme(name).Some? ==> style.props == Painted(old(style.props), FindTheme(name).value.colors)
    ensures error.Some? <==> FindTheme(name).None?
    ensures error.Some? ==> error.value == "Tema \"" + name + "\" não encontrado."
  {
    var theme := FindTheme(name);
    if theme.None? {
      return Some("Tema \"" + name + "\" não encontrado.");
    }
    var c := theme.value.colors;
    style.SetProperty("--primary", c.primary);
    style.SetProperty("--accent", c.accent);
    style.SetProperty("--background", c.background);
    style.SetProperty("--foreground", c.foreground);
    error := None;
  }

  /** `createCustomTheme`: an omitted background or foreground takes the
      default palette's. */
  function CreateCustomTheme(name: string, primary: string, accent: string,
                             background: Option<string>, foreground: Option<string>): (t: Theme)
    ensures t.name == name && t.description == "Tema personalizado: " + name
    ensures t.colors.primary == primary && t.colors.accent == accent
    ensures t.colors.background == (if background.Some? then background.value else DefaultBackground)
    ensures t.colors.foreground == (if foreground.Some? then foreground.value else DefaultForeground)
  {
    Theme(name, "Tema personalizado: " + name,
          Colors(primary, accent,
                 if background.Some? then background.value else DefaultBackground,
                 if foreground.Some? then foreground.value else DefaultForeground))
  }

  /** The defaults of a custom palette are the default theme's background
      and foreground. */
  lemma CustomDefaultsMatchDefaultTheme(name: string, primary: string, accent: string)
    ensures CreateCustomTheme(name, primary, accent, None, None).colors.background ==
            FindTheme("default").value.colors.background
    ensures CreateCustomTheme(name, primary, accent, None, None).colors.foreground ==
            FindTheme("default").value.colors.foreground
  {
  }
}
