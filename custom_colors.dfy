/** The colour overrides of the theme's custom stylesheet: for each of six
    colour options whose stored value differs from its default, a fixed list of
    CSS custom-property declarations, some of them chosen by whether the colour
    is light or dark; all of them wrapped in one `:root {...}` block appended to
    the incoming stylesheet, or nothing appended when no option changed. */
module CustomColors {
  import opened ColorBrightness

  /** The six colour options and, the same shape, their defaults. */
  datatype ColorOptions = ColorOptions(
    pageBackground: string,
    link: string,
    topNavigation: string,
    primaryNavigation: string,
    title: string,
    widgetTitle: string)

  /** The option keys, in the order the overrides are emitted. */
  datatype ColorOption =
    PageBackground | Link | TopNavigation | PrimaryNavigation | Title | WidgetTitle

  const OptionOrder: seq<ColorOption> :=
    [PageBackground, Link, TopNavigation, PrimaryNavigation, Title, WidgetTitle]

  /** Position of an option in OptionOrder. */
  function Rank(k: ColorOption): (n: nat)
    ensures n < |OptionOrder| && OptionOrder[n] == k
  {
    match k
    case PageBackground => 0
    case Link => 1
    case TopNavigation => 2
    case PrimaryNavigation => 3
    case Title => 4
    case WidgetTitle => 5
  }

  function Setting(o: ColorOptions, k: ColorOption): string {
    match k
    case PageBackground => o.pageBackground
    case Link => o.link
    case TopNavigation => o.topNavigation
    case PrimaryNavigation => o.primaryNavigation
    case Title => o.title
    case WidgetTitle => o.widgetTitle
  }

  /** Change detection is strict string inequality, so a difference in letter
      case alone is a change. */
  predicate Changed(o: ColorOptions, d: ColorOptions, k: ColorOption) {
    Setting(o, k) != Setting(d, k)
  }

  // ---------------------------------------------------------------- declarations

  /** Declarations are kept as the text the stylesheet receives,
      `--property: value;`, and joined without separator. */
  function Concat(decls: seq<string>): string {
    if decls == [] then "" else decls[0] + Concat(decls[1..])
  }

  lemma {:induction false} ConcatAppend(a: seq<string>, b: seq<string>)
    ensures Concat(a + b) == Concat(a) + Concat(b)
  {
    if a == [] {
      assert a + b == b;
    } else {
      assert (a + b)[1..] == a[1..] + b;
      ConcatAppend(a[1..], b);
    }
  }

  /** The declarations that carry the chosen colour itself. */
  function ValueDecls(k: ColorOption, color: string): (decls: seq<string>)
    ensures decls != [] && decls[0] != ""
  {
    match k
    case PageBackground =>
      ["--page-background-color: " + color + ";", "--header-bar-background-color: " + color + ";"]
    case Link =>
      ["--link-color: " + color + ";", "--button-color: " + color + ";"]
    case TopNavigation =>
      ["--top-navi-submenu-color: " + color + ";"]
    case PrimaryNavigation =>
      ["--navi-submenu-color: " + color + ";"]
    case Title =>
      ["--title-color: " + color + ";", "--site-title-color: " + color + ";"]
    case WidgetTitle =>
      ["--widget-title-color: " + color + ";"]
  }

  /** The white-on-dark palette a dark page background brings with it, in
      five runs: text and borders, header bar, navigation, link hover, footer. */
  const DarkBackgroundPalette: seq<string> :=
    DarkTextAndBorders + DarkHeaderBar + DarkNavigation + DarkLinkHover + DarkFooter

  const DarkTextAndBorders: seq<string> := [
    "--text-color: #fff;",
    "--medium-text-color: rgba(255,255,255,0.75);",
    "--light-text-color: rgba(255,255,255,0.5);",
    "--dark-border-color: #fff;",
    "--medium-border-color: rgba(255,255,255,0.25);",
    "--light-border-color: rgba(255,255,255,0.15);"]

  const DarkHeaderBar: seq<string> := [
    "--header-bar-text-color: #fff;",
    "--header-bar-text-hover-color: rgba(255,255,255,0.5);",
    "--header-bar-border-color: rgba(255,255,255,0.1);"]

  const DarkNavigation: seq<string> := [
    "--navi-color: #fff;",
    "--navi-hover-color: rgba(255,255,255,0.5);"]

  const DarkLinkHover: seq<string> := [
    "--link-hover-color: #fff;"]

  const DarkFooter: seq<string> := [
    "--footer-text-color: #fff;",
    "--footer-text-hover-color: rgba(255,255,255,0.5);",
    "--footer-border-color: rgba(255,255,255,0.1);"]

  /** The contrast declarations: the white-on-dark palette for the page
      background, dark text for the link and the two navigations; title and
      widget title have none. */
  function ContrastDecls(k: ColorOption): seq<string> {
    match k
    case PageBackground => DarkBackgroundPalette
    case Link => ["--button-text-color: #111;"]
    case TopNavigation => [
      "--top-navi-submenu-text-color: #111;",
      "--top-navi-submenu-hover-color: rgba(0, 0, 0, 0.1);",
      "--top-navi-submenu-border-color: rgba(0, 0, 0, 0.1);"]
    case PrimaryNavigation => [
      "--navi-submenu-text-color: #111;",
      "--navi-submenu-hover-color: rgba(0, 0, 0, 0.1);",
      "--navi-submenu-border-color: rgba(0, 0, 0, 0.1);"]
    case Title => []
    case WidgetTitle => []
  }

  /** Whether a changed option adds its contrast declarations: a dark page
      background, a light link or navigation colour. */
  predicate WantsContrast(k: ColorOption, color: string) {
    match k
    case PageBackground => IsColorDark(color)
    case Link => IsColorLight(color)
    case TopNavigation => IsColorLight(color)
    case PrimaryNavigation => IsColorLight(color)
    case Title => false
    case WidgetTitle => false
  }

  /** Everything a changed option contributes. */
  function OverrideDecls(k: ColorOption, color: string): seq<string> {
    ValueDecls(k, color) + (if WantsContrast(k, color) then ContrastDecls(k) else [])
  }

  /** The options among `ks` whose value differs from the default, in the order of `ks`. */
  function ChangedOptions(ks: seq<ColorOption>, o: ColorOptions, d: ColorOptions): seq<ColorOption> {
    if ks == [] then []
    else (if Changed(o, d, ks[0]) then [ks[0]] else []) + ChangedOptions(ks[1..], o, d)
  }

  /** The contributions of `ks`, one after the other. */
  function OverridesOf(ks: seq<ColorOption>, o: ColorOptions): seq<string> {
    if ks == [] then [] else OverrideDecls(ks[0], Setting(o, ks[0])) + OverridesOf(ks[1..], o)
  }

  /** All declarations: the contributions of the changed options, in option order. */
  function Declarations(o: ColorOptions, d: ColorOptions): seq<string> {
    OverridesOf(ChangedOptions(OptionOrder, o, d), o)
  }

  /** The block appended to the stylesheet: nothing, or one `:root` rule. */
  function RootBlock(variables: string): string {
    if variables == "" then "" else ":root {" + variables + "}"
  }

  /** What `custom_colors_css` returns for the stylesheet `css`. */
  function ColorStylesheet(css: string, o: ColorOptions, d: ColorOptions): string {
    css + RootBlock(Concat(Declarations(o, d)))
  }

  // ---------------------------------------------------------------- the operation

  /** `custom_colors_css`: builds the declarations in a local string, option
      by option, then appends them to the stylesheet in a `:root` block if there
      are any. Each option's block of appends is its own method below. */
  method CustomColorsCss(customCss: string, options: ColorOptions, defaults: ColorOptions)
    returns (css: string)
    ensures css == ColorStylesheet(customCss, options, defaults)
  {
    var colorVariables := "";
    colorVariables := AppendPageBackground(colorVariables, options, defaults);
    colorVariables := AppendLink(colorVariables, options, defaults);
    colorVariables := AppendTopNavigation(colorVariables, options, defaults);
    colorVariables := AppendPrimaryNavigation(colorVariables, options, defaults);
    colorVariables := AppendTitle(colorVariables, options, defaults);
    colorVariables := AppendWidgetTitle(colorVariables, options, defaults);
    RenderedParts(options, defaults);

    // Wrap the declarations in one :root rule, if there are any.
    RootBlockAppended(customCss, colorVariables);
    css := customCss;
    if "" != colorVariables {
      css := css + ":root {" + colorVariables + "}";
    }
  }

  /** The block for the page background: its two value declarations and, when
      it is dark, the white-on-dark palette. */
  method AppendPageBackground(variables: string, options: ColorOptions, defaults: ColorOptions)
    returns (colorVariables: string)
    ensures colorVariables == variables + Concat(Part(options, defaults, PageBackground))
  {
    colorVariables := variables;
    ghost var start := colorVariables;
    if options.pageBackground != defaults.pageBackground {
      colorVariables := colorVariables + "--page-background-color: " + options.pageBackground + ";";
      colorVariables := colorVariables + "--header-bar-background-color: " + options.pageBackground + ";";
      AppendedTwoValues(start, "--page-background-color: ", "--header-bar-background-color: ", options.pageBackground, ";");
      ghost var values := colorVariables;

      // A dark background brings the white-on-dark palette.
      if IsColorDark(options.pageBackground) {
        colorVariables := colorVariables + "--text-color: #fff;";
        colorVariables := colorVariables + "--medium-text-color: rgba(255,255,255,0.75);";
        colorVariables := colorVariables + "--light-text-color: rgba(255,255,255,0.5);";
        colorVariables := colorVariables + "--dark-border-color: #fff;";
        colorVariables := colorVariables + "--medium-border-color: rgba(255,255,255,0.25);";
        colorVariables := colorVariables + "--light-border-color: rgba(255,255,255,0.15);";

        colorVariables := colorVariables + "--header-bar-text-color: #fff;";
        colorVariables := colorVariables + "--header-bar-text-hover-color: rgba(255,255,255,0.5);";
        colorVariables := colorVariables + "--header-bar-border-color: rgba(255,255,255,0.1);";

        colorVariables := colorVariables + "--navi-color: #fff;";
        colorVariables := colorVariables + "--navi-hover-color: rgba(255,255,255,0.5);";

        colorVariables := colorVariables + "--link-hover-color: #fff;";

        colorVariables := colorVariables + "--footer-text-color: #fff;";
        colorVariables := colorVariables + "--footer-text-hover-color: rgba(255,255,255,0.5);";
        colorVariables := colorVariables + "--footer-border-color: rgba(255,255,255,0.1);";
        DarkPaletteAppended(values);
      }
      OverrideAppended(start, values, colorVariables, PageBackground, options.pageBackground);
    }
    PartAppended(start, colorVariables, options, defaults, PageBackground);
  }

  /** The block for the link colour: its two value declarations and, when it
      is light, dark button text. */
  method AppendLink(variables: string, options: ColorOptions, defaults: ColorOptions)
    returns (colorVariables: string)
    ensures colorVariables == variables + Concat(Part(options, defaults, Link))
  {
    colorVariables := variables;
    ghost var start := colorVariables;
    if options.link != defaults.link {
      colorVariables := colorVariables + "--link-color: " + options.link + ";";
      colorVariables := colorVariables + "--button-color: " + options.link + ";";
      AppendedTwoValues(start, "--link-color: ", "--button-color: ", options.link, ";");
      ghost var values := colorVariables;

      // A light link colour needs dark button text.
      if IsColorLight(options.link) {
        colorVariables := colorVariables + "--button-text-color: #111;";
        AppendedOne(values, "--button-text-color: #111;");
      }
      OverrideAppended(start, values, colorVariables, Link, options.link);
    }
    PartAppended(start, colorVariables, options, defaults, Link);
  }

  /** The block for the top navigation submenu: its value declaration and,
      when it is light, dark text. */
  method AppendTopNavigation(variables: string, options: ColorOptions, defaults: ColorOptions)
    returns (colorVariables: string)
    ensures colorVariables == variables + Concat(Part(options, defaults, TopNavigation))
  {
    colorVariables := variables;
    ghost var start := colorVariables;
    if options.topNavigation != defaults.topNavigation {
      colorVariables := colorVariables + "--top-navi-submenu-color: " + options.topNavigation + ";";
      AppendedValue(start, "--top-navi-submenu-color: ", options.topNavigation, ";");
      ghost var values := colorVariables;

      // A light submenu needs dark text.
      if IsColorLight(options.topNavigation) {
        colorVariables := colorVariables + "--top-navi-submenu-text-color: #111;";
        colorVariables := colorVariables + "--top-navi-submenu-hover-color: rgba(0, 0, 0, 0.1);";
        colorVariables := colorVariables + "--top-navi-submenu-border-color: rgba(0, 0, 0, 0.1);";
        AppendedThree(values,
          "--top-navi-submenu-text-color: #111;",
          "--top-navi-submenu-hover-color: rgba(0, 0, 0, 0.1);",
          "--top-navi-submenu-border-color: rgba(0, 0, 0, 0.1);");
      }
      OverrideAppended(start, values, colorVariables, TopNavigation, options.topNavigation);
    }
    PartAppended(start, colorVariables, options, defaults, TopNavigation);
  }

  /** The block for the primary navigation submenu: its value declaration and,
      when it is light, dark text. */
  method AppendPrimaryNavigation(variables: string, options: ColorOptions, defaults: ColorOptions)
    returns (colorVariables: string)
    ensures colorVariables == variables + Concat(Part(options, defaults, PrimaryNavigation))
  {
    colorVariables := variables;
    ghost var start := colorVariables;
    if options.primaryNavigation != defaults.primaryNavigation {
      colorVariables := colorVariables + "--navi-submenu-color: " + options.primaryNavigation + ";";
      AppendedValue(start, "--navi-submenu-color: ", options.primaryNavigation, ";");
      ghost var values := colorVariables;

      // A light submenu needs dark text.
      if IsColorLight(options.primaryNavigation) {
        colorVariables := colorVariables + "--navi-submenu-text-color: #111;";
        colorVariables := colorVariables + "--navi-submenu-hover-color: rgba(0, 0, 0, 0.1);";
        colorVariables := colorVariables + "--navi-submenu-border-color: rgba(0, 0, 0, 0.1);";
        AppendedThree(values,
          "--navi-submenu-text-color: #111;",
          "--navi-submenu-hover-color: rgba(0, 0, 0, 0.1);",
          "--navi-submenu-border-color: rgba(0, 0, 0, 0.1);");
      }
      OverrideAppended(start, values, colorVariables, PrimaryNavigation, options.primaryNavigation);
    }
    PartAppended(start, colorVariables, options, defaults, PrimaryNavigation);
  }

  /** The block for the title colour: its two value declarations. */
  method AppendTitle(variables: string, options: ColorOptions, defaults: ColorOptions)
    returns (colorVariables: string)
    ensures colorVariables == variables + Concat(Part(options, defaults, Title))
  {
    colorVariables := variables;
    ghost var start := colorVariables;
    if options.title != defaults.title {
      colorVariables := colorVariables + "--title-color: " + options.title + ";";
      colorVariables := colorVariables + "--site-title-color: " + options.title + ";";
      AppendedTwoValues(start, "--title-color: ", "--site-title-color: ", options.title, ";");
      OverrideAppended(start, colorVariables, colorVariables, Title, options.title);
    }
    PartAppended(start, colorVariables, options, defaults, Title);
  }

  /** The block for the widget title colour: its value declaration. */
  method AppendWidgetTitle(variables: string, options: ColorOptions, defaults: ColorOptions)
    returns (colorVariables: string)
    ensures colorVariables == variables + Concat(Part(options, defaults, WidgetTitle))
  {
    colorVariables := variables;
    ghost var start := colorVariables;
    if options.widgetTitle != defaults.widgetTitle {
      colorVariables := colorVariables + "--widget-title-color: " + options.widgetTitle + ";";
      AppendedValue(start, "--widget-title-color: ", options.widgetTitle, ";");
      OverrideAppended(start, colorVariables, colorVariables, WidgetTitle, options.widgetTitle);
    }
    PartAppended(start, colorVariables, options, defaults, WidgetTitle);
  }

  // ---------------------------------------------------------------- proof of the operation

  /** The contribution of option `k` alone. */
  function Part(o: ColorOptions, d: ColorOptions, k: ColorOption): seq<string> {
    if Changed(o, d, k) then OverrideDecls(k, Setting(o, k)) else []
  }

  /** After option `k`'s block the local string has grown by `k`'s part. */
  lemma {:induction false} PartAppended(before: string, after: string, o: ColorOptions, d: ColorOptions, k: ColorOption)
    requires Changed(o, d, k) ==> after == before + Concat(OverrideDecls(k, Setting(o, k)))
    requires !Changed(o, d, k) ==> after == before
    ensures after == before + Concat(Part(o, d, k))
  {
    if !Changed(o, d, k) {
      assert before + "" == before;
    }
  }

  lemma {:induction false} RootBlockAppended(css: string, variables: string)
    ensures variables == "" ==> css + RootBlock(variables) == css
    ensures variables != "" ==> css + RootBlock(variables) == css + ":root {" + variables + "}"
  {
    if variables == "" {
      assert css + "" == css;
    } else {
      AppendedValue(css, ":root {", variables, "}");
      ConcatOne(":root {" + variables + "}");
    }
  }

  /** The value declarations followed, when wanted, by the contrast ones. */
  lemma {:induction false} OverrideAppended(start: string, values: string, after: string, k: ColorOption, color: string)
    requires values == start + Concat(ValueDecls(k, color))
    requires WantsContrast(k, color) ==> after == values + Concat(ContrastDecls(k))
    requires !WantsContrast(k, color) ==> after == values
    ensures after == start + Concat(OverrideDecls(k, color))
  {
    if WantsContrast(k, color) {
      AppendedRuns(start, ValueDecls(k, color), ContrastDecls(k));
    } else {
      assert ValueDecls(k, color) + [] == ValueDecls(k, color);
    }
  }

  /** The fifteen appends of the white-on-dark palette. */
  lemma {:induction false} DarkPaletteAppended(v: string)
    ensures v
        + "--text-color: #fff;"
        + "--medium-text-color: rgba(255,255,255,0.75);"
        + "--light-text-color: rgba(255,255,255,0.5);"
        + "--dark-border-color: #fff;"
        + "--medium-border-color: rgba(255,255,255,0.25);"
        + "--light-border-color: rgba(255,255,255,0.15);"
        + "--header-bar-text-color: #fff;"
        + "--header-bar-text-hover-color: rgba(255,255,255,0.5);"
        + "--header-bar-border-color: rgba(255,255,255,0.1);"
        + "--navi-color: #fff;"
        + "--navi-hover-color: rgba(255,255,255,0.5);"
        + "--link-hover-color: #fff;"
        + "--footer-text-color: #fff;"
        + "--footer-text-hover-color: rgba(255,255,255,0.5);"
        + "--footer-border-color: rgba(255,255,255,0.1);"
      == v + Concat(DarkBackgroundPalette)
  {
    var t, h, n, l, f := DarkTextAndBorders, DarkHeaderBar, DarkNavigation, DarkLinkHover, DarkFooter;
    AppendedSix(v, t[0], t[1], t[2], t[3], t[4], t[5]);
    assert [t[0], t[1], t[2], t[3], t[4], t[5]] == t;
    var x1 := v + t[0] + t[1] + t[2] + t[3] + t[4] + t[5];
    AppendedThree(x1, h[0], h[1], h[2]);
    assert [h[0], h[1], h[2]] == h;
    AppendedRuns(v, t, h);
    var x2 := x1 + h[0] + h[1] + h[2];
    AppendedTwo(x2, n[0], n[1]);
    assert [n[0], n[1]] == n;
    AppendedRuns(v, t + h, n);
    var x3 := x2 + n[0] + n[1];
    AppendedOne(x3, l[0]);
    assert [l[0]] == l;
    AppendedRuns(v, t + h + n, l);
    var x4 := x3 + l[0];
    AppendedThree(x4, f[0], f[1], f[2]);
    assert [f[0], f[1], f[2]] == f;
    AppendedRuns(v, t + h + n + l, f);
  }

  // Appending declarations one by one is appending their concatenation.

  lemma {:induction false} AppendedRuns(v: string, x: seq<string>, y: seq<string>)
    ensures v + Concat(x) + Concat(y) == v + Concat(x + y)
  {
    ConcatAppend(x, y);
  }

  lemma {:induction false} AppendedOne(v: string, a: string)
    ensures v + a == v + Concat([a])
  {
    ConcatOne(a);
  }

  lemma {:induction false} AppendedTwo(v: string, a: string, b: string)
    ensures v + a + b == v + Concat([a, b])
  {
    ConcatTwo(a, b);
  }

  lemma {:induction false} AppendedThree(v: string, a: string, b: string, c: string)
    ensures v + a + b + c == v + Concat([a, b, c])
  {
    ConcatThree(a, b, c);
  }

  lemma {:induction false} AppendedSix(v: string, a: string, b: string, c: string, d: string, e: string, f: string)
    ensures v + a + b + c + d + e + f == v + Concat([a, b, c, d, e, f])
  {
    AppendedThree(v, a, b, c);
    AppendedThree(v + a + b + c, d, e, f);
    AppendedRuns(v, [a, b, c], [d, e, f]);
    assert [a, b, c] + [d, e, f] == [a, b, c, d, e, f];
  }

  lemma {:induction false} AppendedValue(v: string, prefix: string, color: string, suffix: string)
    ensures v + prefix + color + suffix == v + Concat([prefix + color + suffix])
  {
    ConcatOne(prefix + color + suffix);
  }

  lemma {:induction false} AppendedTwoValues(v: string, prefix1: string, prefix2: string, color: string, suffix: string)
    ensures v + prefix1 + color + suffix + prefix2 + color + suffix
         == v + Concat([prefix1 + color + suffix, prefix2 + color + suffix])
  {
    ConcatTwo(prefix1 + color + suffix, prefix2 + color + suffix);
  }

  lemma {:induction false} ConcatOne(a: string)
    ensures Concat([a]) == a
  {
    assert [a][1..] == [];
    assert a + "" == a;
  }

  lemma {:induction false} ConcatTwo(a: string, b: string)
    ensures Concat([a, b]) == a + b
  {
    assert [a, b][1..] == [b];
    ConcatOne(b);
  }

  lemma {:induction false} ConcatThree(a: string, b: string, c: string)
    ensures Concat([a, b, c]) == a + b + c
  {
    assert [a, b, c][1..] == [b, c];
    ConcatTwo(b, c);
  }

  // The split into six parts is proved here on rendered strings, although
  // DeclarationsInOrder proves it on sequences: deriving this left-nested
  // string form from that one needs string re-association, which is far
  // costlier for the solver than repeating the six steps.

  /** Splitting off the first option of `ks`. */
  lemma {:induction false} ChangedOptionsStep(v: string, ks: seq<ColorOption>, o: ColorOptions, d: ColorOptions)
    requires ks != []
    ensures v + Concat(OverridesOf(ChangedOptions(ks, o, d), o))
         == v + Concat(Part(o, d, ks[0])) + Concat(OverridesOf(ChangedOptions(ks[1..], o, d), o))
  {
    var rest := ChangedOptions(ks[1..], o, d);
    if Changed(o, d, ks[0]) {
      assert ChangedOptions(ks, o, d) == [ks[0]] + rest;
      assert ([ks[0]] + rest)[1..] == rest;
      AppendedRuns(v, Part(o, d, ks[0]), OverridesOf(rest, o));
    } else {
      assert ChangedOptions(ks, o, d) == [] + rest;
      assert [] + rest == rest;
      assert v + "" == v;
    }
  }

  /** The declarations, rendered, are the six parts in option order. */
  lemma {:induction false} RenderedParts(o: ColorOptions, d: ColorOptions)
    ensures Concat(Declarations(o, d))
      == "" + Concat(Part(o, d, PageBackground)) + Concat(Part(o, d, Link))
       + Concat(Part(o, d, TopNavigation)) + Concat(Part(o, d, PrimaryNavigation))
       + Concat(Part(o, d, Title)) + Concat(Part(o, d, WidgetTitle))
  {
    RenderedSix("", OptionOrder, o, d);
    assert "" + Concat(Declarations(o, d)) == Concat(Declarations(o, d));
  }

  /** For any six options, the rendered contributions are their six parts. */
  lemma {:induction false} RenderedSix(v: string, ks: seq<ColorOption>, o: ColorOptions, d: ColorOptions)
    requires |ks| == 6
    ensures v + Concat(OverridesOf(ChangedOptions(ks, o, d), o))
      == v + Concat(Part(o, d, ks[0])) + Concat(Part(o, d, ks[1])) + Concat(Part(o, d, ks[2]))
       + Concat(Part(o, d, ks[3])) + Concat(Part(o, d, ks[4])) + Concat(Part(o, d, ks[5]))
  {
    ChangedOptionsStep(v, ks, o, d);
    var v1 := v + Concat(Part(o, d, ks[0]));
    RenderedFive(v1, ks[1..], o, d);
  }

  lemma {:induction false} RenderedFive(v: string, ks: seq<ColorOption>, o: ColorOptions, d: ColorOptions)
    requires |ks| == 5
    ensures v + Concat(OverridesOf(ChangedOptions(ks, o, d), o))
      == v + Concat(Part(o, d, ks[0])) + Concat(Part(o, d, ks[1])) + Concat(Part(o, d, ks[2]))
       + Concat(Part(o, d, ks[3])) + Concat(Part(o, d, ks[4]))
  {
    ChangedOptionsStep(v, ks, o, d);
    var v1 := v + Concat(Part(o, d, ks[0]));
    ChangedOptionsStep(v1, ks[1..], o, d);
    var v2 := v1 + Concat(Part(o, d, ks[1]));
    assert ks[1..][1..] == ks[2..];
    ChangedOptionsStep(v2, ks[2..], o, d);
    var v3 := v2 + Concat(Part(o, d, ks[2]));
    assert ks[2..][1..] == ks[3..];
    ChangedOptionsStep(v3, ks[3..], o, d);
    var v4 := v3 + Concat(Part(o, d, ks[3]));
    assert ks[3..][1..] == ks[4..];
    ChangedOptionsStep(v4, ks[4..], o, d);
    var v5 := v4 + Concat(Part(o, d, ks[4]));
    assert ks[4..][1..] == [];
    assert v5 + "" == v5;
  }

  // ---------------------------------------------------------------- properties

  /** An option is among the changed ones exactly when it is in `ks` and its
      value differs from the default. */
  lemma {:induction false} ChangedOptionsMembership(ks: seq<ColorOption>, o: ColorOptions, d: ColorOptions, k: ColorOption)
    ensures k in ChangedOptions(ks, o, d) <==> k in ks && Changed(o, d, k)
  {
    if ks != [] {
      ChangedOptionsMembership(ks[1..], o, d, k);
      assert k in ks <==> k == ks[0] || k in ks[1..] by {
        assert ks == [ks[0]] + ks[1..];
      }
    }
  }

  /** No option is emitted exactly when all six equal their defaults. */
  lemma NoneChanged(o: ColorOptions, d: ColorOptions)
    ensures ChangedOptions(OptionOrder, o, d) == [] <==> forall k :: !Changed(o, d, k)
  {
    forall k
      ensures k in ChangedOptions(OptionOrder, o, d) <==> Changed(o, d, k)
    {
      ChangedOptionsMembership(OptionOrder, o, d, k);
      assert OptionOrder[Rank(k)] == k;
    }
    if ChangedOptions(OptionOrder, o, d) != [] {
      assert ChangedOptions(OptionOrder, o, d)[0] in ChangedOptions(OptionOrder, o, d);
    }
  }

  /** The options of `ks` are listed in strictly increasing option order. */
  predicate InOrder(ks: seq<ColorOption>) {
    forall i, j :: 0 <= i < j < |ks| ==> Rank(ks[i]) < Rank(ks[j])
  }

  /** Changed options keep the order they have in `ks`. */
  lemma {:induction false} ChangedOptionsOrdered(ks: seq<ColorOption>, o: ColorOptions, d: ColorOptions)
    requires InOrder(ks)
    ensures InOrder(ChangedOptions(ks, o, d))
  {
    if ks != [] {
      InOrderTail(ks);
      var rest := ChangedOptions(ks[1..], o, d);
      ChangedOptionsOrdered(ks[1..], o, d);
      if Changed(o, d, ks[0]) {
        HeadBeforeChanged(ks, o, d);
        InOrderCons(ks[0], rest);
        assert ChangedOptions(ks, o, d) == [ks[0]] + rest;
      } else {
        assert ChangedOptions(ks, o, d) == [] + rest == rest;
      }
    }
  }

  lemma InOrderTail(ks: seq<ColorOption>)
    requires ks != [] && InOrder(ks)
    ensures InOrder(ks[1..])
  {
    var tail := ks[1..];
    forall i, j | 0 <= i < j < |tail|
      ensures Rank(tail[i]) < Rank(tail[j])
    {
      assert tail[i] == ks[i + 1] && tail[j] == ks[j + 1];
    }
  }

  /** The first option of an ordered list comes before every changed option
      of the rest. */
  lemma HeadBeforeChanged(ks: seq<ColorOption>, o: ColorOptions, d: ColorOptions)
    requires ks != [] && InOrder(ks)
    ensures forall k <- ChangedOptions(ks[1..], o, d) :: Rank(ks[0]) < Rank(k)
  {
    var tail := ks[1..];
    forall k | k in ChangedOptions(tail, o, d)
      ensures Rank(ks[0]) < Rank(k)
    {
      ChangedOptionsMembership(tail, o, d, k);
      var j :| 0 <= j < |tail| && tail[j] == k;
      assert ks[j + 1] == k;
    }
  }

  lemma InOrderCons(k: ColorOption, rest: seq<ColorOption>)
    requires InOrder(rest) && forall k' <- rest :: Rank(k) < Rank(k')
    ensures InOrder([k] + rest)
  {
    var c := [k] + rest;
    forall i, j | 0 <= i < j < |c|
      ensures Rank(c[i]) < Rank(c[j])
    {
      assert c[j] == rest[j - 1] && c[j] in rest;
      if i > 0 {
        assert c[i] == rest[i - 1];
      }
    }
  }

  /** Hence the emitted options are in the fixed option order. */
  lemma ChangedInOptionOrder(o: ColorOptions, d: ColorOptions)
    ensures InOrder(ChangedOptions(OptionOrder, o, d))
  {
    assert forall i :: 0 <= i < |OptionOrder| ==> Rank(OptionOrder[i]) == i;
    ChangedOptionsOrdered(OptionOrder, o, d);
  }

  /** The contributions of the options in `ks`, after splitting off the first. */
  lemma {:induction false} OverridesStep(ks: seq<ColorOption>, o: ColorOptions, d: ColorOptions)
    requires ks != []
    ensures OverridesOf(ChangedOptions(ks, o, d), o)
         == Part(o, d, ks[0]) + OverridesOf(ChangedOptions(ks[1..], o, d), o)
  {
    var rest := ChangedOptions(ks[1..], o, d);
    if Changed(o, d, ks[0]) {
      assert ChangedOptions(ks, o, d) == [ks[0]] + rest;
      assert ([ks[0]] + rest)[1..] == rest;
    } else {
      assert ChangedOptions(ks, o, d) == [] + rest;
      assert [] + rest == rest;
    }
  }

  /** The declarations are the six options' parts in the fixed order page
      background, link, top navigation, primary navigation, title, widget title. */
  lemma {:induction false} DeclarationsInOrder(o: ColorOptions, d: ColorOptions)
    ensures Declarations(o, d)
      == Part(o, d, PageBackground) + (Part(o, d, Link) + (Part(o, d, TopNavigation)
       + (Part(o, d, PrimaryNavigation) + (Part(o, d, Title) + Part(o, d, WidgetTitle)))))
  {
    OverridesSix(OptionOrder, o, d);
  }

  /** For any six options, the contributions are their six parts. */
  lemma {:induction false} OverridesSix(ks: seq<ColorOption>, o: ColorOptions, d: ColorOptions)
    requires |ks| == 6
    ensures OverridesOf(ChangedOptions(ks, o, d), o)
      == Part(o, d, ks[0]) + (Part(o, d, ks[1]) + (Part(o, d, ks[2])
       + (Part(o, d, ks[3]) + (Part(o, d, ks[4]) + Part(o, d, ks[5])))))
  {
    OverridesStep(ks, o, d);
    assert ks[1..][0] == ks[1];
    OverridesStep(ks[1..], o, d);
    assert ks[1..][1..] == ks[2..];
    OverridesStep(ks[2..], o, d);
    assert ks[2..][1..] == ks[3..];
    OverridesStep(ks[3..], o, d);
    assert ks[3..][1..] == ks[4..];
    OverridesStep(ks[4..], o, d);
    assert ks[4..][1..] == ks[5..];
    OverridesStep(ks[5..], o, d);
    assert ks[5..][1..] == [];
    assert Part(o, d, ks[5]) + [] == Part(o, d, ks[5]);
  }

  /** An option's part is empty exactly when the option equals its default. */
  lemma PartEmptyIffUnchanged(o: ColorOptions, d: ColorOptions, k: ColorOption)
    ensures Part(o, d, k) == [] <==> !Changed(o, d, k)
  {
  }

  /** Every changed option contributes at least one declaration, the first of
      which is not empty. */
  lemma FirstDeclaration(ks: seq<ColorOption>, o: ColorOptions)
    requires ks != []
    ensures OverridesOf(ks, o) != [] && OverridesOf(ks, o)[0] != ""
  {
    var values := ValueDecls(ks[0], Setting(o, ks[0]));
    assert OverridesOf(ks, o)[0] == OverrideDecls(ks[0], Setting(o, ks[0]))[0] == values[0];
  }

  /** The stylesheet comes back unchanged exactly when all six options equal
      their defaults. */
  lemma {:induction false} UnchangedIffDefaults(css: string, o: ColorOptions, d: ColorOptions)
    ensures ColorStylesheet(css, o, d) == css <==> forall k :: !Changed(o, d, k)
  {
    NoneChanged(o, d);
    var decls := Declarations(o, d);
    if ChangedOptions(OptionOrder, o, d) == [] {
      assert decls == [];
      assert css + "" == css;
    } else {
      FirstDeclaration(ChangedOptions(OptionOrder, o, d), o);
      assert |Concat(decls)| >= |decls[0]| > 0;
      assert |ColorStylesheet(css, o, d)| > |css|;
    }
  }

  /** The incoming stylesheet is a prefix of the result; when some option
      changed, what follows it is one `:root` rule holding all the
      declarations, and that rule is not empty. */
  lemma {:induction false} StylesheetExtendsInput(css: string, o: ColorOptions, d: ColorOptions)
    ensures css <= ColorStylesheet(css, o, d)
    ensures (exists k :: Changed(o, d, k)) ==>
      Concat(Declarations(o, d)) != ""
      && ColorStylesheet(css, o, d) == css + ":root {" + Concat(Declarations(o, d)) + "}"
  {
    var v := Concat(Declarations(o, d));
    RootBlockAppended(css, v);
    if exists k :: Changed(o, d, k) {
      UnchangedIffDefaults(css, o, d);
    }
  }

  /** How many declarations each option contributes: none when unchanged;
      otherwise its value declarations (two for page background, link and
      title, one for the others) and, only for a dark page background or a
      light link or navigation colour, the contrast ones (fifteen, one, three,
      three); title and widget title never get any. */
  lemma PartSizes(o: ColorOptions, d: ColorOptions)
    ensures |Part(o, d, PageBackground)|
      == if !Changed(o, d, PageBackground) then 0 else if IsColorDark(o.pageBackground) then 17 else 2
    ensures |Part(o, d, Link)|
      == if !Changed(o, d, Link) then 0 else if IsColorLight(o.link) then 3 else 2
    ensures |Part(o, d, TopNavigation)|
      == if !Changed(o, d, TopNavigation) then 0 else if IsColorLight(o.topNavigation) then 4 else 1
    ensures |Part(o, d, PrimaryNavigation)|
      == if !Changed(o, d, PrimaryNavigation) then 0 else if IsColorLight(o.primaryNavigation) then 4 else 1
    ensures |Part(o, d, Title)| == if !Changed(o, d, Title) then 0 else 2
    ensures |Part(o, d, WidgetTitle)| == if !Changed(o, d, WidgetTitle) then 0 else 1
  {
  }

  predicate EndsWith(s: string, suffix: string) {
    |suffix| <= |s| && s[|s| - |suffix|..] == suffix
  }

  lemma DeclEndsWithValue(property: string, color: string)
    ensures EndsWith(property + color + ";", color + ";")
  {
    assert property + color + ";" == property + (color + ";");
  }

  /** Each value declaration carries the colour verbatim, as its value: two of
      them for page background, link and title, one for the others. */
  lemma ValueDeclsCarryColor(k: ColorOption, color: string)
    ensures |ValueDecls(k, color)| == if k in {PageBackground, Link, Title} then 2 else 1
    ensures forall decl <- ValueDecls(k, color) :: EndsWith(decl, color + ";")
  {
    match k
    case PageBackground =>
      DeclEndsWithValue("--page-background-color: ", color);
      DeclEndsWithValue("--header-bar-background-color: ", color);
    case Link =>
      DeclEndsWithValue("--link-color: ", color);
      DeclEndsWithValue("--button-color: ", color);
    case TopNavigation =>
      DeclEndsWithValue("--top-navi-submenu-color: ", color);
    case PrimaryNavigation =>
      DeclEndsWithValue("--navi-submenu-color: ", color);
    case Title =>
      DeclEndsWithValue("--title-color: ", color);
      DeclEndsWithValue("--site-title-color: ", color);
    case WidgetTitle =>
      DeclEndsWithValue("--widget-title-color: ", color);
  }

  /** Whatever an option's part holds is among the declarations emitted. */
  lemma PartEmitted(o: ColorOptions, d: ColorOptions, k: ColorOption, decl: string)
    requires decl in Part(o, d, k)
    ensures decl in Declarations(o, d)
  {
    DeclarationsInOrder(o, d);
  }

  /** The value declarations of every changed option are emitted. */
  lemma ChangedValuesEmitted(o: ColorOptions, d: ColorOptions, k: ColorOption)
    requires Changed(o, d, k)
    ensures forall decl <- ValueDecls(k, Setting(o, k)) :: decl in Declarations(o, d)
  {
    forall decl <- ValueDecls(k, Setting(o, k))
      ensures decl in Declarations(o, d)
    {
      PartEmitted(o, d, k, decl);
    }
  }

  /** The contrast declarations of a changed option that wants them are emitted. */
  lemma ContrastEmitted(o: ColorOptions, d: ColorOptions, k: ColorOption)
    requires Changed(o, d, k) && WantsContrast(k, Setting(o, k))
    ensures forall decl <- ContrastDecls(k) :: decl in Declarations(o, d)
  {
    forall decl <- ContrastDecls(k)
      ensures decl in Declarations(o, d)
    {
      PartEmitted(o, d, k, decl);
    }
  }

  /** A dark page background such as black brings its value declarations
      and the whole white-on-dark palette. */
  lemma BlackBackground(o: ColorOptions, d: ColorOptions)
    requires o.pageBackground == "#000000" != d.pageBackground
    ensures Part(o, d, PageBackground) == ValueDecls(PageBackground, "#000000") + DarkBackgroundPalette
  {
    BlackIsDark();
  }

  /** A value differing from its default only in letter case is a change,
      although both spell the same colour; as a light link colour it brings the
      dark button text. */
  lemma CaseOnlyDifferenceIsChange(o: ColorOptions, d: ColorOptions)
    requires o.link == "#FFFFFF" && d.link == "#ffffff"
    ensures Changed(o, d, Link) && Brightness(o.link) == Brightness(d.link)
    ensures |Part(o, d, Link)| == 3
  {
    assert o.link[1] != d.link[1];
    WhiteInEitherCase();
  }

  /** Any three-digit shorthand reads as a dark colour, so as a page
      background it brings the white-on-dark palette, and as a link or
      navigation colour it never brings dark text. */
  lemma ShorthandBackground(o: ColorOptions, d: ColorOptions, x: char, y: char, z: char)
    requires IsHexDigit(x) && IsHexDigit(y) && IsHexDigit(z)
    requires o.pageBackground == ['#', x, y, z] != d.pageBackground
    ensures |Part(o, d, PageBackground)| == 17
  {
    ShorthandIsDark(x, y, z);
  }

  /** A shorthand link or navigation colour never gets contrast declarations. */
  lemma ShorthandNoDarkText(k: ColorOption, x: char, y: char, z: char)
    requires IsHexDigit(x) && IsHexDigit(y) && IsHexDigit(z)
    requires k != PageBackground
    ensures !WantsContrast(k, ['#', x, y, z])
  {
    ShorthandIsDark(x, y, z);
  }
}
