# Maxwell Pro: custom colours and header search

A Dafny model of two modules of the Maxwell Pro WordPress theme add-on.

**Custom colours** (`ColorBrightness`, `CustomColors`). Six colour options are modelled:

- page background
- link
- top navigation
- primary navigation
- title
- widget title

Each option whose stored value differs from its default (strict string comparison) adds CSS custom-property declarations that carry the colour. Some options also add a contrast palette:

- a dark page background adds a white-on-dark palette;
- a light link, top-navigation or primary-navigation colour adds dark text.

The declarations are collected in a local string. If that string is not empty, it is appended to the incoming stylesheet as one `:root {...}` rule. Light and dark are decided by a brightness value of 0 to 255, computed from the red, green and blue parts of the hex colour. The threshold is 149: a brightness of exactly 149 counts as dark.

`CustomColorsCss` is proved equal to `ColorStylesheet`. That function states the result declaratively: the input stylesheet, followed by the contributions of the changed options in option order. The lemmas then state what the theme promises about that result:

- the output is unchanged exactly when nothing changed;
- the input is a prefix of the output;
- the contributions come in a fixed order;
- each changed value is carried verbatim;
- the contrast rules hold.

**Header search** (`HeaderSearch`). Two sites show the search: the script enqueue and the rendering of the search form. Both show it when the `header_search` option is strictly `true`, or when the customizer preview is active. The `maxwell_hide_elements` filter appends the header-search selector to the list of hidden elements when the option is strictly `false`. The option value is modelled as a boolean or "anything else", so that the strict comparisons keep their meaning. The preview flag is a parameter.

## Model

| member | source | states |
|---|---|---|
| ColorBrightness.StripHashes | includes/modules/class-custom-colors.php:261 | the result has no '#', and holds the same characters as the input other than '#', as a set (order and count: StripHashesAppend); a value without '#' is unchanged |
| ColorBrightness.StripHashesAppend | includes/modules/class-custom-colors.php:261 | removing the hashes from a concatenation is removing them from each piece, so the other characters keep their order and number |
| ColorBrightness.StripHashesIdempotent | includes/modules/class-custom-colors.php:261 | removing the hashes twice is the same as once |
| ColorBrightness.HashesIgnored | includes/modules/class-custom-colors.php:258-269 | brightness and lightness do not depend on '#' characters anywhere in the value |
| ColorBrightness.Substr | includes/modules/class-custom-colors.php:264-266 | the slice has at most the requested length, is empty from an offset at or past the end, and copies the characters from that offset |
| ColorBrightness.HexDec | includes/modules/class-custom-colors.php:264-266 | the hex reading of n characters is below 16^n, and is 0 when there is no hex digit |
| ColorBrightness.HexDecPair | includes/modules/class-custom-colors.php:264-266 | two hex digits read as 16 times the first plus the second |
| ColorBrightness.Component | includes/modules/class-custom-colors.php:264-266 | each colour component lies in 0..255 |
| ColorBrightness.WeightedSum | includes/modules/class-custom-colors.php:268 | the weighted sum 299r + 587g + 114b is at most 255000 |
| ColorBrightness.Brightness | includes/modules/class-custom-colors.php:258-269 | the brightness lies in [0, 255] |
| ColorBrightness.IsColorLight | includes/modules/class-custom-colors.php:276-278 | a colour is light exactly when its weighted sum exceeds 149000, i.e. its brightness exceeds 149 |
| ColorBrightness.IsColorDark | includes/modules/class-custom-colors.php:285-287 | a colour is dark exactly when its weighted sum is at most 149000, i.e. its brightness is at most 149 |
| ColorBrightness.LightDarkPartition | includes/modules/class-custom-colors.php:276-287 | every colour is exactly one of light and dark: the two tests are complements |
| ColorBrightness.SixDigitComponents | includes/modules/class-custom-colors.php:258-269 | for six hex digits the components are the three byte pairs, and the brightness is their weighted sum over 1000 |
| ColorBrightness.HashSixDigits | includes/modules/class-custom-colors.php:261-266 | for '#' and six hex digits the components are bytes 1-2, 3-4 and 5-6 |
| ColorBrightness.GreyBrightness | includes/modules/class-custom-colors.php:268 | a colour with three equal components v has brightness v |
| ColorBrightness.HashGrey | includes/modules/class-custom-colors.php:258-269 | '#' followed by one byte pair three times has that byte as its brightness |
| ColorBrightness.DarkAtThreshold | includes/modules/class-custom-colors.php:285-287 | #959595 has brightness exactly 149 and is dark |
| ColorBrightness.LightAboveThreshold | includes/modules/class-custom-colors.php:276-278 | #969696 has brightness 150 and is light |
| ColorBrightness.WhiteInEitherCase | includes/modules/class-custom-colors.php:258-269 | #FFFFFF and #ffffff both have brightness 255, and white is light |
| ColorBrightness.BlackIsDark | includes/modules/class-custom-colors.php:285-287 | #000000 has brightness 0 and is dark |
| ColorBrightness.ThreeDigitShorthand | includes/modules/class-custom-colors.php:261-266 | a three-digit shorthand "#xyz" is not expanded: red is the byte xy, green the digit z, blue 0 |
| ColorBrightness.ShorthandIsDark | includes/modules/class-custom-colors.php:258-287 | every three-digit shorthand has a weighted sum of at most 85050, so it is dark and never light |
| ColorBrightness.ShorthandWhiteIsDark | includes/modules/class-custom-colors.php:261-268 | the shorthand "#fff" reads as red 255, green 15, blue 0, a weighted sum of 85050: dark |
| CustomColors.CustomColorsCss | includes/modules/class-custom-colors.php:45-137 | the returned stylesheet is the input followed by the root block of all changed options' declarations in option order |
| CustomColors.AppendPageBackground | includes/modules/class-custom-colors.php:56-83 | the local string grows by the page background's part: its two value declarations and, when the colour is dark, the fifteen palette declarations; nothing when unchanged |
| CustomColors.AppendLink | includes/modules/class-custom-colors.php:85-94 | the local string grows by the link's part: two value declarations, plus the button text when light |
| CustomColors.AppendTopNavigation | includes/modules/class-custom-colors.php:96-106 | the local string grows by the top navigation's part: one value declaration, plus three dark-text declarations when light |
| CustomColors.AppendPrimaryNavigation | includes/modules/class-custom-colors.php:108-118 | the local string grows by the primary navigation's part: one value declaration, plus three dark-text declarations when light |
| CustomColors.AppendTitle | includes/modules/class-custom-colors.php:120-124 | the local string grows by the title's two value declarations when changed |
| CustomColors.AppendWidgetTitle | includes/modules/class-custom-colors.php:126-129 | the local string grows by the widget title's value declaration when changed |
| CustomColors.DarkPaletteAppended | includes/modules/class-custom-colors.php:62-82 | the fifteen appends of the dark-background branch add exactly the white-on-dark palette, in order |
| CustomColors.RootBlockAppended | includes/modules/class-custom-colors.php:131-136 | an empty declaration string leaves the stylesheet as it was; otherwise one `:root {...}` rule around it is appended |
| CustomColors.ChangedOptionsMembership | includes/modules/class-custom-colors.php:56-129 | an option contributes exactly when its value differs from its default |
| CustomColors.NoneChanged | includes/modules/class-custom-colors.php:56-129 | no option contributes exactly when all six equal their defaults |
| CustomColors.ChangedOptionsOrdered | includes/modules/class-custom-colors.php:56-129 | the contributing options keep the order in which they are tested |
| CustomColors.ChangedInOptionOrder | includes/modules/class-custom-colors.php:56-129 | contributions come in the order page background, link, top navigation, primary navigation, title, widget title |
| CustomColors.DeclarationsInOrder | includes/modules/class-custom-colors.php:56-129 | all declarations are the six options' parts concatenated in that fixed order |
| CustomColors.PartEmptyIffUnchanged | includes/modules/class-custom-colors.php:56-129 | an option's part is empty exactly when it equals its default |
| CustomColors.PartSizes | includes/modules/class-custom-colors.php:56-129 | each option contributes 0 declarations when unchanged. Otherwise: page background 2, or 17 when dark; link 2, or 3 when light; each navigation 1, or 4 when light; title 2; widget title 1. So title and widget title never get contrast declarations |
| CustomColors.ValueDeclsCarryColor | includes/modules/class-custom-colors.php:56-129 | the value declarations number 2/2/1/1/2/1 and each ends with the colour verbatim followed by ';' |
| CustomColors.PartEmitted | includes/modules/class-custom-colors.php:56-129 | every declaration of an option's part is in the emitted declarations |
| CustomColors.ChangedValuesEmitted | includes/modules/class-custom-colors.php:56-129 | every value declaration of a changed option is emitted |
| CustomColors.ContrastEmitted | includes/modules/class-custom-colors.php:56-118 | a changed option that wants contrast has all its contrast declarations emitted |
| CustomColors.UnchangedIffDefaults | includes/modules/class-custom-colors.php:131-136 | the stylesheet comes back unchanged exactly when all six options equal their defaults |
| CustomColors.StylesheetExtendsInput | includes/modules/class-custom-colors.php:131-136 | the input is a prefix of the output; when anything changed, exactly one non-empty `:root {...}` rule with all the declarations follows it |
| CustomColors.BlackBackground | includes/modules/class-custom-colors.php:56-83 | a changed black page background contributes its value declarations followed by the white-on-dark palette |
| CustomColors.CaseOnlyDifferenceIsChange | includes/modules/class-custom-colors.php:86-93 | "#FFFFFF" against a default of "#ffffff" is a change although the brightness is equal, and as a light link colour it contributes three declarations |
| CustomColors.ShorthandBackground | includes/modules/class-custom-colors.php:56-83 | a changed page background that is any three-digit shorthand is read as dark and brings the seventeen declarations |
| CustomColors.ShorthandNoDarkText | includes/modules/class-custom-colors.php:85-118 | a three-digit shorthand link or navigation colour never brings the dark-text declarations |
| HeaderSearch.EnqueuesScript | includes/modules/class-header-search.php:48-59 | the script is enqueued iff the option is strictly true or the preview is active |
| HeaderSearch.RendersSearchForm | includes/modules/class-header-search.php:66-92 | in the preview the search form is always rendered; outside it, exactly when the option is the boolean true |
| HeaderSearch.Hidden | includes/modules/class-header-search.php:140 | the search is hidden exactly when the option is the boolean false; true and non-boolean values do not hide it |
| HeaderSearch.HideHeaderSearch | includes/modules/class-header-search.php:134-145 | the selector is appended exactly when the option is strictly false, and the list is otherwise unchanged; the input is a prefix and the length grows by at most one |
| HeaderSearch.SitesAgree | includes/modules/class-header-search.php:54-72 | the enqueue and the rendering use the same condition |
| HeaderSearch.PreviewShowsHiddenSearch | includes/modules/class-header-search.php:54-142 | in the preview the search is always shown, even when a false option also hides it |
| HeaderSearch.BooleanShowsOrHides | includes/modules/class-header-search.php:72-142 | outside the preview a boolean option either shows or hides the search, never both, and shows it iff it is true |
| HeaderSearch.NonBoolNeitherShowsNorHides | includes/modules/class-header-search.php:54-142 | outside the preview a non-boolean option neither shows nor hides the search |

## Left out

- Customizer registration is not modelled. This covers `color_settings` (includes/modules/class-custom-colors.php:139-251) and `header_search_settings` (includes/modules/class-header-search.php:99-126). They only declare settings and controls.
- Hook wiring is not modelled. This covers the `setup` functions, `add_action` / `add_filter` and `current_theme_supports`.
- The option store is not modelled. `get_theme_options` and `get_default_options` become the `options`, `defaults` and `headerSearch` parameters.
- The customizer preview is not modelled. `is_customize_preview` becomes the `preview` parameter.
- Output is not modelled. The effect of `wp_enqueue_script` and the printed search-form markup become the booleans `EnqueuesScript` and `RendersSearchForm`.
- includes/modules/class-header-bar.php is not part of this model.
- `CustomColorsCss`: the six option blocks of `custom_colors_css` are six methods (`AppendPageBackground` … `AppendWidgetTitle`). The main method calls them in source order, and each performs the same appends in the same order as its block.
- Brightness: PHP's `/` on two integers gives an integer when the quotient is exact (149 for #959595) and a float otherwise; the model uses the exact quotient, a real, for both. The comparison with 149 is the same either way: a correctly rounded quotient of an integer by 1000 lies above 149 exactly when the integer lies above 149000.
- Colour values are modelled as strings of characters. The strict comparison of non-string option values is not modelled.
- Colours other than '#' plus six hex digits are modelled as the code reads them, for ASCII values. Every '#' is removed; slices past the end are empty; non-hex characters are skipped by the hex reading. Three-digit shorthands, which the colour setting's sanitizer accepts, are not expanded. `ThreeDigitShorthand`, `ShorthandIsDark`, `ShorthandBackground` and `ShorthandNoDarkText` show the consequence: every shorthand is classed dark.
- Substr: PHP's `substr` slices bytes and the model slices characters; the two agree on ASCII values, which are all the colour sanitizer admits. A value with a multi-byte character (such as "éff0000") can be classed differently.
