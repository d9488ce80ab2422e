/** The header search of the primary navigation: whether its script is
    enqueued and its form rendered, and whether its selector is added to the
    list of elements the theme hides. Both read the stored `header_search`
    option with strict comparisons, so only the booleans true and false take
    effect; the customizer preview is a parameter. */
module HeaderSearch {

  /** A stored option value as far as a strict comparison with a boolean can
      tell: a boolean, or anything else (a string, a number, null). */
  datatype OptionValue = BoolValue(b: bool) | NonBool

  /** The selector appended to the hidden elements. */
  const HideSelector: string := ".primary-navigation-wrap .header-search"

  /** `true === header_search || is_customize_preview()` in `enqueue_script`:
      the header search script is enqueued. The source writes this condition
      out again in `add_header_search`; RendersSearchForm mirrors that second
      call site, and SitesAgree states that the two coincide. */
  function EnqueuesScript(headerSearch: OptionValue, preview: bool): (enqueued: bool)
    ensures enqueued <==> headerSearch == BoolValue(true) || preview
  {
    match headerSearch
    case BoolValue(b) => b || preview
    case NonBool => preview
  }

  /** The same condition in `add_header_search`: the search icon and form are
      rendered. */
  function RendersSearchForm(headerSearch: OptionValue, preview: bool): (rendered: bool)
    ensures preview ==> rendered
    ensures !preview ==> (rendered <==> headerSearch.BoolValue? && headerSearch.b)
  {
    match headerSearch
    case BoolValue(b) => b || preview
    case NonBool => preview
  }

  /** `false === header_search` in `hide_header_search`: only the boolean
      false hides the search. */
  predicate Hidden(headerSearch: OptionValue)
    ensures Hidden(headerSearch) <==> headerSearch == BoolValue(false)
  {
    match headerSearch
    case BoolValue(b) => !b
    case NonBool => false
  }

  /** `hide_header_search`: appends the header search selector to the elements
      to hide when the option is strictly false, and returns the list. */
  method HideHeaderSearch(elements: seq<string>, headerSearch: OptionValue)
    returns (hidden: seq<string>)
    ensures Hidden(headerSearch) ==> hidden == elements + [HideSelector]
    ensures !Hidden(headerSearch) ==> hidden == elements
    ensures hidden[..|elements|] == elements && |hidden| <= |elements| + 1
  {
    hidden := elements;
    if headerSearch == BoolValue(false) {
      hidden := hidden + [HideSelector];
    }
  }

  // ---------------------------------------------------------------- properties

  /** The script and the form are governed by one condition: one is present
      exactly when the other is. */
  lemma SitesAgree(headerSearch: OptionValue, preview: bool)
    ensures EnqueuesScript(headerSearch, preview) == RendersSearchForm(headerSearch, preview)
  {
  }

  /** In the customizer preview the search is always rendered, even while a
      false option also hides it. */
  lemma PreviewShowsHiddenSearch()
    ensures RendersSearchForm(BoolValue(false), true) && Hidden(BoolValue(false))
    ensures forall v :: RendersSearchForm(v, true) && EnqueuesScript(v, true)
  {
  }

  /** Outside the preview a boolean option either shows the search or hides
      it, never both and never neither. */
  lemma BooleanShowsOrHides(b: bool)
    ensures RendersSearchForm(BoolValue(b), false) != Hidden(BoolValue(b))
    ensures RendersSearchForm(BoolValue(b), false) <==> b
  {
  }

  /** Outside the preview a value that is not a boolean does neither: the
      search is not rendered, its script not enqueued, and it is not hidden. */
  lemma NonBoolNeitherShowsNorHides()
    ensures !RendersSearchForm(NonBool, false) && !EnqueuesScript(NonBool, false)
    ensures !Hidden(NonBool)
  {
  }
}
