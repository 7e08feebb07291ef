/**
 * The page header (src/components/Header.jsx): the language menu and its current entry, the
 * theme button, and the scroll flag.
 */
module Header {
  import opened Wrappers
  import I18n
  import ThemeContext

  datatype LanguageOption = LanguageOption(code: string, name: string, flag: string)

  /** `languages`, in menu order. */
  const Languages: seq<LanguageOption> := [
    LanguageOption("de", "Deutsch", "🇩🇪"),
    LanguageOption("en", "English", "🇬🇧"),
    LanguageOption("zh", "中文", "🇨🇳")
  ]

  /** Vertical scroll offset beyond which the navigation bar counts as scrolled. */
  const ScrollThreshold := 50

  /** `Array.prototype.find` on the code: the first entry with that code, if any. */
  function FindByCode(langs: seq<LanguageOption>, code: string): (r: Option<LanguageOption>)
    ensures r.Some? ==> r.value in langs && r.value.code == code
    ensures r.None? <==> forall l :: l in langs ==> l.code != code
    ensures r.Some? ==> exists i :: 0 <= i < |langs| && langs[i] == r.value &&
                                     forall j :: 0 <= j < i ==> langs[j].code != code
  {
    if langs == [] then None
    else if langs[0].code == code then Some(langs[0])
    else FindByCode(langs[1..], code)
  }

  /** `currentLang`: the entry of the active language, or the first entry, German. */
  function CurrentLang(language: string): (r: LanguageOption)
    ensures r in Languages
    ensures (exists l :: l in Languages && l.code == language) ==> r.code == language
    ensures (forall l :: l in Languages ==> l.code != language) ==> r == Languages[0] && r.code == "de"
  {
    match FindByCode(Languages, language)
    case Some(l) => l
    case None => Languages[0]
  }

  /** `handleThemeToggle` asks for dark when the theme is light and for light otherwise. */
  function NextTheme(theme: string): (r: string)
    ensures r in {"light", "dark"}
    ensures r == "dark" <==> theme == "light"
  {
    if theme == "light" then "dark" else "light"
  }

  /** The language menu after a mousedown: it closes only when open and the target is outside it. */
  function MenuAfterMousedown(open: bool, insideMenu: bool): (r: bool)
    ensures !open ==> !r
    ensures open ==> (r <==> insideMenu)
  {
    if open && !insideMenu then false else open
  }

  /** The menu lists the three supported codes, each once, German first. */
  lemma MenuCodesAreSupported()
    ensures |Languages| == 3
    ensures forall i :: 0 <= i < 3 ==> Languages[i].code == I18n.Code([I18n.De, I18n.En, I18n.Zh][i])
    ensures forall i, j :: 0 <= i < j < 3 ==> Languages[i].code != Languages[j].code
  {
  }

  /** Each supported language finds its own entry. */
  lemma CurrentLangOfSupported(l: I18n.Lang)
    ensures CurrentLang(I18n.Code(l)).code == I18n.Code(l)
  {
  }

  /** The header's target theme is the provider's own toggle: the two flips agree on every theme. */
  lemma NextThemeIsToggle(theme: string)
    ensures NextTheme(theme) == ThemeContext.Toggled(theme)
  {
  }

  /** The header's theme button flips light and dark and sets the override marker. */
  lemma ThemeButtonSetsMarker(s: ThemeContext.ThemeState)
    requires ThemeContext.Consistent(s)
    ensures var r := ThemeContext.UserPreference(s, NextTheme(s.theme));
      && (r.theme == "dark" <==> s.theme == "light")
      && ThemeContext.Truthy(r.storage, ThemeContext.PreferenceKey)
      && ThemeContext.Consistent(r)
  {
  }

  // ---------------------------------------------------------------------------------------
  // The component's state cells

  class HeaderState {
    var isLangMenuOpen: bool
    var scrolled: bool

    constructor ()
      ensures !isLangMenuOpen && !scrolled
    {
      isLangMenuOpen := false;
      scrolled := false;
    }

    /** The language button. */
    method ToggleLangMenu()
      modifies this`isLangMenuOpen
      ensures isLangMenuOpen == !old(isLangMenuOpen)
    {
      isLangMenuOpen := !isLangMenuOpen;
    }

    /** A menu entry: the language requested from i18next, and the menu closed. */
    method HandleLanguageChange(lng: string) returns (requested: string)
      modifies this`isLangMenuOpen
      ensures requested == lng
      ensures !isLangMenuOpen
    {
      requested := lng;
      isLangMenuOpen := false;
    }

    /** The document's mousedown listener; `insideMenu` is whether the target lies in the menu container. */
    method HandleClickOutside(insideMenu: bool)
      modifies this`isLangMenuOpen
      ensures isLangMenuOpen == MenuAfterMousedown(old(isLangMenuOpen), insideMenu)
    {
      if isLangMenuOpen && !insideMenu {
        isLangMenuOpen := false;
      }
    }

    /** The window's scroll listener. */
    method HandleScroll(scrollY: int)
      modifies this`scrolled
      ensures scrolled <==> scrollY > ScrollThreshold
    {
      scrolled := scrollY > ScrollThreshold;
    }

    /** The theme button: the opposite theme, chosen through the provider's exported setter. */
    method HandleThemeToggle(provider: ThemeContext.ThemeProvider)
      modifies provider
      ensures provider.State() == ThemeContext.UserPreference(old(provider.State()), NextTheme(old(provider.theme)))
    {
      var newTheme := NextTheme(provider.theme);
      provider.SetUserThemePreference(newTheme);
    }
  }
}
