/**
 * Language set-up of the site (src/i18n.js): the custom browser-language detection that
 * picks the initial language, the fallback language, and the translation function `t`
 * as the components use it.
 */
module I18n {
  import opened Wrappers

  /** The three languages the site ships translation catalogues for. */
  datatype Lang = De | En | Zh

  /** The language code i18next is given for a language. */
  function Code(l: Lang): string
  {
    match l
    case De => "de"
    case En => "en"
    case Zh => "zh"
  }

  /** Primary subtags that fall back to German rather than English. */
  const EuropeanLangs: seq<string> := ["fr", "es", "it", "nl", "pt", "ru", "pl"]

  /** `fallbackLng` of the i18next configuration. */
  const FallbackLanguage: Lang := De

  /** `toLowerCase` on one character, restricted to ASCII letters. */
  function LowerChar(c: char): char
  {
    if 'A' <= c <= 'Z' then (c as int + 32) as char else c
  }

  function ToLower(s: string): string
  {
    seq(|s|, i requires 0 <= i < |s| => LowerChar(s[i]))
  }

  /** `s.split('-')[0]`: the text before the first '-', or the whole of `s` when it has none. */
  function FirstSegment(s: string): (r: string)
    ensures r <= s
    ensures '-' !in r
    ensures |r| == |s| || s[|r|] == '-'
  {
    if s == [] || s[0] == '-' then [] else [s[0]] + FirstSegment(s[1..])
  }

  /** The primary subtag of a language tag, lower-cased (`'DE-AT'` gives `"de"`). */
  function PrimarySubtag(tag: string): string
  {
    ToLower(FirstSegment(tag))
  }

  /**
   * `detectBrowserLanguage`: German, English and Chinese are recognised by their primary
   * subtag in that order; a fixed set of European subtags falls back to German and every
   * other subtag to English.
   */
  function DetectBrowserLanguage(tag: string): (l: Lang)
    ensures l == De <==> PrimarySubtag(tag) == "de" || PrimarySubtag(tag) in EuropeanLangs
    ensures l == Zh <==> PrimarySubtag(tag) == "zh"
    ensures l == En <==> PrimarySubtag(tag) != "de" && PrimarySubtag(tag) != "zh" && PrimarySubtag(tag) !in EuropeanLangs
  {
    var langCode := PrimarySubtag(tag);
    if langCode == "de" then De
    else if langCode == "en" then En
    else if langCode == "zh" then Zh
    else if langCode in EuropeanLangs then De
    else En
  }

  /**
   * `navigator.language || navigator.userLanguage`: the first is used when it is a non-empty
   * string, otherwise the second as it is. `None` is `undefined`; splitting it throws, which
   * the result reports as `None`.
   */
  function DetectFromNavigator(language: Option<string>, userLanguage: Option<string>): (r: Option<Lang>)
    ensures language.Some? && language.value != "" ==> r == Some(DetectBrowserLanguage(language.value))
    ensures (language.None? || language.value == "") ==>
              (r.None? <==> userLanguage.None?) &&
              (userLanguage.Some? ==> r == Some(DetectBrowserLanguage(userLanguage.value)))
  {
    var browserLang := if language.Some? && language.value != "" then language else userLanguage;
    match browserLang
    case None => None
    case Some(tag) => Some(DetectBrowserLanguage(tag))
  }

  /** The `lng` option of the i18next configuration: the detected language. */
  function InitialLanguage(tag: string): (l: Lang)
    ensures Code(l) in {"de", "en", "zh"}
    ensures PrimarySubtag(tag) in {"de", "en", "zh"} ==> Code(l) == PrimarySubtag(tag)
  {
    DetectBrowserLanguage(tag)
  }

  /**
   * The translation function `t` over the active catalogue: a key the catalogue lacks comes
   * back as the key itself.
   */
  function Translate(catalog: map<string, string>, key: string): (r: string)
    ensures key in catalog ==> r == catalog[key]
    ensures r != key ==> key in catalog && catalog[key] == r
  {
    if key in catalog then catalog[key] else key
  }

  /** `t(key, defaultValue)`: a key the catalogue lacks comes back as the default. */
  function TranslateOr(catalog: map<string, string>, key: string, default: string): (r: string)
    ensures key in catalog ==> r == catalog[key]
    ensures key !in catalog ==> r == default
  {
    if key in catalog then catalog[key] else default
  }

  /** Without a default, `t` behaves as if the key itself were the default. */
  lemma TranslateDefaultsToKey(catalog: map<string, string>, key: string)
    ensures Translate(catalog, key) == TranslateOr(catalog, key, key)
  {
  }

  // ---------------------------------------------------------------------------------------
  // Properties of the detection

  /** Every tag, whatever its shape, is mapped to a code i18next has a catalogue for. */
  lemma DetectIsSupported(tag: string)
    ensures Code(DetectBrowserLanguage(tag)) in {"de", "en", "zh"}
  {
  }

  /** A tag that is exactly a supported code, or that code with any region part, detects as that language. */
  lemma {:induction false} DetectRoundTrip(l: Lang, region: string)
    ensures DetectBrowserLanguage(Code(l)) == l
    ensures DetectBrowserLanguage(Code(l) + "-" + region) == l
  {
    FirstSegmentOfTagged(Code(l), region);
    assert FirstSegment(Code(l)) == Code(l);
  }

  /** The subtags of the European table all detect as German. */
  lemma EuropeanFallsBackToGerman(sub: string, region: string)
    requires sub in EuropeanLangs
    ensures DetectBrowserLanguage(sub + "-" + region) == De
  {
    assert sub == "fr" || sub == "es" || sub == "it" || sub == "nl" || sub == "pt" || sub == "ru" || sub == "pl";
    FirstSegmentOfTagged(sub, region);
    assert ToLower(sub) == sub;
  }

  /** Japanese, as one instance of a language outside the table, detects as English. */
  lemma JapaneseFallsBackToEnglish()
    ensures DetectBrowserLanguage("ja-JP") == En
  {
  }

  /** `'DE-AT'` gives `de`: the subtag is lower-cased before the comparison. */
  lemma UpperCaseTag()
    ensures PrimarySubtag("DE-AT") == "de"
    ensures DetectBrowserLanguage("DE-AT") == De
  {
  }

  /** The text before the first '-' of `p + "-" + rest` is `p` when `p` has no '-'. */
  lemma {:induction false} FirstSegmentOfTagged(p: string, rest: string)
    requires '-' !in p
    ensures FirstSegment(p + "-" + rest) == p
  {
    if p == [] {
      assert (p + "-" + rest)[0] == '-';
    } else {
      assert (p + "-" + rest)[1..] == p[1..] + "-" + rest;
      FirstSegmentOfTagged(p[1..], rest);
    }
  }

  /** Only the primary subtag matters: the region part never changes the result. */
  lemma RegionIsIgnored(p: string, region1: string, region2: string)
    requires '-' !in p
    ensures DetectBrowserLanguage(p + "-" + region1) == DetectBrowserLanguage(p + "-" + region2)
  {
    FirstSegmentOfTagged(p, region1);
    FirstSegmentOfTagged(p, region2);
  }

  /** Lower-casing keeps every '-' where it is and changes nothing else of the first segment. */
  lemma {:induction false} FirstSegmentOfLower(s: string)
    ensures FirstSegment(ToLower(s)) == ToLower(FirstSegment(s))
  {
    if s != [] {
      assert ToLower(s)[1..] == ToLower(s[1..]);
      FirstSegmentOfLower(s[1..]);
      if s[0] != '-' {
        assert ToLower(FirstSegment(s)) == [LowerChar(s[0])] + ToLower(FirstSegment(s[1..]));
      }
    }
  }

  lemma {:induction false} ToLowerIdempotent(s: string)
    ensures ToLower(ToLower(s)) == ToLower(s)
  {
  }

  /** Detection does not depend on the case of the tag. */
  lemma DetectIgnoresCase(tag: string)
    ensures DetectBrowserLanguage(ToLower(tag)) == DetectBrowserLanguage(tag)
  {
    FirstSegmentOfLower(tag);
    ToLowerIdempotent(FirstSegment(tag));
  }

  /** With a non-empty `navigator.language`, i18next starts in the detected language. */
  lemma InitialFollowsNavigator(language: string, userLanguage: Option<string>)
    requires language != ""
    ensures DetectFromNavigator(Some(language), userLanguage) == Some(InitialLanguage(language))
  {
  }
}
