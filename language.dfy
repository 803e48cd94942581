/** The language state the site shares through i18n: the current language tag,
    the primary subtag the pages derive from it (src/App.tsx:11,
    src/components/Header.tsx:26, src/pages/Home.tsx:19), and the negotiation
    of a supported language code. */
module Language {

  import opened Wrappers
  import opened Strings
  import opened Catalog

  /** `language.split("-")[0] || "en"`: the part of the tag before the first
      hyphen, or "en" when that part is empty. */
  function PrimaryTag(language: string): (r: string)
    ensures r != "" && '-' !in r
    ensures language == "" || language[0] == '-' ==> r == "en"
    ensures language != "" && language[0] != '-' ==>
      r <= language && (|r| == |language| || language[|r|] == '-')
  {
    var head := Before(language, '-');
    if head == "" then "en" else head
  }

  /** `PrimaryTag` is what `split` and `||` compute. */
  lemma PrimaryTagIsFirstPiece(language: string)
    ensures Split(language, '-')[0] != "" ==> PrimaryTag(language) == Split(language, '-')[0]
    ensures Split(language, '-')[0] == "" ==> PrimaryTag(language) == "en"
  {
    SplitFirstIsBefore(language, '-');
  }

  /** `["en", "pt", "es"].includes(tag) ? tag : "en"`. */
  function Negotiate(tag: string): (r: string)
    ensures LangOf(r).Some?
    ensures LangOf(tag).Some? ==> r == tag
    ensures LangOf(tag).None? ==> r == "en"
  {
    if LangOf(tag).Some? then tag else "en"
  }

  /** The i18n instance: the one piece of language state every page reads. */
  class I18n {
    var language: string

    constructor (initial: string)
      ensures language == initial
    {
      language := initial;
    }

    /** `i18n.changeLanguage(lng)`. */
    method ChangeLanguage(lng: string)
      modifies this
      ensures language == lng
    {
      language := lng;
    }
  }

  /** A supported code is its own primary tag, so once i18n holds it every
      page derives that same code. */
  lemma PrimaryTagOfCode(l: Lang)
    ensures PrimaryTag(Code(l)) == Code(l)
  {
    assert Code(l)[0] != '-';
    assert '-' !in Code(l);
  }
}
