/** The layout effect of src/components/Layout.tsx: when the route carries a
    supported language that differs from the i18n language, switch i18n to it. */
module Layout {

  import opened Wrappers
  import opened Catalog
  import opened Language

  /** The i18n language after the effect has run, given the one before it and
      the route's `lang` parameter (absent when the route has none). */
  function Synced(current: string, lang: Option<string>): (r: string)
    ensures lang.None? ==> r == current
    ensures lang.Some? && LangOf(lang.value).None? ==> r == current
    ensures lang.Some? && LangOf(lang.value).Some? ==> r == lang.value
  {
    if lang.Some? && LangOf(lang.value).Some? then lang.value else current
  }

  /** The effect itself: it calls `changeLanguage` only on a real change. */
  method SyncLanguage(i18n: I18n, lang: Option<string>)
    modifies i18n
    ensures i18n.language == Synced(old(i18n.language), lang)
    ensures old(i18n.language) == Synced(old(i18n.language), lang) ==> unchanged(i18n)
  {
    if lang.Some? && LangOf(lang.value).Some? && i18n.language != lang.value {
      i18n.ChangeLanguage(lang.value);
    }
  }

  /** Running the effect a second time changes nothing. */
  lemma SyncedIdempotent(current: string, lang: Option<string>)
    ensures Synced(Synced(current, lang), lang) == Synced(current, lang)
  {
  }

  /** After the effect on a route with a supported language, the pages derive
      that language from i18n: a Portuguese route turns "pt-BR" into "pt". */
  lemma SyncedPagesAgree(current: string, l: Lang)
    ensures PrimaryTag(Synced(current, Some(Code(l)))) == Code(l)
  {
    PrimaryTagOfCode(l);
  }

  lemma SyncedExample()
    ensures Synced("pt-BR", Some("pt")) == "pt"
    ensures Synced("pt-BR", Some("de")) == "pt-BR"
    ensures Synced("es", None) == "es"
  {
  }
}
