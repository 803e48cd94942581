/** The language switcher of src/components/Header.tsx: rewrite the current path
    for the chosen language, switch i18n to it and close the mobile menu. */
module Header {

  import opened Wrappers
  import opened Strings
  import opened Catalog
  import opened Language
  import ToolWrapper
  import SlugShape

  /** The target path of a switch to `lng` from `currentPath`: when the path
      starts with a supported code, that first segment is replaced and the
      segments are joined again; otherwise `lng` is put in front of the
      unchanged path. The slug after the language is never translated. */
  function SwitchPath(currentPath: string, lng: string): string {
    var parts := Segments(currentPath);
    if |parts| > 0 && LangOf(parts[0]).Some? then "/" + Join(parts[0 := lng], '/')
    else "/" + lng + currentPath
  }

  /** Whether the path starts with a segment the switcher recognises as a language. */
  predicate Prefixed(path: string) {
    |Segments(path)| > 0 && LangOf(Segments(path)[0]).Some?
  }

  /** The header component's own state. */
  class HeaderState {
    var isMenuOpen: bool

    constructor ()
      ensures !isMenuOpen
    {
      isMenuOpen := false;
    }

    /** `changeLanguage(lng)`: returns the path it navigates to. */
    method ChangeLanguage(i18n: I18n, currentPath: string, lng: string) returns (target: string)
      modifies this, i18n
      ensures target == SwitchPath(currentPath, lng)
      ensures i18n.language == lng
      ensures !isMenuOpen
    {
      var pathParts := Segments(currentPath);
      if |pathParts| > 0 && LangOf(pathParts[0]).Some? {
        pathParts := pathParts[0 := lng];
        target := "/" + Join(pathParts, '/');
      } else {
        target := "/" + lng + currentPath;
      }
      i18n.ChangeLanguage(lng);
      isMenuOpen := false;
    }
  }

  /** The segments of the target: `lng` first, then the segments after the old
      language code, or all the old segments when there was none. A location
      path is empty or starts with "/", and a language code is one segment. */
  lemma SwitchSegments(currentPath: string, lng: string)
    requires currentPath == "" || currentPath[0] == '/'
    requires lng != "" && '/' !in lng
    ensures Prefixed(currentPath) ==>
      Segments(SwitchPath(currentPath, lng)) == [lng] + Segments(currentPath)[1..]
    ensures !Prefixed(currentPath) ==>
      Segments(SwitchPath(currentPath, lng)) == [lng] + Segments(currentPath)
  {
    var parts := Segments(currentPath);
    if Prefixed(currentPath) {
      var updated := parts[0 := lng];
      forall i | 0 <= i < |updated| ensures updated[i] != "" && '/' !in updated[i] {
        if i > 0 {
          SplitPiecesFree(currentPath, '/');
          assert updated[i] in Split(currentPath, '/');
        }
      }
      SegmentsOfJoin(updated);
      assert updated == [lng] + parts[1..];
    } else {
      SegmentsOfPrefixed(lng, currentPath);
    }
  }

  /** The first segment of the target is always the chosen language. */
  lemma SwitchTargetsLanguage(currentPath: string, lng: string)
    requires currentPath == "" || currentPath[0] == '/'
    requires lng != "" && '/' !in lng
    ensures |Segments(SwitchPath(currentPath, lng))| > 0
    ensures Segments(SwitchPath(currentPath, lng))[0] == lng
  {
    SwitchSegments(currentPath, lng);
  }

  /** Switching to the language the path already has gives the path in its
      normal form: no empty segments and no trailing slash. */
  lemma SwitchToSameLanguage(currentPath: string)
    requires Prefixed(currentPath)
    ensures SwitchPath(currentPath, Segments(currentPath)[0]) == "/" + Join(Segments(currentPath), '/')
  {
    var parts := Segments(currentPath);
    assert parts[0 := parts[0]] == parts;
  }

  /** On a tool page the slug is carried over verbatim, whatever the new
      language: it is not translated. */
  lemma SwitchKeepsSlug(from: Lang, slug: string, lng: string)
    requires slug != "" && '/' !in slug
    ensures SwitchPath("/" + Code(from) + "/" + slug, lng) == "/" + lng + "/" + slug
  {
    var parts := [Code(from), slug];
    assert Join(parts, '/') == Code(from) + "/" + slug;
    assert "/" + Code(from) + "/" + slug == "/" + Join(parts, '/');
    SegmentsOfJoin(parts);
    var updated := parts[0 := lng];
    assert Join(updated, '/') == lng + "/" + slug;
  }

  /** Switching languages on a tool page keeps the old slug, so the new page
      shows a tool only when that slug is also a slug in the new language, and
      otherwise redirects to the new language's home page. For instance
      /en/image-compressor becomes /pt/image-compressor, which redirects to /pt
      (`ToolWrapper.EnglishCompressorUnderPortuguese`). */
  lemma SwitchOnToolPage(t: ToolId, from: Lang, to: Lang)
    ensures SwitchPath("/" + Code(from) + "/" + Slug(t, from), Code(to)) == "/" + Code(to) + "/" + Slug(t, from)
    ensures ToolWrapper.ViewOf(Code(to), Slug(t, from)) == ToolWrapper.Redirect("/" + Code(to), true)
      <==> forall u :: Slug(u, to) != Slug(t, from)
  {
    SlugShape.SlugWellFormed(t, from);
    WellFormedSlugIsSegment(Slug(t, from));
    SwitchKeepsSlug(from, Slug(t, from), Code(to));
    ToolWrapper.ResolveMeaning(Code(to), Slug(t, from));
    assert LangOf(Code(to)) == Some(to);
    forall u ensures ToolWrapper.Matches(u, Code(to), Slug(t, from)) <==> Slug(u, to) == Slug(t, from) {
    }
  }
}
