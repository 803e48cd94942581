/** The entry component of src/App.tsx: the root redirect, which negotiates a
    language from i18n, and the route table under the layout, as a function from
    the pathname, as the router splits and matches it, to the element rendered. */
module App {

  import opened Wrappers
  import opened Strings
  import opened Catalog
  import opened Language
  import SlugShape

  /** A `<Navigate to=... replace />` element. */
  datatype Navigation = Navigate(to: string, replace: bool)

  /** `RootRedirect`: go to the home page of the detected language if the site
      has it, else to the English one, replacing the history entry. */
  function RootRedirect(language: string): (n: Navigation)
    ensures n.replace
    ensures |n.to| == 3 && n.to[0] == '/' && LangOf(n.to[1..]).Some?
    ensures LangOf(PrimaryTag(language)).Some? ==> n.to == "/" + PrimaryTag(language)
    ensures LangOf(PrimaryTag(language)).None? ==> n.to == "/en"
  {
    var lang := Negotiate(PrimaryTag(language));
    var to := "/" + lang;
    assert to[1..] == lang;
    Navigate(to, true)
  }

  lemma RootRedirectExamples()
    ensures RootRedirect("pt-BR").to == "/pt"
    ensures RootRedirect("es").to == "/es"
  {
    assert PrimaryTag("pt-BR") == "pt";
    assert PrimaryTag("es") == "es";
  }

  lemma RootRedirectFallbacks()
    ensures RootRedirect("de-DE").to == "/en"
    ensures RootRedirect("").to == "/en"
  {
    assert PrimaryTag("de-DE") == "de";
  }

  /** The element a route renders inside the layout. */
  datatype Element =
    | RootRedirectElement
    | HomeElement(lang: string)
    | LegalElement(lang: string, kind: string)
    | ToolElement(lang: string, toolPath: string)
    | NoElement

  /** The route table: the index route, `:lang`, the four static legal routes
      and `:lang/:toolPath`. The router compares static segments without regard
      to ASCII case and a static segment outranks the dynamic one, so a second
      segment that lowers to a legal page's name renders that page; the `:lang`
      and `:toolPath` segments are passed as the URL holds them. */
  function Route(segments: seq<string>): (e: Element)
    ensures segments == [] <==> e == RootRedirectElement
    ensures |segments| == 1 <==> e.HomeElement?
    ensures e.LegalElement? <==> |segments| == 2 && Lower(segments[1]) in LegalPages
    ensures e.ToolElement? <==> |segments| == 2 && Lower(segments[1]) !in LegalPages
    ensures e.NoElement? <==> |segments| > 2
    ensures e.HomeElement? || e.LegalElement? || e.ToolElement? ==> e.lang == segments[0]
    ensures e.LegalElement? ==> e.kind == Lower(segments[1]) && e.kind in LegalPages
    ensures e.ToolElement? ==> e.toolPath == segments[1]
  {
    if segments == [] then RootRedirectElement
    else if |segments| == 1 then HomeElement(segments[0])
    else if |segments| == 2 && Lower(segments[1]) in LegalPages then LegalElement(segments[0], Lower(segments[1]))
    else if |segments| == 2 then ToolElement(segments[0], segments[1])
    else NoElement
  }

  /** The pathname without the trailing slashes the matcher ignores. */
  function TrimTrailingSlashes(path: string): (r: string)
    ensures r <= path
    ensures r == "" || r[|r| - 1] != '/'
    ensures forall i :: |r| <= i < |path| ==> path[i] == '/'
  {
    if path != [] && path[|path| - 1] == '/' then TrimTrailingSlashes(path[..|path| - 1]) else path
  }

  /** The segments the router matches a pathname against: the pieces between
      the slashes after the leading one, trailing slashes ignored. Every route
      segment needs a non-empty piece, so a doubled slash (or a path not
      starting with "/") matches no route at all. */
  function PathSegments(path: string): (r: Option<seq<string>>)
    ensures r.Some? ==> forall i :: 0 <= i < |r.value| ==> r.value[i] != "" && '/' !in r.value[i]
    ensures r.Some? ==> TrimTrailingSlashes(path) == (if r.value == [] then "" else "/" + Join(r.value, '/'))
    ensures r.None? <==> path == "" || path[0] != '/' || Doubled(TrimTrailingSlashes(path), '/')
    ensures r == Some([]) <==> path != "" && forall i :: 0 <= i < |path| ==> path[i] == '/'
  {
    if path == [] || path[0] != '/' then None
    else
      var p := TrimTrailingSlashes(path);
      if p == "" then Some([])
      else
        var parts := Split(p[1..], '/');
        assert p[0] == path[0] && p[|p| - 1] == path[|p| - 1];
        assert p == [p[0]] + p[1..];
        SplitPiecesFree(p[1..], '/');
        SplitJoin(p[1..], '/');
        PiecesNonEmpty(p[1..], '/');
        DoubledCons(p, '/');
        if forall i :: 0 <= i < |parts| ==> parts[i] != "" then Some(parts) else None
  }

  /** The element for a URL path: the root redirect exactly for a path of
      slashes only, nothing for a path with an empty segment inside it, and
      otherwise the route of its segments. */
  function RouteOf(path: string): (e: Element)
    ensures e == RootRedirectElement <==> path != "" && forall i :: 0 <= i < |path| ==> path[i] == '/'
    ensures path == "" || path[0] != '/' || Doubled(TrimTrailingSlashes(path), '/') ==> e == NoElement
    ensures PathSegments(path).Some? ==> e == Route(PathSegments(path).value)
  {
    match PathSegments(path)
    case None => NoElement
    case Some(segments) => Route(segments)
  }

  /** Wherever "//" stands before a non-slash character, the path matches no
      route. */
  lemma DoubledSlashMatchesNothing(a: string, b: string, k: nat)
    requires k < |b| && b[k] != '/'
    ensures RouteOf(a + "//" + b) == NoElement
  {
    var path := a + "//" + b;
    var p := TrimTrailingSlashes(path);
    assert path[|a| + 2 + k] == b[k];
    assert |a| + 2 + k < |p|;
    assert p[|a|] == path[|a|] == '/' && p[|a| + 1] == path[|a| + 1] == '/';
    assert Doubled(p, '/');
  }

  /** A trailing slash after a non-empty path changes nothing. */
  lemma TrailingSlashIgnored(path: string)
    requires path != ""
    ensures PathSegments(path + "/") == PathSegments(path)
    ensures RouteOf(path + "/") == RouteOf(path)
  {
    assert (path + "/")[..|path|] == path;
    assert TrimTrailingSlashes(path + "/") == TrimTrailingSlashes(path);
    assert (path + "/")[0] == path[0];
  }

  /** The last character of joined pieces is the last character of the last piece. */
  lemma {:induction false} JoinEnds(parts: seq<string>, c: char)
    requires |parts| > 0 && parts[|parts| - 1] != ""
    ensures var j := Join(parts, c); j != "" && j[|j| - 1] == parts[|parts| - 1][|parts[|parts| - 1]| - 1]
  {
    if |parts| > 1 {
      JoinEnds(parts[1..], c);
    }
  }

  /** Trimming the trailing slashes of such a path leaves "/" and the join. */
  lemma TrimJoinedPath(parts: seq<string>, trailing: bool)
    requires |parts| > 0 && parts[|parts| - 1] != "" && '/' !in parts[|parts| - 1]
    ensures TrimTrailingSlashes("/" + Join(parts, '/') + (if trailing then "/" else "")) == "/" + Join(parts, '/')
  {
    var bare := "/" + Join(parts, '/');
    JoinEnds(parts, '/');
    assert bare[|bare| - 1] != '/';
    assert TrimTrailingSlashes(bare) == bare;
    if trailing {
      var path := bare + "/";
      assert path[..|path| - 1] == bare;
    }
  }

  /** A path built as "/" and non-empty slash-free segments joined by "/",
      with or without one trailing slash, gives back exactly those segments. */
  lemma PathSegmentsOfJoin(parts: seq<string>, trailing: bool)
    requires |parts| > 0
    requires forall i :: 0 <= i < |parts| ==> parts[i] != "" && '/' !in parts[i]
    ensures PathSegments("/" + Join(parts, '/') + (if trailing then "/" else "")) == Some(parts)
  {
    var path := "/" + Join(parts, '/') + (if trailing then "/" else "");
    var bare := "/" + Join(parts, '/');
    TrimJoinedPath(parts, trailing);
    JoinSplit(parts, '/');
    assert path[0] == '/';
    assert bare[1..] == Join(parts, '/');
    assert Split(TrimTrailingSlashes(path)[1..], '/') == parts;
  }

  /** A well-formed slug is already in lower case. */
  lemma SlugIsLower(s: string)
    requires WellFormedSlug(s)
    ensures Lower(s) == s
  {
    assert forall i :: 0 <= i < |s| ==> Lower(s)[i] == s[i];
  }

  /** A tool's own slug is never taken by a legal route: the pair of a language
      code and a slug always reaches the tool page. */
  lemma ToolSlugRoutesToTool(t: ToolId, l: Lang)
    ensures Route([Code(l), Slug(t, l)]) == ToolElement(Code(l), Slug(t, l))
  {
    SlugShape.SlugWellFormed(t, l);
    SlugIsLower(Slug(t, l));
    SlugNotReserved(t, l);
  }

  /** The route table does not check the language: any first segment is taken
      as `:lang`, and the second decides between a legal page and the tool page. */
  lemma LangNotValidated(lang: string, page: string)
    ensures Route([lang]) == HomeElement(lang)
    ensures Lower(page) in LegalPages ==> Route([lang, page]) == LegalElement(lang, Lower(page))
    ensures Lower(page) !in LegalPages ==> Route([lang, page]) == ToolElement(lang, page)
  {
  }

  /** A path built from clean segments routes as those segments do. */
  lemma RouteOfJoin(parts: seq<string>, trailing: bool)
    requires |parts| > 0
    requires forall i :: 0 <= i < |parts| ==> parts[i] != "" && '/' !in parts[i]
    ensures RouteOf("/" + Join(parts, '/') + (if trailing then "/" else "")) == Route(parts)
  {
    PathSegmentsOfJoin(parts, trailing);
  }

  /** A two-segment path, with or without a trailing slash, routes as its
      two segments do. */
  lemma RoutePair(lang: string, s: string, trailing: bool)
    requires lang != "" && '/' !in lang
    requires s != "" && '/' !in s
    ensures RouteOf("/" + lang + "/" + s + (if trailing then "/" else "")) == Route([lang, s])
  {
    var tail := if trailing then "/" else "";
    assert "/" + lang + "/" + s + tail == "/" + Join([lang, s], '/') + tail by {
      assert [lang, s][1..] == [s];
    }
    RouteOfJoin([lang, s], trailing);
  }

  /** Legal routes ignore the case of their segment and a trailing slash:
      "/" + lang + "/" + s, with or without a final "/", renders the legal page
      `Lower(s)` whenever `s` lowers to one of the four names. */
  lemma LegalRouteIgnoresCase(lang: string, s: string, trailing: bool)
    requires lang != "" && '/' !in lang
    requires s != "" && '/' !in s
    requires Lower(s) in LegalPages
    ensures RouteOf("/" + lang + "/" + s + (if trailing then "/" else "")) == LegalElement(lang, Lower(s))
  {
    RoutePair(lang, s, trailing);
    LangNotValidated(lang, s);
  }
}
