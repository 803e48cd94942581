/** The home page of src/pages/Home.tsx: one section per category, one link per
    tool of the category, each to the tool's page in the current language, and
    the three alternate-language links of the page head. */
module Home {

  import opened Wrappers
  import opened Strings
  import opened Catalog
  import opened Language
  import App
  import ToolWrapper
  import SlugShape

  /** The link of one tool card: `/${currentLang}/${path}`, where a language
      without an entry makes `path` the text "undefined". */
  function LinkTarget(currentLang: string, t: ToolId): (to: string)
    ensures LangOf(currentLang).Some? ==> to == "/" + currentLang + "/" + Slug(t, LangOf(currentLang).value)
    ensures LangOf(currentLang).None? ==> to == "/" + currentLang + "/undefined"
  {
    var path := match PathFor(t, currentLang) case Some(p) => p case None => "undefined";
    "/" + currentLang + "/" + path
  }

  datatype Link = Link(tool: ToolId, to: string)

  datatype Section = Section(id: string, icon: string, links: seq<Link>)

  /** `category.tools.map(...)`. */
  function ToolLinks(currentLang: string, tools: seq<ToolId>): (r: seq<Link>)
    ensures |r| == |tools|
    ensures forall i :: 0 <= i < |tools| ==> r[i] == Link(tools[i], LinkTarget(currentLang, tools[i]))
  {
    if tools == [] then [] else [Link(tools[0], LinkTarget(currentLang, tools[0]))] + ToolLinks(currentLang, tools[1..])
  }

  /** `categories.map(...)`: the sections of the page, in category order. */
  function Sections(currentLang: string, cats: seq<Category>): (r: seq<Section>)
    ensures |r| == |cats|
    ensures forall i :: 0 <= i < |cats| ==>
      r[i] == Section(cats[i].id, cats[i].icon, ToolLinks(currentLang, cats[i].tools))
  {
    if cats == [] then [] else
      [Section(cats[0].id, cats[0].icon, ToolLinks(currentLang, cats[0].tools))] + Sections(currentLang, cats[1..])
  }

  /** The page's links as i18n's language gives them. */
  function HomeSections(language: string): seq<Section> {
    Sections(PrimaryTag(language), Categories)
  }

  /** All links of the page, section after section. */
  function AllLinks(sections: seq<Section>): (r: seq<Link>)
    ensures |sections| == 0 ==> r == []
  {
    if sections == [] then [] else sections[0].links + AllLinks(sections[1..])
  }

  /** The page links a list of categories to exactly their tools, category order
      first, tool order second. */
  lemma {:induction false} LinksFollowCategories(currentLang: string, cats: seq<Category>)
    ensures AllLinks(Sections(currentLang, cats)) == ToolLinks(currentLang, CategoryTools(cats))
  {
    if cats != [] {
      LinksFollowCategories(currentLang, cats[1..]);
      ToolLinksAppend(currentLang, cats[0].tools, CategoryTools(cats[1..]));
      assert Sections(currentLang, cats)[1..] == Sections(currentLang, cats[1..]);
    }
  }

  lemma ToolLinksAppend(currentLang: string, a: seq<ToolId>, b: seq<ToolId>)
    ensures ToolLinks(currentLang, a + b) == ToolLinks(currentLang, a) + ToolLinks(currentLang, b)
  {
  }

  /** Exactly one link per tool of the catalog, in `toolPaths` order. */
  lemma OneLinkPerTool(language: string)
    ensures |AllLinks(HomeSections(language))| == |AllTools|
    ensures forall i :: 0 <= i < |AllTools| ==>
      AllLinks(HomeSections(language))[i] == Link(AllTools[i], LinkTarget(PrimaryTag(language), AllTools[i]))
  {
    LinksFollowCategories(PrimaryTag(language), Categories);
    CategoriesPartition();
  }

  /** The path of a tool's link is matched as the language and the slug. */
  lemma LinkSegments(t: ToolId, l: Lang)
    ensures App.PathSegments(LinkTarget(Code(l), t)) == Some([Code(l), Slug(t, l)])
  {
    SlugShape.SlugWellFormed(t, l);
    WellFormedSlugIsSegment(Slug(t, l));
    var parts := [Code(l), Slug(t, l)];
    assert Join(parts, '/') == Code(l) + "/" + Slug(t, l);
    assert LinkTarget(Code(l), t) == "/" + Join(parts, '/') + "";
    App.PathSegmentsOfJoin(parts, false);
  }

  /** With a supported language, the i-th link of the page is the i-th tool's,
      it routes to the tool page, and that page shows the very tool of the card. */
  lemma LinksResolve(language: string, l: Lang, i: nat)
    requires PrimaryTag(language) == Code(l)
    requires i < |AllTools|
    ensures |AllLinks(HomeSections(language))| == |AllTools|
    ensures var link := AllLinks(HomeSections(language))[i];
      link.tool == AllTools[i] &&
      App.RouteOf(link.to) == App.ToolElement(Code(l), Slug(link.tool, l)) &&
      ToolWrapper.ViewOf(Code(l), Slug(link.tool, l)) == ToolWrapper.Show(link.tool, ToolWrapper.ComponentOf(link.tool))
  {
    OneLinkPerTool(language);
    var t := AllTools[i];
    LinkSegments(t, l);
    App.ToolSlugRoutesToTool(t, l);
    assert App.RouteOf(LinkTarget(Code(l), t)) == App.Route([Code(l), Slug(t, l)]);
    ToolWrapper.OwnSlugShowsTool(t, l);
  }

  /** With an unsupported language every link ends in "undefined", and the tool
      page it reaches redirects to that language's home page. */
  lemma UnsupportedLanguageLinks(currentLang: string, t: ToolId)
    requires LangOf(currentLang).None?
    ensures LinkTarget(currentLang, t) == "/" + currentLang + "/undefined"
    ensures ToolWrapper.ViewOf(currentLang, "undefined") == ToolWrapper.Redirect("/" + currentLang, true)
  {
    ToolWrapper.UnsupportedLangResolvesNothing(currentLang, "undefined");
  }

  /** A `<link rel="alternate">` of the page head. */
  datatype Alternate = Alternate(hreflang: string, href: string)

  /** The three alternates, one per language, each to that language's home page. */
  function Alternates(origin: string): (r: seq<Alternate>)
    ensures |r| == |Langs|
    ensures forall i :: 0 <= i < |Langs| ==>
      r[i].hreflang == Code(Langs[i]) && r[i].href == origin + "/" + Code(Langs[i])
  {
    [Alternate("en", origin + "/en"), Alternate("pt", origin + "/pt"), Alternate("es", origin + "/es")]
  }
}
