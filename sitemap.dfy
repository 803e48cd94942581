/** The sitemap generator of generate-sitemap.js: one `<url>` element per page
    and language, in the XML format of the Sitemaps protocol 0.9 (sitemaps.org),
    each carrying one `xhtml:link rel="alternate"` per language. The model
    describes the document twice: as a list of URL entries, about which the
    properties are proved, and as the text obtained by appending to `xml` in the
    generator's own nested loops. */
module Sitemap {

  import opened Wrappers
  import opened Catalog

  const BaseUrl: string := "https://alltools.com"

  /** The pages the sitemap lists: the home page, a legal page, or a tool page. */
  datatype Page = HomePage | LegalPage(name: string) | ToolPage(tool: ToolId)

  /** The path of a page in a language, as the site routes it. */
  function PagePath(p: Page, l: Lang): string {
    "/" + Code(l) + PathRest(p, l)
  }

  /** What follows the language in a page's path. */
  function PathRest(p: Page, l: Lang): string {
    match p
    case HomePage => ""
    case LegalPage(name) => "/" + name
    case ToolPage(t) => "/" + Slug(t, l)
  }

  function LegalPageList(names: seq<string>): (r: seq<Page>)
    ensures |r| == |names|
    ensures forall i :: 0 <= i < |names| ==> r[i] == LegalPage(names[i])
  {
    if names == [] then [] else [LegalPage(names[0])] + LegalPageList(names[1..])
  }

  function ToolPageList(tools: seq<ToolId>): (r: seq<Page>)
    ensures |r| == |tools|
    ensures forall i :: 0 <= i < |tools| ==> r[i] == ToolPage(tools[i])
  {
    if tools == [] then [] else [ToolPage(tools[0])] + ToolPageList(tools[1..])
  }

  /** The pages in the order the generator visits them: home, then the legal
      pages, then the tools category by category. */
  function Pages(): seq<Page> {
    [HomePage] + LegalPageList(LegalPages) + ToolPageList(CategoryTools(Categories))
  }

  datatype Alternate = Alternate(hreflang: string, href: string)

  datatype Url = Url(loc: string, alternates: seq<Alternate>)

  /** The alternates of a page, one per language of `ls`, in that order. */
  function AlternatesFor(p: Page, ls: seq<Lang>): (r: seq<Alternate>)
    ensures |r| == |ls|
    ensures forall j :: 0 <= j < |ls| ==> r[j] == Alternate(Code(ls[j]), BaseUrl + PagePath(p, ls[j]))
  {
    if ls == [] then [] else AlternatesFor(p, ls[..|ls| - 1]) + [Alternate(Code(ls[|ls| - 1]), BaseUrl + PagePath(p, ls[|ls| - 1]))]
  }

  /** The `<url>` entry of a page in one language. */
  function UrlOf(p: Page, l: Lang): Url {
    Url(BaseUrl + PagePath(p, l), AlternatesFor(p, Langs))
  }

  /** The entries of one page, one per language of `ls`. */
  function PageUrls(p: Page, ls: seq<Lang>): (r: seq<Url>)
    ensures |r| == |ls|
    ensures forall j :: 0 <= j < |ls| ==> r[j] == UrlOf(p, ls[j])
  {
    if ls == [] then [] else PageUrls(p, ls[..|ls| - 1]) + [UrlOf(p, ls[|ls| - 1])]
  }

  /** The entries of a list of pages, page by page, language by language. */
  function UrlsOf(pages: seq<Page>): (r: seq<Url>)
    ensures |r| == 3 * |pages|
  {
    if pages == [] then [] else UrlsOf(pages[..|pages| - 1]) + PageUrls(pages[|pages| - 1], Langs)
  }

  function Urls(): seq<Url> {
    UrlsOf(Pages())
  }

  /** The legal-page entries name legal pages only. */
  predicate ListedPage(p: Page) {
    p.LegalPage? ==> p.name in LegalPages
  }

  lemma PagesListed()
    ensures forall k :: 0 <= k < |Pages()| ==> ListedPage(Pages()[k])
  {
  }

  /** The generator visits 1 + 4 + 20 pages: home, the legal pages in their
      order, then every tool in `toolPaths` order. */
  lemma PagesOrder()
    ensures |Pages()| == 1 + |LegalPages| + |AllTools| == 25
    ensures Pages()[0] == HomePage
    ensures forall k :: 1 <= k < 5 ==> Pages()[k] == LegalPage(LegalPages[k - 1])
    ensures forall k :: 5 <= k < 25 ==> Pages()[k] == ToolPage(AllTools[k - 5])
  {
    PagesCount();
    LegalPagesInOrder();
    ToolPagesInOrder();
  }

  lemma PagesCount()
    ensures |Pages()| == 25
  {
    CategoriesPartition();
  }

  lemma LegalPagesInOrder()
    ensures forall k :: 1 <= k < 5 ==> Pages()[k] == LegalPage(LegalPages[k - 1])
  {
  }

  lemma ToolPagesInOrder()
    ensures forall k :: 5 <= k < 25 ==> Pages()[k] == ToolPage(AllTools[k - 5])
  {
    PagesTail();
    var tools := ToolPageList(AllTools);
    forall k | 5 <= k < 25 ensures Pages()[k] == ToolPage(AllTools[k - 5]) {
      assert Pages()[k] == Pages()[5..][k - 5] == tools[k - 5];
    }
  }

  lemma PagesTail()
    ensures |Pages()| == 25
    ensures Pages()[5..] == ToolPageList(AllTools)
  {
    CategoriesPartition();
    var front := [HomePage] + LegalPageList(LegalPages);
    assert |front| == 5;
    assert Pages() == front + ToolPageList(AllTools);
  }

  /** Entry `i` of a list of pages is page `i / 3` in language `i % 3`. */
  lemma {:induction false} UrlsOfIndex(pages: seq<Page>, i: nat)
    requires i < 3 * |pages|
    ensures UrlsOf(pages)[i] == UrlOf(pages[i / 3], Langs[i % 3])
    decreases |pages|
  {
    var n := |pages| - 1;
    var front := pages[..n];
    if i < 3 * n {
      UrlsOfIndex(front, i);
    } else {
      var k := i - 3 * n;
      assert i / 3 == n && i % 3 == k;
    }
  }

  /** 3 × (1 + 4 + 20) = 75 entries, page-major with the language inner:
      entry `i` is page `i / 3` of `Pages()` in language `i % 3`. */
  lemma SitemapOrder()
    ensures |Urls()| == |Langs| * (1 + |LegalPages| + |AllTools|) == 75
    ensures forall i :: 0 <= i < 75 ==> Urls()[i] == UrlOf(Pages()[i / 3], Langs[i % 3])
  {
    PagesCount();
    forall i | 0 <= i < 75 ensures Urls()[i] == UrlOf(Pages()[i / 3], Langs[i % 3]) {
      UrlsOfIndex(Pages(), i);
    }
  }

  /** Every entry has one alternate per language, in the order en, pt, es, and
      its `<loc>` is the alternate of its own language. */
  lemma UrlShape(p: Page, l: Lang)
    ensures var u := UrlOf(p, l);
      |u.alternates| == 3 &&
      (forall j :: 0 <= j < 3 ==> u.alternates[j].hreflang == Code(Langs[j])) &&
      u.alternates[LangIndex(l)].href == u.loc &&
      forall j :: 0 <= j < 3 ==> u.alternates[j].href == BaseUrl + PagePath(p, Langs[j])
  {
  }

  function LangIndex(l: Lang): (j: nat)
    ensures j < |Langs| && Langs[j] == l
  {
    match l
    case En => 0
    case Pt => 1
    case Es => 2
  }

  /** A tool's `<loc>`: base URL, language, slug. */
  lemma ToolLoc(t: ToolId, l: Lang)
    ensures UrlOf(ToolPage(t), l).loc == BaseUrl + "/" + Code(l) + "/" + Slug(t, l)
  {
    var base, code, slug := BaseUrl, Code(l), Slug(t, l);
    Assoc(base, "/" + code, "/" + slug);
    Assoc(base + "/", code, "/" + slug);
    Assoc(base + "/" + code, "/", slug);
    Assoc(base, "/", code);
  }

  lemma Assoc(a: string, b: string, c: string)
    ensures a + (b + c) == a + b + c
  {
  }

  /** Different listed pages or languages never share a path. */
  lemma PagePathInjective(p1: Page, l1: Lang, p2: Page, l2: Lang)
    requires ListedPage(p1) && ListedPage(p2)
    requires PagePath(p1, l1) == PagePath(p2, l2)
    ensures p1 == p2 && l1 == l2
  {
    SplitEqual("/" + Code(l1), PathRest(p1, l1), "/" + Code(l2), PathRest(p2, l2));
    SplitEqual("/", Code(l1), "/", Code(l2));
    assert l1 == l2 by {
      assert LangOf(Code(l1)) == Some(l1);
    }
    match p1
    case HomePage =>
    case LegalPage(n1) =>
      if p2.LegalPage? {
        SplitEqual("/", n1, "/", p2.name);
      } else if p2.ToolPage? {
        SplitEqual("/", n1, "/", Slug(p2.tool, l2));
        SlugNotReserved(p2.tool, l2);
      }
    case ToolPage(t1) =>
      if p2.ToolPage? {
        SplitEqual("/", Slug(t1, l1), "/", Slug(p2.tool, l2));
        SlugInjective(t1, p2.tool, l1);
      } else if p2.LegalPage? {
        SplitEqual("/", Slug(t1, l1), "/", p2.name);
        SlugNotReserved(t1, l1);
      }
  }

  /** Equal texts whose prefixes have the same length have equal parts. */
  lemma SplitEqual(a1: string, b1: string, a2: string, b2: string)
    requires |a1| == |a2| && a1 + b1 == a2 + b2
    ensures a1 == a2 && b1 == b2
  {
    assert a1 == (a1 + b1)[..|a1|];
    assert a2 == (a2 + b2)[..|a2|];
    assert b1 == (a1 + b1)[|a1|..];
    assert b2 == (a2 + b2)[|a2|..];
  }

  lemma NoDuplicatePages()
    ensures NoDuplicates(Pages())
  {
    PagesOrder();
    AllToolsComplete();
    forall i, j | 0 <= i < j < 25 ensures Pages()[i] != Pages()[j] {
      if 5 <= i {
        assert AllTools[i - 5] != AllTools[j - 5];
      }
    }
  }

  /** The 75 `<loc>` values are pairwise distinct. */
  lemma LocsDistinct()
    ensures forall i, j :: 0 <= i < j < |Urls()| ==> Urls()[i].loc != Urls()[j].loc
  {
    SitemapOrder();
    PagesListed();
    NoDuplicatePages();
    forall i, j | 0 <= i < j < |Urls()| ensures Urls()[i].loc != Urls()[j].loc {
      LocsDiffer(Pages(), i, j);
    }
  }

  lemma LocsDiffer(pages: seq<Page>, i: nat, j: nat)
    requires i < j < 3 * |pages|
    requires forall k :: 0 <= k < |pages| ==> ListedPage(pages[k])
    requires NoDuplicates(pages)
    ensures UrlsOf(pages)[i].loc != UrlsOf(pages)[j].loc
  {
    DivModDiffer(i, j, |pages|);
    LocIndex(pages, i);
    LocIndex(pages, j);
    var p1, l1 := pages[i / 3], Langs[i % 3];
    var p2, l2 := pages[j / 3], Langs[j % 3];
    if i / 3 == j / 3 {
      LangsDistinct(i % 3, j % 3);
    } else {
      assert p1 != p2;
    }
    LocOfDiffers(p1, l1, p2, l2);
  }

  lemma LocIndex(pages: seq<Page>, i: nat)
    requires i < 3 * |pages|
    ensures UrlsOf(pages)[i].loc == BaseUrl + PagePath(pages[i / 3], Langs[i % 3])
  {
    UrlsOfIndex(pages, i);
  }

  lemma LangsDistinct(a: nat, b: nat)
    requires a < 3 && b < 3 && a != b
    ensures Langs[a] != Langs[b]
  {
  }

  lemma DivModDiffer(i: nat, j: nat, n: nat)
    requires i < j < 3 * n
    ensures i / 3 != j / 3 || i % 3 != j % 3
    ensures i / 3 < n && j / 3 < n
  {
    assert i == 3 * (i / 3) + i % 3;
    assert j == 3 * (j / 3) + j % 3;
  }

  /** Two different (page, language) pairs of the listing have different locations. */
  lemma LocOfDiffers(p1: Page, l1: Lang, p2: Page, l2: Lang)
    requires ListedPage(p1) && ListedPage(p2)
    requires p1 != p2 || l1 != l2
    ensures BaseUrl + PagePath(p1, l1) != BaseUrl + PagePath(p2, l2)
  {
    if BaseUrl + PagePath(p1, l1) == BaseUrl + PagePath(p2, l2) {
      SplitEqual(BaseUrl, PagePath(p1, l1), BaseUrl, PagePath(p2, l2));
      PagePathInjective(p1, l1, p2, l2);
    }
  }

  // ---------------------------------------------------------------------------
  // The text of the document.

  const XmlHead: string :=
    "<?xml version=\"1.0\" encoding=\"UTF-8\"?>\n"
    + "<urlset xmlns=\"http://www.sitemaps.org/schemas/sitemap/0.9\"\n"
    + "        xmlns:xhtml=\"http://www.w3.org/1999/xhtml\">\n"

  const XmlFoot: string := "</urlset>\n"

  /** The text is described the way the generator writes it: each function
      says what a piece of the generator appends to the text `xml` so far. */
  function AlternateLine(a: Alternate): string {
    "    <xhtml:link rel=\"alternate\" hreflang=\"" + a.hreflang + "\" href=\"" + a.href + "\" />\n"
  }

  function WriteAlternates(xml: string, alts: seq<Alternate>): string {
    if alts == [] then xml else WriteAlternates(xml, alts[..|alts| - 1]) + AlternateLine(alts[|alts| - 1])
  }

  function LocLine(loc: string): string {
    "    <loc>" + loc + "</loc>\n"
  }

  function WriteUrl(xml: string, u: Url): string {
    WriteAlternates(xml + "  <url>\n" + LocLine(u.loc), u.alternates) + "  </url>\n"
  }

  function WriteUrls(xml: string, us: seq<Url>): string {
    if us == [] then xml else WriteUrl(WriteUrls(xml, us[..|us| - 1]), us[|us| - 1])
  }

  /** The whole document. */
  function SitemapXml(): string {
    WriteUrls(XmlHead, Urls()) + XmlFoot
  }

  /** Writing never takes back what was written. */
  lemma {:induction false} WriteUrlsExtends(xml: string, us: seq<Url>)
    ensures xml <= WriteUrls(xml, us)
    decreases |us|
  {
    if us != [] {
      WriteUrlsExtends(xml, us[..|us| - 1]);
      var before := WriteUrls(xml, us[..|us| - 1]);
      WriteAlternatesExtends(before + "  <url>\n" + LocLine(us[|us| - 1].loc), us[|us| - 1].alternates);
    }
  }

  lemma {:induction false} WriteAlternatesExtends(xml: string, alts: seq<Alternate>)
    ensures xml <= WriteAlternates(xml, alts)
    decreases |alts|
  {
    if alts != [] {
      WriteAlternatesExtends(xml, alts[..|alts| - 1]);
    }
  }

  /** The document opens with the XML declaration and the `urlset` element
      with the sitemap and xhtml namespaces, and closes that element. */
  lemma SitemapFrame()
    ensures XmlHead <= SitemapXml()
    ensures |XmlFoot| <= |SitemapXml()| && SitemapXml()[|SitemapXml()| - |XmlFoot|..] == XmlFoot
  {
    var body := WriteUrls(XmlHead, Urls());
    WriteUrlsExtends(XmlHead, Urls());
    assert (body + XmlFoot)[|body|..] == XmlFoot;
  }

  // ---------------------------------------------------------------------------
  // The generator.

  lemma {:induction false} WriteUrlsAppend(xml: string, a: seq<Url>, b: seq<Url>)
    ensures WriteUrls(WriteUrls(xml, a), b) == WriteUrls(xml, a + b)
    decreases |b|
  {
    if b == [] {
      assert a + b == a;
    } else {
      var b' := b[..|b| - 1];
      assert (a + b)[..|a + b| - 1] == a + b';
      WriteUrlsAppend(xml, a, b');
    }
  }

  lemma AlternatesStep(xml: string, p: Page, ls: seq<Lang>, j: nat)
    requires j < |ls|
    ensures WriteAlternates(xml, AlternatesFor(p, ls[..j + 1]))
      == WriteAlternates(xml, AlternatesFor(p, ls[..j])) + AlternateLine(Alternate(Code(ls[j]), BaseUrl + PagePath(p, ls[j])))
  {
    assert ls[..j + 1][..j] == ls[..j];
  }

  lemma PageUrlsStep(xml: string, p: Page, ls: seq<Lang>, j: nat)
    requires j < |ls|
    ensures WriteUrls(xml, PageUrls(p, ls[..j + 1])) == WriteUrl(WriteUrls(xml, PageUrls(p, ls[..j])), UrlOf(p, ls[j]))
  {
    assert ls[..j + 1][..j] == ls[..j];
  }

  /** One `<url>` element: the inner `langs.forEach` writes the alternates. */
  method AppendUrl(xml: string, p: Page, lang: Lang) returns (out: string)
    ensures out == WriteUrl(xml, UrlOf(p, lang))
  {
    out := xml + "  <url>\n";
    out := out + LocLine(BaseUrl + PagePath(p, lang));
    ghost var start := out;
    var j := 0;
    while j < |Langs|
      invariant 0 <= j <= |Langs|
      invariant out == WriteAlternates(start, AlternatesFor(p, Langs[..j]))
    {
      var l := Langs[j];
      out := out + AlternateLine(Alternate(Code(l), BaseUrl + PagePath(p, l)));
      AlternatesStep(start, p, Langs, j);
      j := j + 1;
    }
    assert Langs[..|Langs|] == Langs;
    out := out + "  </url>\n";
  }

  /** The `<url>` elements of one page, one per language (the middle `langs.forEach`). */
  method AppendPage(xml: string, p: Page) returns (out: string)
    ensures out == WriteUrls(xml, PageUrls(p, Langs))
  {
    out := xml;
    var j := 0;
    while j < |Langs|
      invariant 0 <= j <= |Langs|
      invariant out == WriteUrls(xml, PageUrls(p, Langs[..j]))
    {
      out := AppendUrl(out, p, Langs[j]);
      PageUrlsStep(xml, p, Langs, j);
      j := j + 1;
    }
    assert Langs[..|Langs|] == Langs;
  }

  /** Writing the elements of one more page extends the text by that page's entries. */
  lemma PagesStep(xml: string, pages: seq<Page>, i: nat, p: Page)
    requires i < |pages| && pages[i] == p
    ensures WriteUrls(xml, UrlsOf(pages[..i + 1])) == WriteUrls(WriteUrls(xml, UrlsOf(pages[..i])), PageUrls(p, Langs))
  {
    assert pages[..i + 1][..i] == pages[..i];
    WriteUrlsAppend(xml, UrlsOf(pages[..i]), PageUrls(p, Langs));
  }

  lemma {:induction false} UrlsOfAppend(a: seq<Page>, b: seq<Page>)
    ensures UrlsOf(a + b) == UrlsOf(a) + UrlsOf(b)
    decreases |b|
  {
    if b == [] {
      assert a + b == a;
    } else {
      var b' := b[..|b| - 1];
      var last := b[|b| - 1];
      assert (a + b)[..|a + b| - 1] == a + b';
      assert (a + b)[|a + b| - 1] == last;
      UrlsOfAppend(a, b');
      AppendAssoc(UrlsOf(a), UrlsOf(b'), PageUrls(last, Langs));
    }
  }

  lemma AppendAssoc(x: seq<Url>, y: seq<Url>, z: seq<Url>)
    ensures x + y + z == x + (y + z)
  {
  }

  lemma ToolPageListAppend(a: seq<ToolId>, b: seq<ToolId>)
    ensures ToolPageList(a + b) == ToolPageList(a) + ToolPageList(b)
  {
  }

  lemma {:induction false} CategoryToolsSnoc(cats: seq<Category>, c: Category)
    ensures CategoryTools(cats + [c]) == CategoryTools(cats) + c.tools
  {
    if cats == [] {
      assert cats + [c] == [c];
    } else {
      assert (cats + [c])[1..] == cats[1..] + [c];
      CategoryToolsSnoc(cats[1..], c);
    }
  }

  /** Writing the pages of one more category. */
  lemma CategoryStep(xml: string, c: nat)
    requires c < |Categories|
    ensures WriteUrls(xml, UrlsOf(ToolPageList(CategoryTools(Categories[..c + 1]))))
      == WriteUrls(WriteUrls(xml, UrlsOf(ToolPageList(CategoryTools(Categories[..c])))), UrlsOf(ToolPageList(Categories[c].tools)))
  {
    var before := CategoryTools(Categories[..c]);
    assert Categories[..c + 1] == Categories[..c] + [Categories[c]];
    CategoryToolsSnoc(Categories[..c], Categories[c]);
    ToolPageListAppend(before, Categories[c].tools);
    UrlsOfAppend(ToolPageList(before), ToolPageList(Categories[c].tools));
    WriteUrlsAppend(xml, UrlsOf(ToolPageList(before)), UrlsOf(ToolPageList(Categories[c].tools)));
  }

  /** The legal pages, page by page (`legalPages.forEach`). */
  method AppendLegalPages(xml: string) returns (out: string)
    ensures out == WriteUrls(xml, UrlsOf(LegalPageList(LegalPages)))
  {
    ghost var pages := LegalPageList(LegalPages);
    out := xml;
    var i := 0;
    while i < |LegalPages|
      invariant 0 <= i <= |LegalPages|
      invariant out == WriteUrls(xml, UrlsOf(pages[..i]))
    {
      var page := LegalPage(LegalPages[i]);
      out := AppendPage(out, page);
      PagesStep(xml, pages, i, page);
      i := i + 1;
    }
    assert pages[..|LegalPages|] == pages;
  }

  /** The tools of one category (`category.tools.forEach`). */
  method AppendCategory(xml: string, tools: seq<ToolId>) returns (out: string)
    ensures out == WriteUrls(xml, UrlsOf(ToolPageList(tools)))
  {
    ghost var pages := ToolPageList(tools);
    out := xml;
    var k := 0;
    while k < |tools|
      invariant 0 <= k <= |tools|
      invariant out == WriteUrls(xml, UrlsOf(pages[..k]))
    {
      var page := ToolPage(tools[k]);
      out := AppendPage(out, page);
      PagesStep(xml, pages, k, page);
      k := k + 1;
    }
    assert pages[..|tools|] == pages;
  }

  /** The tools, category by category (`categories.forEach`). */
  method AppendTools(xml: string) returns (out: string)
    ensures out == WriteUrls(xml, UrlsOf(ToolPageList(CategoryTools(Categories))))
  {
    out := xml;
    var c := 0;
    while c < |Categories|
      invariant 0 <= c <= |Categories|
      invariant out == WriteUrls(xml, UrlsOf(ToolPageList(CategoryTools(Categories[..c]))))
    {
      out := AppendCategory(out, Categories[c].tools);
      CategoryStep(xml, c);
      c := c + 1;
    }
    assert Categories[..|Categories|] == Categories;
  }

  /** The program: the header, the home pages, the legal pages, the tools and
      the closing tag, in that order. */
  method GenerateSitemap() returns (xml: string)
    ensures xml == SitemapXml()
  {
    xml := XmlHead;
    xml := AppendPage(xml, HomePage);
    ghost var home := WriteUrls(XmlHead, UrlsOf([HomePage]));
    assert UrlsOf([HomePage]) == PageUrls(HomePage, Langs) by {
      assert [HomePage][..0] == [];
    }
    xml := AppendLegalPages(xml);
    xml := AppendTools(xml);
    ghost var legal := LegalPageList(LegalPages);
    ghost var tools := ToolPageList(CategoryTools(Categories));
    WriteUrlsAppend(XmlHead, UrlsOf([HomePage]), UrlsOf(legal));
    UrlsOfAppend([HomePage], legal);
    WriteUrlsAppend(XmlHead, UrlsOf([HomePage] + legal), UrlsOf(tools));
    UrlsOfAppend([HomePage] + legal, tools);
    xml := xml + XmlFoot;
  }
}
