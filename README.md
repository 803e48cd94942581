# AllTools — a verified model of the site's routing and tool logic

AllTools is a multilingual (English, Portuguese, Spanish) single-page site of
small browser tools. This project models two parts of it in Dafny:

* **The localized routing and catalog layer.**
  * The static catalog: 20 tool ids, each with an `en`/`pt`/`es` URL slug, in
    five ordered categories.
  * The root redirect that negotiates the language, and the route table.
  * The tool page's slug resolver: first match wins, and a miss redirects.
  * The layout's language-sync effect.
  * The header's language switch, which rewrites the path.
  * The links of the home page.
  * The build-time sitemap generator, which writes the Sitemaps XML protocol
    0.9 document with `xhtml:link rel="alternate"` entries.
* **The deterministic logic of the individual tools.**
  * Text statistics (character counter).
  * Character set, draw and strength rule (password generator).
  * Tag list construction (hashtag generator).
  * Borrowing date difference (age calculator).
  * Page-range guard and index list (split PDF).
  * File-list state and page concatenation (merge PDF).
  * Extension and file-name mapping (convert image).
  * Hex key parse and in-place alpha keying of an RGBA buffer (remove background).
  * Template choice (bio generator).

Each module follows one source file:

| module | source file |
|---|---|
| `Catalog`, `SlugShape` | `src/config/tools.ts` |
| `ToolWrapper` | `src/pages/ToolWrapper.tsx` |
| `App`, `Language` | `src/App.tsx` (the tag derivation is shared with `Header.tsx:26` and `Home.tsx:19`) |
| `Layout` | `src/components/Layout.tsx` |
| `Header` | `src/components/Header.tsx` |
| `Home` | `src/pages/Home.tsx` |
| `Sitemap` | `generate-sitemap.js` |
| `CharacterCounter` | `src/tools/Social/CharacterCounter.tsx` |
| `PasswordGenerator` | `src/tools/Utilities/PasswordGenerator.tsx` |
| `HashtagGenerator` | `src/tools/Social/HashtagGenerator.tsx` |
| `AgeCalculator` | `src/tools/Utilities/AgeCalculator.tsx` |
| `PdfFiles`, `SplitPdf` | `src/tools/Pdf/SplitPdf.tsx` |
| `MergePdf` | `src/tools/Pdf/MergePdf.tsx` |
| `ConvertImage` | `src/tools/Image/ConvertImage.tsx` |
| `RemoveBackground` | `src/tools/Image/RemoveBackground.tsx` |
| `BioGenerator` | `src/tools/Social/BioGenerator.tsx` |
| `Strings`, `Wrappers` | shared: JavaScript `split`/`join`/`filter(Boolean)`/`trim`/`toLowerCase` on ASCII, and `Option` |

The code is modelled in its own form:

* React state that a handler updates becomes a `class` whose methods carry
  `modifies` clauses. This covers `Splitter`, `Merger`, the hashtag and
  password `Generator`s, `Calculator`, `HeaderState` and the i18n instance
  `I18n`.
* The loops of the source are `while` loops with invariants. These are:
  * the resolver scan `FindToolId`;
  * the password draw `DrawPassword`;
  * the merge loop `MergePdfs`;
  * the page copy `CopyPages`;
  * the stride-4 pass over the pixel `array` in `RemoveColor`;
  * the nested `forEach` loops that grow the sitemap string, in
    `AppendLegalPages`, `AppendCategory` and `AppendTools`.
* Pure expressions become functions.

Each method is proved against a specification function. Lemmas then state
what the source promises about that function.

Two behaviours of the code are worth noting:

* The resolver returns the *first* tool, in `toolPaths` declaration order,
  whose slug matches. It does not report an ambiguity.
* The language switch in the header replaces only the language segment. It
  does *not* translate the tool slug. `Header.SwitchOnToolPage` states the
  consequence: after a switch, the tool page resolves its slug against the new
  language and redirects to that language's home page unless the slug happens
  to be shared.

## Model

| member | source | states |
|---|---|---|
| Catalog.LangOf | src/config/tools.ts:25-116 | a string names a supported language exactly when it equals that language's code, compared case-sensitively |
| Catalog.Slug | src/config/tools.ts:25-116 | the `toolPaths` table: the en, pt and es slug of each of the 20 tools, as written in the source |
| Catalog.PathFor | src/pages/ToolWrapper.tsx:59 | `toolPaths[t][lang]` is present exactly for the three codes, and is then the tool's slug in that language |
| Catalog.IndexOf | src/config/tools.ts:25-116 | every tool has a position in the declaration order of `toolPaths` |
| Catalog.AllToolsComplete | src/config/tools.ts:1-23 | the key list of `toolPaths` has 20 entries, has no repeats, and holds every `ToolId` |
| Catalog.SlugInjective | src/config/tools.ts:25-116 | within one language no two tools share a slug |
| Catalog.SlugInjectiveEn | src/config/tools.ts:25-116 | no two English slugs coincide |
| Catalog.SlugInjectivePt | src/config/tools.ts:25-116 | no two Portuguese slugs coincide |
| Catalog.SlugInjectiveEs | src/config/tools.ts:25-116 | no two Spanish slugs coincide |
| Catalog.SlugsSharedAcrossLanguages | src/config/tools.ts:40-41 | "unir-pdf" is both the Portuguese and the Spanish slug of merge-pdf, and the same holds for split-pdf and character-counter, so uniqueness holds per language only |
| Catalog.SlugNotReserved | src/config/tools.ts:25-116 | no slug in any language equals privacy, terms, cookies or contact |
| Catalog.NotReservedIn | src/App.tsx:23-26 | the four legal segments are free of every slug of a language |
| Catalog.WellFormedSlugIsSegment | src/config/tools.ts:25-116 | a slug of lowercase letters, digits and '-' is a non-empty path segment with no '/' |
| Catalog.CategoriesPartition | src/config/tools.ts:119-162 | the category tool lists, in order, are exactly the 20 ids in declaration order, sized 5, 5, 3, 3 and 4 |
| Catalog.CategoryTools | src/config/tools.ts:119-162 | the tool lists of the categories, concatenated in category order |
| Catalog.CategoryIds | src/config/tools.ts:119-162 | one id per category, in category order |
| Catalog.CategoryOrder | src/config/tools.ts:119-162 | the categories are pdf, image, finance, social and utilities, in that order, with distinct ids |
| Catalog.CategoryOf | src/config/tools.ts:119-162 | every tool lies in some category |
| Catalog.CategoryUnique | src/config/tools.ts:119-162 | a tool lies in exactly one category |
| Catalog.CategoryToolsKnown | src/config/tools.ts:119-162 | every tool a category names is a key of `toolPaths` |
| SlugShape.SlugWellFormed | src/config/tools.ts:25-116 | every slug in every language is non-empty and uses only lowercase letters, digits and '-' |
| SlugShape.WellFormedInEn | src/config/tools.ts:25-116 | every English slug is well formed |
| SlugShape.WellFormedInPt | src/config/tools.ts:25-116 | every Portuguese slug is well formed |
| SlugShape.WellFormedInEs | src/config/tools.ts:25-116 | every Spanish slug is well formed |
| SlugShape.PdfEn | src/config/tools.ts:25-41 | the English slugs of the PDF tools are well formed |
| SlugShape.PdfPt | src/config/tools.ts:25-41 | the Portuguese slugs of the PDF tools are well formed |
| SlugShape.PdfEs | src/config/tools.ts:25-41 | the Spanish slugs of the PDF tools are well formed |
| SlugShape.ImageEn | src/config/tools.ts:42-66 | the English slugs of the image tools are well formed |
| SlugShape.ImagePt | src/config/tools.ts:42-66 | the Portuguese slugs of the image tools are well formed |
| SlugShape.ImageEs | src/config/tools.ts:42-66 | the Spanish slugs of the image tools are well formed |
| SlugShape.FinanceEn | src/config/tools.ts:67-81 | the English slugs of the finance tools are well formed |
| SlugShape.FinancePt | src/config/tools.ts:67-81 | the Portuguese slugs of the finance tools are well formed |
| SlugShape.FinanceEs | src/config/tools.ts:67-81 | the Spanish slugs of the finance tools are well formed |
| SlugShape.SocialEn | src/config/tools.ts:82-96 | the English slugs of the social tools are well formed |
| SlugShape.SocialPt | src/config/tools.ts:82-96 | the Portuguese slugs of the social tools are well formed |
| SlugShape.SocialEs | src/config/tools.ts:82-96 | the Spanish slugs of the social tools are well formed |
| SlugShape.UtilitiesEn | src/config/tools.ts:97-116 | the English slugs of the utilities are well formed |
| SlugShape.UtilitiesPt | src/config/tools.ts:97-116 | the Portuguese slugs of the utilities are well formed |
| SlugShape.UtilitiesEs | src/config/tools.ts:97-116 | the Spanish slugs of the utilities are well formed |
| ToolWrapper.FirstMatch | src/pages/ToolWrapper.tsx:58-62 | the scan from position i stops at the first matching tool, or at the end when none matches |
| ToolWrapper.Matches | src/pages/ToolWrapper.tsx:58 | a tool matches when `paths[lang]` exists and equals `toolPath` exactly, compared case-sensitively |
| ToolWrapper.Resolve | src/pages/ToolWrapper.tsx:57-63 | the tool at the first matching position of the declaration order, or none when the scan runs off the end |
| ToolWrapper.FindToolId | src/pages/ToolWrapper.tsx:57-63 | the `for ... of` loop with `break` finds the first match, and finds nothing exactly when no tool's slug for `lang` equals `toolPath` |
| ToolWrapper.ResolveMeaning | src/pages/ToolWrapper.tsx:57-63 | the result is absent exactly when no tool matches; otherwise it matches and comes no later in declaration order than any other match |
| ToolWrapper.ResolveSlug | src/pages/ToolWrapper.tsx:58-63 | round trip: resolving a tool's own slug under a supported language gives back that tool |
| ToolWrapper.UnsupportedLangResolvesNothing | src/pages/ToolWrapper.tsx:59 | under an unsupported `lang` no tool matches, whatever the slug |
| ToolWrapper.EnglishSlugUnderPortuguese | src/pages/ToolWrapper.tsx:59 | the English slug "merge-pdf" resolves to nothing under pt |
| ToolWrapper.NotAPortugueseSlug | src/config/tools.ts:25-116 | no Portuguese slug is "merge-pdf" or "image-compressor" |
| ToolWrapper.EnglishCompressorUnderPortuguese | src/pages/ToolWrapper.tsx:59 | the English "image-compressor" resolves to nothing under pt |
| ToolWrapper.SharedSlugUnderSpanish | src/pages/ToolWrapper.tsx:58-63 | the Portuguese slug "unir-pdf", which Spanish shares, resolves to merge-pdf under es |
| ToolWrapper.ComponentOf | src/pages/ToolWrapper.tsx:29-50 | the dispatch is total: pdf-to-word, word-to-pdf and compress-pdf show the placeholder, and every other tool its own component |
| ToolWrapper.Render | src/pages/ToolWrapper.tsx:57-69 | the page redirects, replacing history, to "/" + lang exactly when no tool matches; otherwise it shows the resolved tool's component |
| ToolWrapper.ViewOf | src/pages/ToolWrapper.tsx:65-69 | a view is a redirect to "/" + lang exactly when resolution fails |
| ToolWrapper.OwnSlugShowsTool | src/pages/ToolWrapper.tsx:58-69 | a tool's own slug in a supported language shows that tool's component |
| Language.PrimaryTag | src/App.tsx:11 | the part of the language tag before the first '-', or "en" when that part is empty; never empty and never holding '-' |
| Language.PrimaryTagIsFirstPiece | src/App.tsx:11 | that part is the first piece of `split("-")`, with "en" replacing an empty piece |
| Language.Negotiate | src/App.tsx:12 | the negotiated language is always en, pt or es; a supported tag is kept, anything else becomes "en" |
| Language.PrimaryTagOfCode | src/App.tsx:11 | a bare language code is its own primary tag |
| Language.I18n.ChangeLanguage | src/components/Layout.tsx:13 | `changeLanguage` sets the current language |
| App.RootRedirect | src/App.tsx:9-14 | the redirect always replaces history and goes to "/" plus one of the three codes: the detected language when supported, "/en" otherwise |
| App.RootRedirectExamples | src/App.tsx:11-13 | "pt-BR" goes to "/pt" and "es" to "/es" |
| App.RootRedirectFallbacks | src/App.tsx:11-13 | "de-DE" and the empty tag go to "/en" |
| App.Route | src/App.tsx:20-27 | no segment is the root redirect, and one segment is the home page; two segments are a legal page exactly when the second, in lower case, is privacy, terms, cookies or contact (the page shown is that name), and the tool page otherwise; more segments match nothing; the language and tool segments are passed as is |
| App.RouteOfJoin | src/App.tsx:20-27 | a path of clean segments, with or without one trailing slash, renders the route of those segments |
| App.RoutePair | src/App.tsx:20-27 | "/" + lang + "/" + s, with or without a trailing slash, routes as the two segments do |
| App.TrimTrailingSlashes | src/App.tsx:20-27 | the pathname without its trailing slashes: a prefix of it, not ending in '/', and only slashes were cut |
| App.PathSegments | src/App.tsx:20-27 | the segments matched against the routes are non-empty and slash-free and, after a '/', join back to the pathname without its trailing slashes; there are none exactly when the path is empty, does not start with '/' or holds "//" before its trailing slashes; they are the empty list exactly for a path of slashes only |
| App.RouteOf | src/App.tsx:20-27 | the root redirect exactly for a path of slashes only; no route for an empty path, one not starting with '/', or one holding "//" before its trailing slashes; otherwise the route of its segments |
| App.TrimJoinedPath | src/App.tsx:20-27 | "/" + a join of clean segments loses only its one optional trailing slash when trailing slashes are trimmed |
| App.PathSegmentsOfJoin | src/App.tsx:20-27 | "/" + non-empty slash-free segments joined by '/', with or without a trailing slash, is matched as exactly those segments |
| App.SlugIsLower | src/App.tsx:23-27 | a well-formed slug is unchanged by lowering, so the case-insensitive legal routes see it as written |
| App.ToolSlugRoutesToTool | src/App.tsx:23-27 | a language code followed by a tool's slug always reaches the tool page, never a legal page |
| App.LangNotValidated | src/App.tsx:22-27 | the route table never checks the `:lang` segment: any language reaches the home page, and with a second segment the legal page when that segment lowers to a legal name and the tool page otherwise |
| App.LegalRouteIgnoresCase | src/App.tsx:23-26 | "/" + lang + "/" + s, with or without a trailing slash, renders the legal page `Lower(s)` whenever `s` lowers to privacy, terms, cookies or contact, whatever the case of `s` |
| App.DoubledSlashMatchesNothing | src/App.tsx:20-27 | any path holding "//" somewhere before a non-slash character matches no route |
| App.TrailingSlashIgnored | src/App.tsx:20-27 | a trailing slash after a non-empty path changes neither its segments nor its route |
| Layout.Synced | src/components/Layout.tsx:11-15 | the language is unchanged when the route has no `lang` or an unsupported one; otherwise it becomes `lang` |
| Layout.SyncLanguage | src/components/Layout.tsx:11-15 | the effect leaves i18n's language as `Synced` describes, and touches nothing when it already equals the result |
| Layout.SyncedIdempotent | src/components/Layout.tsx:12 | running the effect a second time changes nothing |
| Layout.SyncedPagesAgree | src/components/Layout.tsx:12-14 | on a page of a supported language the derived current language is that language afterwards |
| Layout.SyncedExample | src/components/Layout.tsx:12-14 | "pt-BR" with `lang` "pt" becomes "pt"; "de" is ignored; a missing `lang` changes nothing |
| Header.HeaderState.ChangeLanguage | src/components/Header.tsx:12-24 | the switch navigates to `SwitchPath`, sets the i18n language and closes the menu |
| Header.SwitchPath | src/components/Header.tsx:12-20 | replaces the first segment when it is en, pt or es and joins the segments behind one "/"; otherwise puts "/" + lng in front of the unchanged path |
| Header.SwitchSegments | src/components/Header.tsx:14-20 | on a language-prefixed path only the first segment is replaced and the rest are kept verbatim; otherwise `lng` is put in front of the unchanged segments |
| Header.SwitchTargetsLanguage | src/components/Header.tsx:16-21 | the first segment of the target is always the new language |
| Header.SwitchToSameLanguage | src/components/Header.tsx:14-18 | switching to the current language yields the path with empty segments, and hence duplicate or trailing slashes, removed |
| Header.SwitchKeepsSlug | src/components/Header.tsx:16-18 | "/from/slug" becomes "/lng/slug": the slug is not translated |
| Header.SwitchOnToolPage | src/components/Header.tsx:16-18 | switching a tool page keeps the old slug, and the tool page then redirects to the new home page exactly when no tool has that slug in the new language |
| Home.LinkTarget | src/pages/Home.tsx:68-75 | a card links to "/" + currentLang + "/" + the slug when the language is supported, and to ".../undefined" otherwise |
| Home.ToolLinks | src/pages/Home.tsx:67-75 | one link per tool of the category, in order |
| Home.Sections | src/pages/Home.tsx:55-64 | one section per category, in order, with its id, icon and links |
| Home.HomeSections | src/pages/Home.tsx:55-75 | the sections of the page for the derived `currentLang`, over the catalog's categories |
| Home.AllLinks | src/pages/Home.tsx:55-75 | the links of all sections, section by section, in order |
| Home.LinksFollowCategories | src/pages/Home.tsx:55-75 | the page's links are the categories' tools, category order first and tool order second |
| Home.OneLinkPerTool | src/pages/Home.tsx:19 | the page emits exactly one link per tool, in `toolPaths` order |
| Home.LinkSegments | src/pages/Home.tsx:75 | the router matches a link path as the language and the slug |
| Home.LinksResolve | src/pages/Home.tsx:55-75 | with a supported language every link routes to the tool page, and that page shows the very tool of the card |
| Home.UnsupportedLanguageLinks | src/pages/Home.tsx:68-75 | with an unsupported language every link ends in "undefined" and its page redirects home |
| Home.Alternates | src/pages/Home.tsx:26-40 | exactly three alternate links, hreflang en, pt and es, each pointing at origin + "/" + code |
| Sitemap.PagesOrder | generate-sitemap.js:14-49 | there are 25 pages: the home page first, then the four legal pages in order, then the 20 tools in category order |
| Sitemap.Pages | generate-sitemap.js:14-49 | the logical pages the script visits: the home page, the legal pages, then every tool of every category |
| Sitemap.PagesListed | generate-sitemap.js:24 | every listed legal page is one of the four legal pages |
| Sitemap.UrlsOf | generate-sitemap.js:14-49 | three entries per page |
| Sitemap.UrlsOfIndex | generate-sitemap.js:14-49 | entry i is the one for page i / 3 in language i % 3, so the pages come in order and the languages cycle inside each page |
| Sitemap.SitemapOrder | generate-sitemap.js:14-49 | the sitemap has 3 × (1 + 4 + 20) = 75 entries, in that order |
| Sitemap.UrlShape | generate-sitemap.js:16-19 | each entry has exactly three alternates, hreflang en, pt and es in order; the alternate of its own language equals its `<loc>`; each alternate's href is that language's page |
| Sitemap.ToolLoc | generate-sitemap.js:39-41 | a tool's `<loc>` is baseUrl + "/" + lang + "/" + its slug in that language |
| Sitemap.PagePathInjective | generate-sitemap.js:27 | two listed pages share a path only when they are the same page in the same language |
| Sitemap.NoDuplicatePages | generate-sitemap.js:14-49 | no page is listed twice |
| Sitemap.LocsDistinct | generate-sitemap.js:14-49 | all 75 `<loc>` values are distinct |
| Sitemap.LocsDiffer | generate-sitemap.js:16 | in the entries of distinct listed pages no two `<loc>`s coincide |
| Sitemap.SitemapFrame | generate-sitemap.js:8-11 | the document starts with the XML declaration and the `urlset` carrying the sitemaps 0.9 and xhtml namespaces, and ends with "</urlset>\n" |
| Sitemap.WriteUrlsExtends | generate-sitemap.js:15-20 | writing entries only appends to the text |
| Sitemap.WriteUrlsAppend | generate-sitemap.js:14-49 | writing two lists of entries one after the other is writing their concatenation |
| Sitemap.UrlsOfAppend | generate-sitemap.js:14-49 | the entries of two page lists are the entries of each, in order |
| Sitemap.AppendUrl | generate-sitemap.js:15-20 | the loop body writes one `<url>` block: `<loc>`, then the three alternate lines in language order, then the closing tag |
| Sitemap.AppendPage | generate-sitemap.js:14-21 | the `langs.forEach` loop writes a page's three entries in language order |
| Sitemap.AppendLegalPages | generate-sitemap.js:24-33 | the legal-page loops write page-major, with language inner |
| Sitemap.AppendCategory | generate-sitemap.js:37-48 | a category's tools are written in order, each in every language |
| Sitemap.AppendTools | generate-sitemap.js:36-49 | the tools are written category by category |
| Sitemap.GenerateSitemap | generate-sitemap.js:8-51 | the generated text is exactly the document `SitemapXml` describes, a deterministic function of the catalog |
| Sitemap.SitemapXml | generate-sitemap.js:8-51 | the whole document: the header, one `<url>` block per entry of `Urls()`, and the closing `</urlset>` |
| CharacterCounter.RemoveSpaces | src/tools/Social/CharacterCounter.tsx:17 | the text with every whitespace character removed is no longer and holds no whitespace |
| CharacterCounter.RemoveSpacesMeaning | src/tools/Social/CharacterCounter.tsx:17 | it keeps every other character as often as the text holds it; it keeps the length exactly when there is no whitespace; it is empty exactly when the text is blank |
| CharacterCounter.RemoveSpacesUtf16 | src/tools/Social/CharacterCounter.tsx:16-17 | the UTF-16 units removed are exactly the characters removed, since whitespace takes one unit each |
| CharacterCounter.WordsCountsRuns | src/tools/Social/CharacterCounter.tsx:18 | `words` is the number of maximal non-whitespace runs, and 0 exactly when the trimmed text is empty |
| CharacterCounter.PiecesFollowWords | src/tools/Social/CharacterCounter.tsx:18 | splitting on whitespace runs gives one piece more than word starts after the first |
| CharacterCounter.TrimKeepsWords | src/tools/Social/CharacterCounter.tsx:18 | trimming keeps the words |
| CharacterCounter.Words | src/tools/Social/CharacterCounter.tsx:18 | 0 for a blank text, otherwise the number of pieces of the trimmed text split on whitespace runs |
| CharacterCounter.LinesCountsNewlines | src/tools/Social/CharacterCounter.tsx:19 | `lines` is 0 for the empty text and otherwise one more than the number of newlines |
| CharacterCounter.Lines | src/tools/Social/CharacterCounter.tsx:19 | 0 for the empty text, otherwise the number of pieces of a split on '\n' |
| CharacterCounter.LastNewline | src/tools/Social/CharacterCounter.tsx:23 | the index of the last newline of a string, absent exactly when it has none |
| CharacterCounter.SeparatorAt | src/tools/Social/CharacterCounter.tsx:23 | the match at the start of the text is a newline, whitespace and a newline; one is found whenever any separator starts the text, and it is the longest one, as the greedy `\s*` gives |
| CharacterCounter.SplitParagraphs | src/tools/Social/CharacterCounter.tsx:23 | `split(/\n\s*\n/)`: the pieces between the longest separators found from left to right, at least one piece |
| CharacterCounter.NonBlankPieces | src/tools/Social/CharacterCounter.tsx:23 | `filter((p) => p.trim() !== "")`: the pieces that are not blank, in order |
| CharacterCounter.Paragraphs | src/tools/Social/CharacterCounter.tsx:20-23 | 0 for the empty text, otherwise the number of non-blank pieces of the paragraph split |
| CharacterCounter.BlankPrefixRemoved | src/tools/Social/CharacterCounter.tsx:23 | a blank prefix leaves nothing once whitespace is removed |
| CharacterCounter.PiecesKeepText | src/tools/Social/CharacterCounter.tsx:23 | the paragraph split drops only whitespace: the pieces hold every other character of the text, in order |
| CharacterCounter.NoPiecesIffBlank | src/tools/Social/CharacterCounter.tsx:23 | no piece survives the non-blank filter exactly when the pieces hold no visible character |
| CharacterCounter.PiecesBoundedByNewlines | src/tools/Social/CharacterCounter.tsx:23 | the split gives at most one more piece than there are newlines |
| CharacterCounter.NonBlankPiecesAppend | src/tools/Social/CharacterCounter.tsx:23 | the `filter` distributes over concatenated piece lists |
| CharacterCounter.SeparatorThenText | src/tools/Social/CharacterCounter.tsx:23 | a separator followed by text whose leading whitespace has no newline is matched whole |
| CharacterCounter.SeparatorAtPrefix | src/tools/Social/CharacterCounter.tsx:23 | no separator runs past text whose trailing whitespace has no newline |
| CharacterCounter.SplitAroundSeparator | src/tools/Social/CharacterCounter.tsx:23 | text, a separator and text, where the whitespace touching the separator holds no other newline, split into the pieces of the first text followed by those of the second |
| CharacterCounter.NoBlankLineOnePiece | src/tools/Social/CharacterCounter.tsx:23 | text with a visible character between any two newlines is one piece |
| CharacterCounter.OneParagraph | src/tools/Social/CharacterCounter.tsx:20-23 | non-blank text without a blank line is one paragraph |
| CharacterCounter.ParagraphsAroundSeparator | src/tools/Social/CharacterCounter.tsx:20-23 | the paragraphs on the two sides of such a separator add up; since every text is pieces without blank lines between such separators, this and `OneParagraph` fix the count |
| CharacterCounter.TwoLinesTwoParagraphs | src/tools/Social/CharacterCounter.tsx:20-23 | two visible lines around a separator are two paragraphs |
| CharacterCounter.TwoParagraphs | src/tools/Social/CharacterCounter.tsx:20-23 | "Hi\n \nBye" and "a \n\n b" have two paragraphs each |
| CharacterCounter.ParagraphsMeaning | src/tools/Social/CharacterCounter.tsx:20-23 | `paragraphs` is 0 exactly when the text is blank, and never exceeds `lines` |
| CharacterCounter.StatsOf | src/tools/Social/CharacterCounter.tsx:15-26 | the five statistics: the length in UTF-16 units, between the character count and twice it; the UTF-16 length without whitespace, smaller by exactly the number of whitespace characters, so equal to the length exactly when there is no whitespace; the word runs; the newline count plus one; and the paragraphs of the split, 0 exactly when the text is blank, 1 for non-blank text without a blank line, and at most the lines |
| CharacterCounter.EmojiCountsTwice | src/tools/Social/CharacterCounter.tsx:16-17 | an emoji and a space count as 3 characters and 2 without spaces |
| CharacterCounter.ClearedStats | src/tools/Social/CharacterCounter.tsx:28 | after `clearText` all five statistics are 0 |
| CharacterCounter.BlankStats | src/tools/Social/CharacterCounter.tsx:16-23 | a whitespace-only text counts one character per whitespace character, none without spaces, no words and no paragraphs |
| PasswordGenerator.Charset | src/tools/Utilities/PasswordGenerator.tsx:16-20 | the length of the set is the sum of the enabled groups' sizes (26, 26, 10, 29), and it is empty exactly when every switch is off |
| PasswordGenerator.CharsetMembers | src/tools/Utilities/PasswordGenerator.tsx:16-20 | the set holds exactly the characters of the enabled groups, uppercase first when it is on |
| PasswordGenerator.Generator.BuildCharset | src/tools/Utilities/PasswordGenerator.tsx:16-20 | the four `+=` steps build the set of the current switches |
| PasswordGenerator.DrawIndex | src/tools/Utilities/PasswordGenerator.tsx:29 | `Math.floor(Math.random() * n)` is always an index of the set |
| PasswordGenerator.Drawn | src/tools/Utilities/PasswordGenerator.tsx:27-30 | one character per random number, each the set's character at the drawn index |
| PasswordGenerator.DrawPassword | src/tools/Utilities/PasswordGenerator.tsx:27-30 | the counted loop produces `length` characters, none when `length` is not positive, drawn as `Drawn` says |
| PasswordGenerator.Generator.GeneratePassword | src/tools/Utilities/PasswordGenerator.tsx:15-33 | the length and the four switches are unchanged; an empty set empties the password; otherwise the password is the drawn one and `copied` is reset |
| PasswordGenerator.AllSwitchesOff | src/tools/Utilities/PasswordGenerator.tsx:22-25 | with all switches off there is nothing to draw from |
| PasswordGenerator.DrawnUsesEnabledGroups | src/tools/Utilities/PasswordGenerator.tsx:27-30 | whatever the random numbers, each character comes from an enabled group |
| PasswordGenerator.ZeroDrawsFirst | src/tools/Utilities/PasswordGenerator.tsx:29 | the random number 0 picks the first character, 'A' when uppercase is on |
| PasswordGenerator.StrengthOf | src/tools/Utilities/PasswordGenerator.tsx:53-62 | Strong exactly when longer than 12 with all four switches on; Medium exactly when longer than 8 and not Strong; Weak exactly when at most 8 |
| PasswordGenerator.Generator.Strength | src/tools/Utilities/PasswordGenerator.tsx:53-62 | the strength rule applied to the current password's length and the four switches |
| PasswordGenerator.FullCharsetStrength | src/tools/Utilities/PasswordGenerator.tsx:53-62 | with every group on, a drawn password is strong exactly when it is longer than 12 |
| PasswordGenerator.Generator.CopyToClipboard | src/tools/Utilities/PasswordGenerator.tsx:45-50 | the four switches are unchanged; copying does nothing while the password is empty, and otherwise sets `copied` |
| HashtagGenerator.Tagged | src/tools/Social/HashtagGenerator.tsx:16-20 | one tag per base word, "#" + lowercase word + suffix |
| HashtagGenerator.BaseWords | src/tools/Social/HashtagGenerator.tsx:14 | the keyword split on the single space character, with empty pieces dropped |
| HashtagGenerator.Repeated | src/tools/Social/HashtagGenerator.tsx:21-23 | the fixed tag once per base word |
| HashtagGenerator.AllGroupsAt | src/tools/Social/HashtagGenerator.tsx:15-24 | entry i of group g is that group's tag for base word i |
| HashtagGenerator.SpreadAt | src/tools/Social/HashtagGenerator.tsx:15-24 | in the spread of groups of n entries each, entry i of group g sits at position g × n + i |
| HashtagGenerator.Generated | src/tools/Social/HashtagGenerator.tsx:15-24 | the generated list has 8 × |baseWords| entries |
| HashtagGenerator.GeneratedAt | src/tools/Social/HashtagGenerator.tsx:15-24 | the five suffix groups (none, life, love, style, tips) come first, then one #instadaily, one #explorepage and one #trending per word |
| HashtagGenerator.Picked | src/tools/Social/HashtagGenerator.tsx:28 | the first min(15, n) tags, drawn without reuse |
| HashtagGenerator.GuardGivesWords | src/tools/Social/HashtagGenerator.tsx:12-14 | a keyword that is not blank has at least one base word, and no base word is empty or holds a space |
| HashtagGenerator.Generator.GenerateHashtags | src/tools/Social/HashtagGenerator.tsx:11-30 | a blank keyword changes nothing; otherwise the first fifteen of the reordered list are shown and `copied` is reset |
| HashtagGenerator.ShownTags | src/tools/Social/HashtagGenerator.tsx:27-28 | min(15, 8 × |baseWords|) tags are shown, at least eight, none more often than it was generated |
| HashtagGenerator.GeneratedFree | src/tools/Social/HashtagGenerator.tsx:15-24 | no generated tag holds a space |
| HashtagGenerator.Generator.CopyToClipboard | src/tools/Social/HashtagGenerator.tsx:32-35 | the copied text is the shown tags joined with single spaces |
| HashtagGenerator.CopiedTextSplits | src/tools/Social/HashtagGenerator.tsx:33 | the copied text splits back on spaces into exactly the shown tags |
| AgeCalculator.DaysInMonth | src/tools/Utilities/AgeCalculator.tsx:25-26 | a month has 28 to 31 days, and 29 exactly for February of a Gregorian leap year |
| AgeCalculator.LastMonthDays | src/tools/Utilities/AgeCalculator.tsx:25-26 | day 0 of today's month is the last day of the previous month, December (31) for January |
| AgeCalculator.Calculator.CalculateAge | src/tools/Utilities/AgeCalculator.tsx:13-35 | an empty `dob` leaves the result alone; otherwise the borrowing steps give exactly the reference age |
| AgeCalculator.ExpectedAge | src/tools/Utilities/AgeCalculator.tsx:19-32 | the reference for the borrow steps: whole elapsed months as years and months, and days with the previous month's length added when the day borrows |
| AgeCalculator.MonthsInRange | src/tools/Utilities/AgeCalculator.tsx:20-32 | the months are in [0, 11], and 12 × years + months is the number of whole elapsed months |
| AgeCalculator.NoDayBorrow | src/tools/Utilities/AgeCalculator.tsx:21-27 | when today's day is at least the birth day, days = today.day − birth.day, with no borrow |
| AgeCalculator.WithDayBorrow | src/tools/Utilities/AgeCalculator.tsx:23-27 | a day borrow takes one month off and adds the length of the month before today's |
| AgeCalculator.DaysNonNegative | src/tools/Utilities/AgeCalculator.tsx:23-27 | the days lie in [0, 30] when the birth day fits in the previous month |
| AgeCalculator.NegativeDays | src/tools/Utilities/AgeCalculator.tsx:23-27 | otherwise they can be negative: born on the 31st, on 1 March 2023 the days are −2 |
| AgeCalculator.NotAfterToday | src/tools/Utilities/AgeCalculator.tsx:19-32 | a birth date not after today gives non-negative years, and on a birthday exactly whole years |
| PdfFiles.AcceptanceIgnoresCase | src/tools/Pdf/MergePdf.tsx:15 | acceptance does not depend on the case of the name |
| PdfFiles.IsPdf | src/tools/Pdf/MergePdf.tsx:15 | a file is a PDF when its type is application/pdf or its lowercased name ends in ".pdf" |
| PdfFiles.UppercaseExtensionAccepted | src/tools/Pdf/SplitPdf.tsx:18 | any name ending in ".PDF" is accepted, whatever its type |
| PdfFiles.OtherExtensionRefused | src/tools/Pdf/SplitPdf.tsx:18 | any name ending in ".txt" of type text/plain is refused |
| SplitPdf.PageIndices | src/tools/Pdf/SplitPdf.tsx:46-49 | the index list has end − start + 1 entries, none when that is negative |
| SplitPdf.Refused | src/tools/Pdf/SplitPdf.tsx:37-38 | splitting is refused with no file, start > end, start < 1 or end > pageCount |
| SplitPdf.IndicesInRange | src/tools/Pdf/SplitPdf.tsx:37-49 | when the guard passes, the indices run from start − 1 to end − 1 in steps of one, each in [0, pageCount) |
| SplitPdf.CopyPages | src/tools/Pdf/SplitPdf.tsx:50-51 | the new document holds, in order, the page at each index |
| SplitPdf.RangeIsSlice | src/tools/Pdf/SplitPdf.tsx:46-51 | the copied pages are exactly pages start through end |
| SplitPdf.DownloadNameRoundTrip | src/tools/Pdf/SplitPdf.tsx:160 | "split_{start}-{end}_{name}" reads back as its range and file name |
| SplitPdf.DownloadName | src/tools/Pdf/SplitPdf.tsx:160 | "split_" + start + "-" + end + "_" + the file name, numbers in decimal |
| SplitPdf.NumberThenRoundTrip | src/tools/Pdf/SplitPdf.tsx:160 | a decimal number followed by a non-digit separator reads back |
| SplitPdf.Splitter.HandleFileChange | src/tools/Pdf/SplitPdf.tsx:16-34 | a refused file changes nothing; an accepted one becomes current and clears the result; when it loads, the page count is taken and the range reset to 1..pageCount |
| SplitPdf.Splitter.Split | src/tools/Pdf/SplitPdf.tsx:36-61 | with no file, start > end, start < 1 or end > pageCount nothing changes; otherwise the result is pages start through end |
| SplitPdf.FreshRangeIsWhole | src/tools/Pdf/SplitPdf.tsx:26-28 | the range set on load passes the guard and selects the whole document |
| SplitPdf.EmptyDocumentRefused | src/tools/Pdf/SplitPdf.tsx:37 | a document of no pages can never be split |
| MergePdf.Accepted | src/tools/Pdf/MergePdf.tsx:14-15 | the kept files are PDFs from the selection |
| MergePdf.AcceptedMeaning | src/tools/Pdf/MergePdf.tsx:15 | the filter keeps selection order, and a selected file is kept exactly when it is a PDF |
| MergePdf.RemoveAt | src/tools/Pdf/MergePdf.tsx:23 | exactly position i goes and the rest keep their order; an index out of range changes nothing |
| MergePdf.Merger.AddFiles | src/tools/Pdf/MergePdf.tsx:13-20 | when some file is accepted, the accepted files are appended in selection order and the result cleared; otherwise nothing changes |
| MergePdf.Merger.RemoveFile | src/tools/Pdf/MergePdf.tsx:22-25 | the list loses position i and the result is cleared |
| MergePdf.Merger.MergePdfs | src/tools/Pdf/MergePdf.tsx:27-42 | fewer than two files, or a file that fails to load, leaves the result alone; otherwise the result is every file's pages concatenated in list order |
| MergePdf.MergedIffAllLoad | src/tools/Pdf/MergePdf.tsx:34-42 | the merge succeeds exactly when every file loads |
| MergePdf.Merged | src/tools/Pdf/MergePdf.tsx:34-42 | the pages of every file in list order, or none as soon as one file fails to load |
| MergePdf.MergedAppend | src/tools/Pdf/MergePdf.tsx:34-42 | merging two lists is merging each and concatenating |
| MergePdf.MergedPageCount | src/tools/Pdf/MergePdf.tsx:34-42 | the merged document has as many pages as the files together |
| MergePdf.NoMergeAfterFailure | src/tools/Pdf/MergePdf.tsx:36 | one file that fails to load makes the whole merge fail |
| MergePdf.AddThenRemove | src/tools/Pdf/MergePdf.tsx:15-23 | adding a PDF and removing it again by its position restores the list |
| ConvertImage.Extension | src/tools/Image/ConvertImage.tsx:52-63 | png exactly for image/png, webp exactly for image/webp, jpg for image/jpeg and every other type |
| ConvertImage.ExtensionsDistinct | src/tools/Image/ConvertImage.tsx:52-63 | the three target formats get three distinct extensions without a dot |
| ConvertImage.AcceptanceIgnoresCase | src/tools/Image/ConvertImage.tsx:18 | the name test ignores case |
| ConvertImage.ImageName | src/tools/Image/ConvertImage.tsx:18 | the lowered name ends in .jpg, .jpeg, .png, .gif, .webp or .svg |
| ConvertImage.Accepted | src/tools/Image/ConvertImage.tsx:18 | a file is accepted when its type starts with "image/" or its name passes the extension test |
| ConvertImage.OnFileChange | src/tools/Image/ConvertImage.tsx:16-25 | an accepted file becomes current and clears the previous result; anything else changes nothing |
| ConvertImage.OnFileChangeIdempotent | src/tools/Image/ConvertImage.tsx:16-25 | choosing the same file twice changes nothing the second time |
| ConvertImage.DownloadNameParts | src/tools/Image/ConvertImage.tsx:167 | the download name splits at its only dot into "converted_" + the name up to its first '.', and the target's extension |
| ConvertImage.DownloadName | src/tools/Image/ConvertImage.tsx:167 | "converted_" + the name up to its first '.' + "." + the target's extension |
| ConvertImage.TargetOptions | src/tools/Image/ConvertImage.tsx:39-42 | only JPEG is filled white; JPEG and WebP show the quality control, PNG does not |
| ConvertImage.FillsWhite | src/tools/Image/ConvertImage.tsx:39-42 | the canvas is filled white only for the image/jpeg target |
| ConvertImage.ShowsQuality | src/tools/Image/ConvertImage.tsx:133 | the quality control is shown only for the image/jpeg and image/webp targets |
| RemoveBackground.ChannelBounds | src/tools/Image/RemoveBackground.tsx:73-75 | a channel parsed from at most two characters, when it is a number, lies in −15..255 |
| RemoveBackground.ParseHex | src/tools/Image/RemoveBackground.tsx:73-75 | `parseInt(s, 16)`: leading spaces, a sign and a "0x" prefix skipped, then the longest run of hex digits, or NaN when there is none |
| RemoveBackground.HexByteValue | src/tools/Image/RemoveBackground.tsx:73-75 | a byte written as two hex digits parses back to itself |
| RemoveBackground.KeyOfColor | src/tools/Image/RemoveBackground.tsx:72-75 | "#rrggbb" gives the three channels of the colour, each in 0..255 |
| RemoveBackground.KeyOf | src/tools/Image/RemoveBackground.tsx:72-75 | the first '#' removed, then the channels parsed from offsets 0, 2 and 4, two characters each |
| RemoveBackground.Keyed | src/tools/Image/RemoveBackground.tsx:77-91 | the buffer keeps its length, and every byte is as `KeyedAt` says |
| RemoveBackground.RemoveColor | src/tools/Image/RemoveBackground.tsx:77-91 | the stride-4 loop leaves the array exactly as `Keyed` describes the old one |
| RemoveBackground.KeyedMeaning | src/tools/Image/RemoveBackground.tsx:82-90 | colour bytes are never written; a pixel's alpha becomes 0 when its squared distance to the key is at most tolerance², and is kept otherwise |
| RemoveBackground.Matches | src/tools/Image/RemoveBackground.tsx:82-88 | a pixel matches when all three channels parsed and its squared distance to the key is at most tolerance² |
| RemoveBackground.TransparentAfterPass | src/tools/Image/RemoveBackground.tsx:82-90 | a pixel is transparent afterwards exactly when it matched or already was |
| RemoveBackground.KeyedIdempotent | src/tools/Image/RemoveBackground.tsx:77-91 | running the pass twice equals running it once |
| RemoveBackground.NaNKeyChangesNothing | src/tools/Image/RemoveBackground.tsx:73-88 | a channel that does not parse (NaN) makes every comparison false, so nothing changes |
| RemoveBackground.KeyColourMatches | src/tools/Image/RemoveBackground.tsx:82-88 | a pixel of exactly the key colour always matches |
| RemoveBackground.ExtensionMatchesType | src/tools/Image/RemoveBackground.tsx:125 | a transparent background gives image/png and a ".png" name; any other gives image/jpeg and ".jpg" |
| RemoveBackground.OutputMime | src/tools/Image/RemoveBackground.tsx:125 | image/png for a transparent background, image/jpeg otherwise |
| RemoveBackground.DownloadName | src/tools/Image/RemoveBackground.tsx:286 | "nobg_" + the name up to its first '.' + ".png" for a transparent background, ".jpg" otherwise |
| BioGenerator.Chosen | src/tools/Social/BioGenerator.tsx:14-21 | professional, creative and funny select their own template; any other vibe gets the professional one |
| BioGenerator.TemplateFor | src/tools/Social/BioGenerator.tsx:14-18 | the template object's entry for the vibe: professional, creative or funny, and none for any other key |
| BioGenerator.Bio | src/tools/Social/BioGenerator.tsx:20-21 | the chosen template filled with the profession and hobbies, or the professional one when the vibe has no template |
| BioGenerator.BioUsesChosenTemplate | src/tools/Social/BioGenerator.tsx:20-21 | the bio is the chosen template filled in; an unknown vibe falls back to professional |
| BioGenerator.FillPositions | src/tools/Social/BioGenerator.tsx:15-17 | a filled template holds the profession at the end of its first part and the hobbies after its middle part |
| BioGenerator.ProfessionThenHobbies | src/tools/Social/BioGenerator.tsx:15-21 | every bio holds the profession text, followed later by the hobbies text |
| BioGenerator.Generate | src/tools/Social/BioGenerator.tsx:13-24 | generating shows the chosen bio and resets `copied` |
| BioGenerator.Copy | src/tools/Social/BioGenerator.tsx:26-30 | copying writes the bio and sets `copied` |
| BioGenerator.GenerateResetsCopied | src/tools/Social/BioGenerator.tsx:23 | a copy before generating makes no difference to the result of generating |
| Strings.SplitJoin | src/components/Header.tsx:14 | joining the pieces of a split gives back the string |
| Strings.Split | src/components/Header.tsx:14 | `s.split(c)`: the pieces between the occurrences of `c`, at least one |
| Strings.Join | src/tools/Social/HashtagGenerator.tsx:33 | `parts.join(c)`: the pieces with `c` between consecutive ones |
| Strings.JoinSplit | src/tools/Social/HashtagGenerator.tsx:33 | splitting a join of pieces free of the separator gives back the pieces |
| Strings.SplitCount | src/tools/Social/CharacterCounter.tsx:19 | a split gives one more piece than there are separators |
| Strings.PiecesNonEmpty | src/App.tsx:20-27 | a split has no empty piece exactly when the string is non-empty, neither starts nor ends with the separator and never holds it twice in a row |
| Strings.LaterPiecesNonEmpty | src/App.tsx:20-27 | every piece after the first is non-empty exactly when the string does not end with the separator and never holds it twice in a row |
| Strings.SegmentsOfJoin | src/components/Header.tsx:14-18 | the segments of "/" + a join of non-empty, slash-free parts are those parts |
| Strings.Segments | src/components/Header.tsx:14 | `split("/").filter(Boolean)`: the non-empty pieces between the slashes, in order |
| Strings.TrimEmptyIffBlank | src/tools/Social/HashtagGenerator.tsx:12 | `trim()` is empty exactly when the text is whitespace only |
| Strings.Trim | src/tools/Social/HashtagGenerator.tsx:12 | `trim()`: the text without leading and trailing ASCII whitespace |
| Strings.Lower | src/tools/Pdf/MergePdf.tsx:15 | `toLowerCase()` on ASCII: the same length, with each character lowered |
| Strings.Utf16Length | src/tools/Social/CharacterCounter.tsx:16 | `length` counts UTF-16 units: at least one and at most two per character |
| Strings.Utf16Append | src/tools/Social/CharacterCounter.tsx:16-17 | the UTF-16 length of a concatenation is the sum of the lengths |
| Strings.Utf16LengthIsLength | src/tools/Social/CharacterCounter.tsx:16 | the UTF-16 length equals the character count exactly when no character lies outside the Basic Multilingual Plane |
| Strings.NatToStringRoundTrip | src/tools/Pdf/SplitPdf.tsx:160 | a number written in decimal reads back as itself |

## Left out

- Canvas and image rendering are not modelled: `drawImage`, `toDataURL`, the previews, and the CompressImage, ResizeImage and AdjustImage tools. They are browser graphics. The pixel buffer's bytes are given as the `array` they are.
- The AI background removal of `@imgly/background-removal` is not part of this model. It is a foreign library. Neither are RemoveBackground's file acceptance, its reset of the result and background colour on a new file, and the `isProcessing` flag.
- pdf-lib (`load`, `copyPages`, `save`), `Blob` and `URL.createObjectURL` are modelled by the documents they denote. A file's loadable pages are a `seq<Page>`, or `None` when loading throws. A result URL is the page sequence it holds.
- `alert` and `console.error` are left out, and so are the `isSplitting` and `isMerging` flags: they only drive the button's look.
- Floating point is modelled only where a contract needs it:
  - the password draw uses `real` numbers in [0, 1);
  - the colour distance `Math.sqrt(d) <= tolerance` is the test d ≤ tolerance², equivalent for tolerance ≥ 0;
  - a negative slider value is never produced, since the slider runs from 0 to 255, and is treated as matching nothing;
  - the quality percentage and `Number()` conversions of inputs are left out.
- Clipboards, `setTimeout` resets of `copied` and the QR generator are left out. They are I/O, timers and a foreign library.
- The distribution of `Math.random` is left out. The password generator takes the numbers it returns as a parameter. The hashtag shuffle is a parameter: any reordering of the generated list.
- HashtagGenerator.Generator.GenerateHashtags: the in-place `sort` is modelled by its result, a reordering given as a parameter, not by the comparator calls.
- `new Date(dob)` parsing, today's clock reading and time zones are left out. The model takes (year, 0-based month, day) triples of valid Gregorian dates.
- AgeCalculator.DaysNonNegative: days ≥ 0 holds only when the birth day fits in the previous month, because the source does not guarantee more (see `AgeCalculator.NegativeDays`).
- `fs.writeFileSync` and `console.log` in the sitemap generator are left out. The model is the string written.
- React itself is left out: rendering, `useState` and `useEffect` scheduling, Helmet/SEO, AdBanner, Footer, LegalPage, PlaceholderTool and the translation lookup.
- React Router's route ranking and matching are modelled as their outcome for this table: a static legal segment beats `:toolPath`, compared without regard to ASCII case (the router's case-insensitive match of an ASCII name accepts only ASCII case variants), trailing slashes are ignored and an empty segment matches nothing. The router's percent-decoding of the pathname before matching is not modelled.
- JavaScript's `\s`, `trim` and `toLowerCase` are modelled on ASCII: space, tab, newline, vertical tab, form feed and carriage return, and the letters A–Z. Unicode spaces and letters are not modelled.
- Property lookups such as `toolPaths[t][lang]` and `templates[vibe]` are modelled on the object's own keys. Keys inherited from `Object.prototype` (`"constructor"`, `"toString"`) are not.
- SplitPdf: the download name uses the start and end currently in the inputs, which may differ from those of the split shown. The model states the name as a function of the two numbers it is given.
- ConvertImage's remove button, which clears the file, preview and result, is not modelled.
