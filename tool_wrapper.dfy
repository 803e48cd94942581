/** The tool page of src/pages/ToolWrapper.tsx: find the tool whose slug in the
    route's `lang` is the route's `toolPath`, scanning the catalog in declaration
    order and stopping at the first match, then either show that tool's
    component or redirect to the language's home page. */
module ToolWrapper {

  import opened Wrappers
  import opened Catalog

  /** Whether `toolPaths[t][lang] === toolPath`: an exact, case-sensitive comparison,
      never true when `lang` is not a supported code. */
  predicate Matches(t: ToolId, lang: string, toolPath: string) {
    PathFor(t, lang) == Some(toolPath)
  }

  /** The position of the first tool at or after `i` that matches, or
      `|AllTools|` when none does. */
  function FirstMatch(lang: string, toolPath: string, i: nat): (k: nat)
    requires i <= |AllTools|
    ensures i <= k <= |AllTools|
    ensures k < |AllTools| ==> Matches(AllTools[k], lang, toolPath)
    ensures forall j :: i <= j < k ==> !Matches(AllTools[j], lang, toolPath)
    decreases |AllTools| - i
  {
    if i == |AllTools| then i
    else if Matches(AllTools[i], lang, toolPath) then i
    else FirstMatch(lang, toolPath, i + 1)
  }

  /** The tool the route names, if any: the first match in declaration order. */
  function Resolve(lang: string, toolPath: string): Option<ToolId> {
    var k := FirstMatch(lang, toolPath, 0);
    if k < |AllTools| then Some(AllTools[k]) else None
  }

  /** The `for ... of Object.entries(toolPaths)` loop with its `break`. */
  method FindToolId(lang: string, toolPath: string) returns (current: Option<ToolId>)
    ensures current == Resolve(lang, toolPath)
    ensures current.Some? ==> Matches(current.value, lang, toolPath)
    ensures current.None? <==> forall t :: !Matches(t, lang, toolPath)
  {
    AllToolsComplete();
    current := None;
    var i := 0;
    while i < |AllTools|
      invariant 0 <= i <= |AllTools|
      invariant forall j :: 0 <= j < i ==> !Matches(AllTools[j], lang, toolPath)
    {
      var id := AllTools[i];
      if Matches(id, lang, toolPath) {
        current := Some(id);
        assert FirstMatch(lang, toolPath, 0) == i;
        return;
      }
      i := i + 1;
    }
    forall t ensures !Matches(t, lang, toolPath) {
      assert AllTools[IndexOf(t)] == t;
    }
  }

  /** `Resolve` finds a tool exactly when some tool matches, and what it finds
      matches and comes before every other match. */
  lemma ResolveMeaning(lang: string, toolPath: string)
    ensures Resolve(lang, toolPath).None? <==> forall t :: !Matches(t, lang, toolPath)
    ensures Resolve(lang, toolPath).Some? ==>
      var t := Resolve(lang, toolPath).value;
      Matches(t, lang, toolPath) &&
      forall u :: Matches(u, lang, toolPath) ==> IndexOf(t) <= IndexOf(u)
  {
    var k := FirstMatch(lang, toolPath, 0);
    if k == |AllTools| {
      forall t ensures !Matches(t, lang, toolPath) {
        assert AllTools[IndexOf(t)] == t;
      }
    } else {
      AllToolsComplete();
      forall u | Matches(u, lang, toolPath) ensures k <= IndexOf(u) {
        assert AllTools[IndexOf(u)] == u;
      }
      assert IndexOf(AllTools[k]) == k;
    }
  }

  /** Round trip: a tool's own slug, under a supported language, resolves to that tool. */
  lemma {:induction false} ResolveSlug(t: ToolId, l: Lang)
    ensures Resolve(Code(l), Slug(t, l)) == Some(t)
  {
    var k := FirstMatch(Code(l), Slug(t, l), 0);
    assert Matches(AllTools[IndexOf(t)], Code(l), Slug(t, l));
    assert k < |AllTools|;
    SlugInjective(AllTools[k], t, l);
  }

  /** A route whose `lang` is not one of the three codes never names a tool. */
  lemma UnsupportedLangResolvesNothing(lang: string, toolPath: string)
    requires LangOf(lang).None?
    ensures Resolve(lang, toolPath) == None
  {
    ResolveMeaning(lang, toolPath);
  }

  /** A slug from another language only resolves where it coincides: the
      English "merge-pdf" is not a Portuguese slug, so it redirects under "pt". */
  lemma EnglishSlugUnderPortuguese()
    ensures Resolve("pt", "merge-pdf") == None
  {
    assert LangOf("pt") == Some(Pt);
    forall t ensures !Matches(t, "pt", "merge-pdf") {
      NotAPortugueseSlug(t);
    }
    ResolveMeaning("pt", "merge-pdf");
  }

  /** Two English slugs that no tool uses in Portuguese. */
  lemma NotAPortugueseSlug(t: ToolId)
    ensures Slug(t, Pt) != "merge-pdf" && Slug(t, Pt) != "image-compressor"
  {
    match t
    case MergePdf =>
    case CompressImage =>
    case _ =>
  }

  /** The same holds for the English slug of the image compressor. */
  lemma EnglishCompressorUnderPortuguese()
    ensures Resolve("pt", "image-compressor") == None
  {
    assert LangOf("pt") == Some(Pt);
    forall t ensures !Matches(t, "pt", "image-compressor") {
      NotAPortugueseSlug(t);
    }
    ResolveMeaning("pt", "image-compressor");
  }

  /** The Portuguese "unir-pdf" is also the Spanish slug of the same tool, so it
      resolves under "es". */
  lemma SharedSlugUnderSpanish()
    ensures Resolve("es", "unir-pdf") == Some(MergePdf)
  {
    ResolveSlug(MergePdf, Es);
  }

  /** The component each tool is rendered with (`toolComponents`): three tools
      share the placeholder, every other tool has its own component. */
  datatype Component = Placeholder | Own(tool: ToolId)

  function ComponentOf(t: ToolId): (c: Component)
    ensures c == Placeholder <==> t in {PdfToWord, WordToPdf, CompressPdf}
    ensures c.Own? ==> c.tool == t
  {
    match t
    case PdfToWord => Placeholder
    case WordToPdf => Placeholder
    case CompressPdf => Placeholder
    case MergePdf => Own(MergePdf)
    case SplitPdf => Own(SplitPdf)
    case CompressImage => Own(CompressImage)
    case ResizeImage => Own(ResizeImage)
    case ConvertImage => Own(ConvertImage)
    case RemoveBackground => Own(RemoveBackground)
    case AdjustImage => Own(AdjustImage)
    case CompoundInterest => Own(CompoundInterest)
    case LoanSimulator => Own(LoanSimulator)
    case PercentageCalculator => Own(PercentageCalculator)
    case BioGenerator => Own(BioGenerator)
    case HashtagGenerator => Own(HashtagGenerator)
    case CharacterCounter => Own(CharacterCounter)
    case QrGenerator => Own(QrGenerator)
    case PasswordGenerator => Own(PasswordGenerator)
    case AgeCalculator => Own(AgeCalculator)
    case UnitConverter => Own(UnitConverter)
  }

  /** What the tool route renders. */
  datatype View = Redirect(to: string, replace: bool) | Show(tool: ToolId, component: Component)

  /** The whole component: look the tool up, redirect on a miss, otherwise show it. */
  method Render(lang: string, toolPath: string) returns (v: View)
    ensures v.Redirect? <==> forall t :: !Matches(t, lang, toolPath)
    ensures v.Redirect? ==> v.to == "/" + lang && v.replace
    ensures v.Show? ==> Resolve(lang, toolPath) == Some(v.tool) && v.component == ComponentOf(v.tool)
  {
    var current := FindToolId(lang, toolPath);
    if current.None? {
      v := Redirect("/" + lang, true);
    } else {
      v := Show(current.value, ComponentOf(current.value));
    }
  }

  /** The view as a function of the route, for use in lemmas. */
  function ViewOf(lang: string, toolPath: string): (v: View)
    ensures v.Redirect? <==> Resolve(lang, toolPath).None?
    ensures v.Redirect? ==> v.to == "/" + lang && v.replace
  {
    match Resolve(lang, toolPath)
    case None => Redirect("/" + lang, true)
    case Some(t) => Show(t, ComponentOf(t))
  }

  /** A tool's own link always shows that tool. */
  lemma OwnSlugShowsTool(t: ToolId, l: Lang)
    ensures ViewOf(Code(l), Slug(t, l)) == Show(t, ComponentOf(t))
  {
    ResolveSlug(t, l);
  }
}
