/** The static tool catalog of src/config/tools.ts: the twenty tool identifiers,
    their URL slug in each of the three site languages, and the five ordered
    categories the home page and the sitemap walk. */
module Catalog {

  import opened Wrappers

  /** The site languages, in the order the sitemap and the alternate links list them. */
  datatype Lang = En | Pt | Es

  const Langs: seq<Lang> := [En, Pt, Es]

  /** The language code as it appears in a URL and in i18n. */
  function Code(l: Lang): string {
    match l
    case En => "en"
    case Pt => "pt"
    case Es => "es"
  }

  /** The supported code a string stands for, compared exactly (case-sensitive).
      Any other string is not a key of a `toolPaths` entry. */
  function LangOf(s: string): (r: Option<Lang>)
    ensures r.Some? ==> Code(r.value) == s
    ensures forall l :: Code(l) == s ==> r == Some(l)
  {
    if s == "en" then Some(En)
    else if s == "pt" then Some(Pt)
    else if s == "es" then Some(Es)
    else None
  }

  datatype ToolId =
    | PdfToWord | WordToPdf | CompressPdf | MergePdf | SplitPdf
    | CompressImage | ResizeImage | ConvertImage | RemoveBackground | AdjustImage
    | CompoundInterest | LoanSimulator | PercentageCalculator
    | BioGenerator | HashtagGenerator | CharacterCounter
    | QrGenerator | PasswordGenerator | AgeCalculator | UnitConverter

  /** The identifier string of a tool, as used in translation keys. */
  function IdName(t: ToolId): string {
    match t
    case PdfToWord => "pdf-to-word"
    case WordToPdf => "word-to-pdf"
    case CompressPdf => "compress-pdf"
    case MergePdf => "merge-pdf"
    case SplitPdf => "split-pdf"
    case CompressImage => "compress-image"
    case ResizeImage => "resize-image"
    case ConvertImage => "convert-image"
    case RemoveBackground => "remove-background"
    case AdjustImage => "adjust-image"
    case CompoundInterest => "compound-interest"
    case LoanSimulator => "loan-simulator"
    case PercentageCalculator => "percentage-calculator"
    case BioGenerator => "bio-generator"
    case HashtagGenerator => "hashtag-generator"
    case CharacterCounter => "character-counter"
    case QrGenerator => "qr-generator"
    case PasswordGenerator => "password-generator"
    case AgeCalculator => "age-calculator"
    case UnitConverter => "unit-converter"
  }

  /** The keys of `toolPaths` in declaration order, which is the order
      `Object.entries` enumerates them in. */
  const AllTools: seq<ToolId> := [
    PdfToWord, WordToPdf, CompressPdf, MergePdf, SplitPdf,
    CompressImage, ResizeImage, ConvertImage, RemoveBackground, AdjustImage,
    CompoundInterest, LoanSimulator, PercentageCalculator,
    BioGenerator, HashtagGenerator, CharacterCounter,
    QrGenerator, PasswordGenerator, AgeCalculator, UnitConverter
  ]

  /** `toolPaths[t][l]`: the localized URL slug of tool `t`. */
  function Slug(t: ToolId, l: Lang): string {
    match t
    case PdfToWord =>
      (match l case En => "pdf-to-word-converter" case Pt => "converter-pdf-para-word" case Es => "convertidor-pdf-a-word")
    case WordToPdf =>
      (match l case En => "word-to-pdf-converter" case Pt => "converter-word-para-pdf" case Es => "convertidor-word-a-pdf")
    case CompressPdf =>
      (match l case En => "compress-pdf" case Pt => "compactar-pdf" case Es => "comprimir-pdf")
    case MergePdf =>
      (match l case En => "merge-pdf" case Pt => "unir-pdf" case Es => "unir-pdf")
    case SplitPdf =>
      (match l case En => "split-pdf" case Pt => "dividir-pdf" case Es => "dividir-pdf")
    case CompressImage =>
      (match l case En => "image-compressor" case Pt => "compressor-de-imagem" case Es => "compresor-de-imagen")
    case ResizeImage =>
      (match l case En => "resize-image" case Pt => "redimensionar-imagem" case Es => "redimensionar-imagen")
    case ConvertImage =>
      (match l case En => "convert-jpg-png" case Pt => "converter-jpg-png" case Es => "convertir-jpg-png")
    case RemoveBackground =>
      (match l case En => "background-remover" case Pt => "removedor-de-fundo" case Es => "eliminador-de-fondo")
    case AdjustImage =>
      (match l case En => "adjust-image" case Pt => "ajustar-imagem" case Es => "ajustar-imagen")
    case CompoundInterest =>
      (match l case En => "compound-interest-calculator" case Pt => "calculadora-de-juros-compostos" case Es => "calculadora-de-interes-compuesto")
    case LoanSimulator =>
      (match l case En => "loan-simulator" case Pt => "simulador-de-emprestimo" case Es => "simulador-de-prestamo")
    case PercentageCalculator =>
      (match l case En => "percentage-calculator" case Pt => "calculadora-de-porcentagem" case Es => "calculadora-de-porcentajes")
    case BioGenerator =>
      (match l case En => "bio-generator" case Pt => "gerador-de-bio" case Es => "generador-de-bio")
    case HashtagGenerator =>
      (match l case En => "hashtag-generator" case Pt => "gerador-de-hashtags" case Es => "generador-de-hashtags")
    case CharacterCounter =>
      (match l case En => "character-counter" case Pt => "contador-de-caracteres" case Es => "contador-de-caracteres")
    case QrGenerator =>
      (match l case En => "qr-code-generator" case Pt => "gerador-de-qr-code" case Es => "generador-de-codigo-qr")
    case PasswordGenerator =>
      (match l case En => "password-generator" case Pt => "gerador-de-senha" case Es => "generador-de-contrasenas")
    case AgeCalculator =>
      (match l case En => "age-calculator" case Pt => "calculadora-de-idade" case Es => "calculadora-de-edad")
    case UnitConverter =>
      (match l case En => "unit-converter" case Pt => "conversor-de-medidas" case Es => "conversor-de-unidades")
  }

  /** `toolPaths[t][lang]` for an arbitrary property name `lang`: absent unless
      `lang` is one of the three codes. */
  function PathFor(t: ToolId, lang: string): (r: Option<string>)
    ensures r.Some? <==> LangOf(lang).Some?
    ensures r.Some? ==> r.value == Slug(t, LangOf(lang).value)
  {
    match LangOf(lang)
    case Some(l) => Some(Slug(t, l))
    case None => None
  }

  datatype Category = Category(id: string, icon: string, tools: seq<ToolId>)

  const Categories: seq<Category> := [
    Category("pdf", "FileText", [PdfToWord, WordToPdf, CompressPdf, MergePdf, SplitPdf]),
    Category("image", "Image", [CompressImage, ResizeImage, ConvertImage, RemoveBackground, AdjustImage]),
    Category("finance", "DollarSign", [CompoundInterest, LoanSimulator, PercentageCalculator]),
    Category("social", "Share2", [BioGenerator, HashtagGenerator, CharacterCounter]),
    Category("utilities", "Wrench", [QrGenerator, PasswordGenerator, AgeCalculator, UnitConverter])
  ]

  /** The tools of the given categories, category by category, each in its listed order. */
  function CategoryTools(cats: seq<Category>): (r: seq<ToolId>)
    ensures |cats| == 0 ==> r == []
  {
    if cats == [] then [] else cats[0].tools + CategoryTools(cats[1..])
  }

  /** The page names that `src/App.tsx` routes to a legal page before
      trying a tool slug. */
  const LegalPages: seq<string> := ["privacy", "terms", "cookies", "contact"]

  predicate SlugChar(c: char) {
    ('a' <= c <= 'z') || ('0' <= c <= '9') || c == '-'
  }

  predicate WellFormedSlug(s: string) {
    |s| > 0 && forall i :: 0 <= i < |s| ==> SlugChar(s[i])
  }

  /** A well-formed slug is one non-empty path segment. */
  lemma WellFormedSlugIsSegment(s: string)
    requires WellFormedSlug(s)
    ensures s != "" && '/' !in s
  {
    assert forall i :: 0 <= i < |s| ==> s[i] != '/';
  }

  predicate NoDuplicates<T(==)>(s: seq<T>) {
    forall i, j :: 0 <= i < j < |s| ==> s[i] != s[j]
  }

  /** Where a tool sits in the declaration order of `toolPaths`. */
  function IndexOf(t: ToolId): (k: nat)
    ensures k < |AllTools| && AllTools[k] == t
  {
    match t
    case PdfToWord => 0
    case WordToPdf => 1
    case CompressPdf => 2
    case MergePdf => 3
    case SplitPdf => 4
    case CompressImage => 5
    case ResizeImage => 6
    case ConvertImage => 7
    case RemoveBackground => 8
    case AdjustImage => 9
    case CompoundInterest => 10
    case LoanSimulator => 11
    case PercentageCalculator => 12
    case BioGenerator => 13
    case HashtagGenerator => 14
    case CharacterCounter => 15
    case QrGenerator => 16
    case PasswordGenerator => 17
    case AgeCalculator => 18
    case UnitConverter => 19
  }

  /** `toolPaths` has an entry for every tool, and lists each tool once. */
  lemma AllToolsComplete()
    ensures |AllTools| == 20
    ensures NoDuplicates(AllTools)
    ensures forall t :: t in AllTools
  {
    forall t ensures t in AllTools {
      assert AllTools[IndexOf(t)] == t;
    }
  }

  lemma SlugInjectiveEn(t1: ToolId, t2: ToolId)
    requires Slug(t1, En) == Slug(t2, En)
    ensures t1 == t2
  {
    match t1
    case PdfToWord =>
    case WordToPdf =>
    case CompressPdf =>
    case MergePdf =>
    case SplitPdf =>
    case CompressImage =>
    case ResizeImage =>
    case ConvertImage =>
    case RemoveBackground =>
    case AdjustImage =>
    case CompoundInterest =>
    case LoanSimulator =>
    case PercentageCalculator =>
    case BioGenerator =>
    case HashtagGenerator =>
    case CharacterCounter =>
    case QrGenerator =>
    case PasswordGenerator =>
    case AgeCalculator =>
    case UnitConverter =>
  }

  lemma SlugInjectivePt(t1: ToolId, t2: ToolId)
    requires Slug(t1, Pt) == Slug(t2, Pt)
    ensures t1 == t2
  {
    match t1
    case PdfToWord =>
    case WordToPdf =>
    case CompressPdf =>
    case MergePdf =>
    case SplitPdf =>
    case CompressImage =>
    case ResizeImage =>
    case ConvertImage =>
    case RemoveBackground =>
    case AdjustImage =>
    case CompoundInterest =>
    case LoanSimulator =>
    case PercentageCalculator =>
    case BioGenerator =>
    case HashtagGenerator =>
    case CharacterCounter =>
    case QrGenerator =>
    case PasswordGenerator =>
    case AgeCalculator =>
    case UnitConverter =>
  }

  lemma SlugInjectiveEs(t1: ToolId, t2: ToolId)
    requires Slug(t1, Es) == Slug(t2, Es)
    ensures t1 == t2
  {
    match t1
    case PdfToWord =>
    case WordToPdf =>
    case CompressPdf =>
    case MergePdf =>
    case SplitPdf =>
    case CompressImage =>
    case ResizeImage =>
    case ConvertImage =>
    case RemoveBackground =>
    case AdjustImage =>
    case CompoundInterest =>
    case LoanSimulator =>
    case PercentageCalculator =>
    case BioGenerator =>
    case HashtagGenerator =>
    case CharacterCounter =>
    case QrGenerator =>
    case PasswordGenerator =>
    case AgeCalculator =>
    case UnitConverter =>
  }

  /** Within one language no two tools share a slug. */
  lemma SlugInjective(t1: ToolId, t2: ToolId, l: Lang)
    requires Slug(t1, l) == Slug(t2, l)
    ensures t1 == t2
  {
    match l
    case En => SlugInjectiveEn(t1, t2);
    case Pt => SlugInjectivePt(t1, t2);
    case Es => SlugInjectiveEs(t1, t2);
  }

  /** Uniqueness holds per language only: Portuguese and Spanish share slugs. */
  lemma SlugsSharedAcrossLanguages()
    ensures Slug(MergePdf, Pt) == Slug(MergePdf, Es) == "unir-pdf"
    ensures Slug(SplitPdf, Pt) == Slug(SplitPdf, Es)
    ensures Slug(CharacterCounter, Pt) == Slug(CharacterCounter, Es)
  {
  }

  /** No slug is one of the legal page names, so no tool is shadowed by a legal route. */
  lemma SlugNotReserved(t: ToolId, l: Lang)
    ensures Slug(t, l) !in LegalPages
  {
    match l
    case En => NotReservedIn(En);
    case Pt => NotReservedIn(Pt);
    case Es => NotReservedIn(Es);
  }

  lemma NotReservedIn(l: Lang)
    ensures forall t :: Slug(t, l) !in LegalPages
  {
  }

  /** The categories list every tool exactly once, in `toolPaths` order. */
  lemma CategoriesPartition()
    ensures CategoryTools(Categories) == AllTools
    ensures |Categories[0].tools| == 5 && |Categories[1].tools| == 5 && |Categories[2].tools| == 3
    ensures |Categories[3].tools| == 3 && |Categories[4].tools| == 4
  {
  }

  /** The ids of the categories, in order. */
  function CategoryIds(cats: seq<Category>): (r: seq<string>)
    ensures |r| == |cats|
    ensures forall i :: 0 <= i < |cats| ==> r[i] == cats[i].id
  {
    if cats == [] then [] else [cats[0].id] + CategoryIds(cats[1..])
  }

  lemma CategoryOrder()
    ensures CategoryIds(Categories) == ["pdf", "image", "finance", "social", "utilities"]
    ensures NoDuplicates(CategoryIds(Categories))
  {
  }

  /** The one category a tool belongs to. */
  function CategoryOf(t: ToolId): (c: nat)
    ensures c < |Categories| && t in Categories[c].tools
  {
    match t
    case PdfToWord => 0
    case WordToPdf => 0
    case CompressPdf => 0
    case MergePdf => 0
    case SplitPdf => 0
    case CompressImage => 1
    case ResizeImage => 1
    case ConvertImage => 1
    case RemoveBackground => 1
    case AdjustImage => 1
    case CompoundInterest => 2
    case LoanSimulator => 2
    case PercentageCalculator => 2
    case BioGenerator => 3
    case HashtagGenerator => 3
    case CharacterCounter => 3
    case QrGenerator => 4
    case PasswordGenerator => 4
    case AgeCalculator => 4
    case UnitConverter => 4
  }

  /** A tool belongs to no category but its own. */
  lemma CategoryUnique(t: ToolId, i: nat)
    requires i < |Categories| && t in Categories[i].tools
    ensures i == CategoryOf(t)
  {
  }

  /** Every tool a category names is a key of `toolPaths`. */
  lemma CategoryToolsKnown(i: nat, t: ToolId)
    requires i < |Categories| && t in Categories[i].tools
    ensures t in AllTools
  {
    AllToolsComplete();
  }
}
