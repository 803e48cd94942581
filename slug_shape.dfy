/** The shape of the slugs of src/config/tools.ts: each one is a non-empty
    run of lowercase ASCII letters, digits and hyphens, so it is a single URL
    path segment that needs no escaping. The facts are checked category by
    category and language by language. */
module SlugShape {

  import opened Catalog

  /** Every slug of every tool, in every language, is well formed. */
  lemma SlugWellFormed(t: ToolId, l: Lang)
    ensures WellFormedSlug(Slug(t, l))
  {
    match l
    case En => WellFormedInEn(t);
    case Pt => WellFormedInPt(t);
    case Es => WellFormedInEs(t);
  }

  lemma WellFormedInEn(t: ToolId)
    ensures WellFormedSlug(Slug(t, En))
  {
    match t
    case PdfToWord => PdfEn();
    case WordToPdf => PdfEn();
    case CompressPdf => PdfEn();
    case MergePdf => PdfEn();
    case SplitPdf => PdfEn();
    case CompressImage => ImageEn();
    case ResizeImage => ImageEn();
    case ConvertImage => ImageEn();
    case RemoveBackground => ImageEn();
    case AdjustImage => ImageEn();
    case CompoundInterest => FinanceEn();
    case LoanSimulator => FinanceEn();
    case PercentageCalculator => FinanceEn();
    case BioGenerator => SocialEn();
    case HashtagGenerator => SocialEn();
    case CharacterCounter => SocialEn();
    case QrGenerator => UtilitiesEn();
    case PasswordGenerator => UtilitiesEn();
    case AgeCalculator => UtilitiesEn();
    case UnitConverter => UtilitiesEn();
  }

  lemma WellFormedInPt(t: ToolId)
    ensures WellFormedSlug(Slug(t, Pt))
  {
    match t
    case PdfToWord => PdfPt();
    case WordToPdf => PdfPt();
    case CompressPdf => PdfPt();
    case MergePdf => PdfPt();
    case SplitPdf => PdfPt();
    case CompressImage => ImagePt();
    case ResizeImage => ImagePt();
    case ConvertImage => ImagePt();
    case RemoveBackground => ImagePt();
    case AdjustImage => ImagePt();
    case CompoundInterest => FinancePt();
    case LoanSimulator => FinancePt();
    case PercentageCalculator => FinancePt();
    case BioGenerator => SocialPt();
    case HashtagGenerator => SocialPt();
    case CharacterCounter => SocialPt();
    case QrGenerator => UtilitiesPt();
    case PasswordGenerator => UtilitiesPt();
    case AgeCalculator => UtilitiesPt();
    case UnitConverter => UtilitiesPt();
  }

  lemma WellFormedInEs(t: ToolId)
    ensures WellFormedSlug(Slug(t, Es))
  {
    match t
    case PdfToWord => PdfEs();
    case WordToPdf => PdfEs();
    case CompressPdf => PdfEs();
    case MergePdf => PdfEs();
    case SplitPdf => PdfEs();
    case CompressImage => ImageEs();
    case ResizeImage => ImageEs();
    case ConvertImage => ImageEs();
    case RemoveBackground => ImageEs();
    case AdjustImage => ImageEs();
    case CompoundInterest => FinanceEs();
    case LoanSimulator => FinanceEs();
    case PercentageCalculator => FinanceEs();
    case BioGenerator => SocialEs();
    case HashtagGenerator => SocialEs();
    case CharacterCounter => SocialEs();
    case QrGenerator => UtilitiesEs();
    case PasswordGenerator => UtilitiesEs();
    case AgeCalculator => UtilitiesEs();
    case UnitConverter => UtilitiesEs();
  }

  lemma PdfEn()
    ensures WellFormedSlug(Slug(PdfToWord, En))
      && WellFormedSlug(Slug(WordToPdf, En))
      && WellFormedSlug(Slug(CompressPdf, En))
      && WellFormedSlug(Slug(MergePdf, En))
      && WellFormedSlug(Slug(SplitPdf, En))
  {
  }

  lemma PdfPt()
    ensures WellFormedSlug(Slug(PdfToWord, Pt))
      && WellFormedSlug(Slug(WordToPdf, Pt))
      && WellFormedSlug(Slug(CompressPdf, Pt))
      && WellFormedSlug(Slug(MergePdf, Pt))
      && WellFormedSlug(Slug(SplitPdf, Pt))
  {
  }

  lemma PdfEs()
    ensures WellFormedSlug(Slug(PdfToWord, Es))
      && WellFormedSlug(Slug(WordToPdf, Es))
      && WellFormedSlug(Slug(CompressPdf, Es))
      && WellFormedSlug(Slug(MergePdf, Es))
      && WellFormedSlug(Slug(SplitPdf, Es))
  {
  }

  lemma ImageEn()
    ensures WellFormedSlug(Slug(CompressImage, En))
      && WellFormedSlug(Slug(ResizeImage, En))
      && WellFormedSlug(Slug(ConvertImage, En))
      && WellFormedSlug(Slug(RemoveBackground, En))
      && WellFormedSlug(Slug(AdjustImage, En))
  {
  }

  lemma ImagePt()
    ensures WellFormedSlug(Slug(CompressImage, Pt))
      && WellFormedSlug(Slug(ResizeImage, Pt))
      && WellFormedSlug(Slug(ConvertImage, Pt))
      && WellFormedSlug(Slug(RemoveBackground, Pt))
      && WellFormedSlug(Slug(AdjustImage, Pt))
  {
  }

  lemma ImageEs()
    ensures WellFormedSlug(Slug(CompressImage, Es))
      && WellFormedSlug(Slug(ResizeImage, Es))
      && WellFormedSlug(Slug(ConvertImage, Es))
      && WellFormedSlug(Slug(RemoveBackground, Es))
      && WellFormedSlug(Slug(AdjustImage, Es))
  {
  }

  lemma FinanceEn()
    ensures WellFormedSlug(Slug(CompoundInterest, En))
      && WellFormedSlug(Slug(LoanSimulator, En))
      && WellFormedSlug(Slug(PercentageCalculator, En))
  {
  }

  lemma FinancePt()
    ensures WellFormedSlug(Slug(CompoundInterest, Pt))
      && WellFormedSlug(Slug(LoanSimulator, Pt))
      && WellFormedSlug(Slug(PercentageCalculator, Pt))
  {
  }

  lemma FinanceEs()
    ensures WellFormedSlug(Slug(CompoundInterest, Es))
      && WellFormedSlug(Slug(LoanSimulator, Es))
      && WellFormedSlug(Slug(PercentageCalculator, Es))
  {
  }

  lemma SocialEn()
    ensures WellFormedSlug(Slug(BioGenerator, En))
      && WellFormedSlug(Slug(HashtagGenerator, En))
      && WellFormedSlug(Slug(CharacterCounter, En))
  {
  }

  lemma SocialPt()
    ensures WellFormedSlug(Slug(BioGenerator, Pt))
      && WellFormedSlug(Slug(HashtagGenerator, Pt))
      && WellFormedSlug(Slug(CharacterCounter, Pt))
  {
  }

  lemma SocialEs()
    ensures WellFormedSlug(Slug(BioGenerator, Es))
      && WellFormedSlug(Slug(HashtagGenerator, Es))
      && WellFormedSlug(Slug(CharacterCounter, Es))
  {
  }

  lemma UtilitiesEn()
    ensures WellFormedSlug(Slug(QrGenerator, En))
      && WellFormedSlug(Slug(PasswordGenerator, En))
      && WellFormedSlug(Slug(AgeCalculator, En))
      && WellFormedSlug(Slug(UnitConverter, En))
  {
  }

  lemma UtilitiesPt()
    ensures WellFormedSlug(Slug(QrGenerator, Pt))
      && WellFormedSlug(Slug(PasswordGenerator, Pt))
      && WellFormedSlug(Slug(AgeCalculator, Pt))
      && WellFormedSlug(Slug(UnitConverter, Pt))
  {
  }

  lemma UtilitiesEs()
    ensures WellFormedSlug(Slug(QrGenerator, Es))
      && WellFormedSlug(Slug(PasswordGenerator, Es))
      && WellFormedSlug(Slug(AgeCalculator, Es))
      && WellFormedSlug(Slug(UnitConverter, Es))
  {
  }
}
