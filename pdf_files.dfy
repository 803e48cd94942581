/** The PDF files src/tools/Pdf/SplitPdf.tsx and src/tools/Pdf/MergePdf.tsx
    accept, and the pages pdf-lib reads from them. A page is known only by its
    identity: what pdf-lib copies is the page itself. */
module PdfFiles {

  import opened Wrappers
  import opened Strings

  datatype Page = Page(id: nat)

  /** A chosen file: its name, its MIME type, and the pages `PDFDocument.load`
      reads from its bytes, or None when loading throws. */
  datatype PdfFile = PdfFile(name: string, mime: string, pages: Option<seq<Page>>)

  /** `f.type === "application/pdf" || f.name.toLowerCase().endsWith(".pdf")`. */
  predicate IsPdf(f: PdfFile) {
    f.mime == "application/pdf" || EndsWith(Lower(f.name), ".pdf")
  }

  /** The extension test ignores case: a file is accepted under a name exactly
      when it is accepted under the lowercase name. */
  lemma AcceptanceIgnoresCase(f: PdfFile)
    ensures IsPdf(f) <==> IsPdf(f.(name := Lower(f.name)))
  {
    LowerIdempotent(f.name);
  }

  /** Without the PDF type, the name decides: any name ending in ".PDF" is
      accepted whatever its type, and any name ending in ".txt" of type
      text/plain is not. */
  lemma UppercaseExtensionAccepted(stem: string, mime: string, pages: Option<seq<Page>>)
    ensures IsPdf(PdfFile(stem + ".PDF", mime, pages))
  {
    var name := stem + ".PDF";
    var n := |stem|;
    var lf := Lower(name);
    assert name[n] == '.' && name[n + 1] == 'P' && name[n + 2] == 'D' && name[n + 3] == 'F';
    assert lf[n..] == ".pdf";
  }

  lemma OtherExtensionRefused(stem: string, pages: Option<seq<Page>>)
    ensures !IsPdf(PdfFile(stem + ".txt", "text/plain", pages))
  {
    var name := stem + ".txt";
    assert name[|name| - 1] == 't';
    assert Lower(name)[|name| - 1] == 't';
  }
}
