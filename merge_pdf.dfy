/** src/tools/Pdf/MergePdf.tsx: the list of chosen files, grown by the
    accepted files of each selection and shrunk by removing one position, and
    the merge that copies every page of every file, in list order, into one
    document. The object URL of the result is modelled by the pages of the
    document it denotes. */
module MergePdf {

  import opened Wrappers
  import opened PdfFiles

  /** `selected.filter(isPdf)`. */
  function Accepted(selected: seq<PdfFile>): (r: seq<PdfFile>)
    ensures |r| <= |selected|
    ensures forall i :: 0 <= i < |r| ==> IsPdf(r[i]) && r[i] in selected
  {
    if selected == [] then []
    else (if IsPdf(selected[0]) then [selected[0]] else []) + Accepted(selected[1..])
  }

  /** The filter keeps exactly the PDF files, and keeps them in selection
      order: filtering two selections one after the other is filtering both. */
  lemma {:induction false} AcceptedMeaning(a: seq<PdfFile>, b: seq<PdfFile>)
    ensures Accepted(a + b) == Accepted(a) + Accepted(b)
    ensures forall f :: f in a ==> (f in Accepted(a) <==> IsPdf(f))
  {
    if a != [] {
      AcceptedMeaning(a[1..], b);
      assert (a + b)[1..] == a[1..] + b;
      assert forall f :: f in a ==> f == a[0] || f in a[1..];
    } else {
      assert a + b == b;
    }
  }

  /** `prev.filter((_, i) => i !== index)`. */
  function RemoveAt(files: seq<PdfFile>, index: int): (r: seq<PdfFile>)
    ensures 0 <= index < |files| ==> r == files[..index] + files[index + 1..]
    ensures !(0 <= index < |files|) ==> r == files
  {
    if files == [] then []
    else (if index == 0 then [] else [files[0]]) + RemoveAt(files[1..], index - 1)
  }

  /** The merged document, or None when some file fails to load. */
  function Merged(files: seq<PdfFile>): Option<seq<Page>> {
    if files == [] then Some([])
    else
      var front := Merged(files[..|files| - 1]);
      var last := files[|files| - 1].pages;
      if front.None? || last.None? then None else Some(front.value + last.value)
  }

  predicate AllLoad(files: seq<PdfFile>) {
    forall i :: 0 <= i < |files| ==> files[i].pages.Some?
  }

  /** The number of pages the files hold, when they all load. */
  function PageTotal(files: seq<PdfFile>): nat
    requires AllLoad(files)
  {
    if files == [] then 0 else |files[0].pages.value| + PageTotal(files[1..])
  }

  /** Merging succeeds exactly when every file loads. */
  lemma {:induction false} MergedIffAllLoad(files: seq<PdfFile>)
    ensures Merged(files).Some? <==> AllLoad(files)
  {
    if files != [] {
      var front := files[..|files| - 1];
      MergedIffAllLoad(front);
      assert forall i :: 0 <= i < |front| ==> front[i] == files[i];
    }
  }

  /** The merge of two lists is the merge of the first followed by the merge
      of the second: the pages follow list order, each file's pages in its
      own order. */
  lemma {:induction false} MergedAppend(a: seq<PdfFile>, b: seq<PdfFile>)
    requires AllLoad(a) && AllLoad(b)
    ensures AllLoad(a + b)
    ensures Merged(a).Some? && Merged(b).Some? && Merged(a + b).Some?
    ensures Merged(a + b).value == Merged(a).value + Merged(b).value
    decreases |b|
  {
    MergedIffAllLoad(a);
    MergedIffAllLoad(b);
    MergedIffAllLoad(a + b);
    if b != [] {
      var front := b[..|b| - 1];
      assert (a + b)[..|a + b| - 1] == a + front;
      MergedAppend(a, front);
    } else {
      assert a + b == a;
    }
  }

  /** The merged document has as many pages as the files together. */
  lemma {:induction false} MergedPageCount(files: seq<PdfFile>)
    requires AllLoad(files)
    ensures Merged(files).Some? && |Merged(files).value| == PageTotal(files)
  {
    MergedIffAllLoad(files);
    if files != [] {
      var rest := files[1..];
      MergedPageCount(rest);
      assert files == [files[0]] + rest;
      MergedAppend([files[0]], rest);
      assert Merged([files[0]]) == Some(files[0].pages.value) by {
        var one := [files[0]];
        assert one[..0] == [];
        assert Merged(one[..0]) == Some([]);
        assert [] + files[0].pages.value == files[0].pages.value;
      }
    }
  }

  class Merger {
    var files: seq<PdfFile>
    var mergedPdf: Option<seq<Page>>

    constructor ()
      ensures files == [] && mergedPdf == None
    {
      files, mergedPdf := [], None;
    }

    /** `handleFileChange`: the accepted files of the selection are appended,
        in selection order, and the result is cleared; a selection with no
        PDF changes nothing. */
    method AddFiles(selected: seq<PdfFile>)
      modifies this
      ensures Accepted(selected) == [] ==> files == old(files) && mergedPdf == old(mergedPdf)
      ensures Accepted(selected) != [] ==> files == old(files) + Accepted(selected) && mergedPdf == None
    {
      var pdfFiles := Accepted(selected);
      if |pdfFiles| > 0 {
        files := files + pdfFiles;
        mergedPdf := None;
      }
    }

    /** `removeFile`: drops the file at `index`, keeping the others in order,
        and clears the result even when no file sits there. */
    method RemoveFile(index: int)
      modifies this
      ensures files == RemoveAt(old(files), index) && mergedPdf == None
    {
      files := RemoveAt(files, index);
      mergedPdf := None;
    }

    /** `mergePdfs`: fewer than two files change nothing; otherwise the pages
        of each file in turn are added to a new document, which becomes the
        result, unless some file fails to load. */
    method MergePdfs()
      modifies this
      ensures files == old(files)
      ensures |files| < 2 || Merged(files).None? ==> mergedPdf == old(mergedPdf)
      ensures |files| >= 2 && Merged(files).Some? ==> mergedPdf == Merged(files)
    {
      if |files| < 2 {
        return;
      }
      var merged: seq<Page> := [];
      var i := 0;
      while i < |files|
        invariant 0 <= i <= |files|
        invariant Merged(files[..i]) == Some(merged)
      {
        assert files[..i + 1][..i] == files[..i];
        match files[i].pages {
          case None =>
            NoMergeAfterFailure(files, i);
            return;
          case Some(pages) =>
            merged := merged + pages;
        }
        i := i + 1;
      }
      assert files[..|files|] == files;
      mergedPdf := Some(merged);
    }
  }

  /** A file that fails to load makes the whole merge fail. */
  lemma NoMergeAfterFailure(files: seq<PdfFile>, i: nat)
    requires i < |files| && files[i].pages.None?
    ensures Merged(files).None?
  {
    MergedIffAllLoad(files);
  }

  /** Adding a selection and removing the file just added restores the list,
      when the selection held one PDF. */
  lemma AddThenRemove(files: seq<PdfFile>, f: PdfFile)
    requires IsPdf(f)
    ensures Accepted([f]) == [f]
    ensures RemoveAt(files + Accepted([f]), |files|) == files
  {
    assert (files + [f])[..|files|] == files;
  }
}
