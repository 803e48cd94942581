/** src/tools/Pdf/SplitPdf.tsx: loading a PDF resets the page range to the
    whole document; splitting checks the range, lists the page indices and
    copies those pages, in order, into a new document; the download is named
    after the range and the file. The object URL of the result is modelled by
    the pages of the document it denotes. */
module SplitPdf {

  import opened Wrappers
  import opened Strings
  import opened PdfFiles

  /** The guard of `splitPdf`: no file, an inverted range, a start before the
      first page or an end after the last. */
  predicate Refused(file: Option<PdfFile>, startPage: int, endPage: int, pageCount: int) {
    file.None? || startPage > endPage || startPage < 1 || endPage > pageCount
  }

  /** `Array.from({ length: endPage - startPage + 1 }, (_, i) => startPage - 1 + i)`;
      a negative length gives the empty list. */
  function PageIndices(startPage: int, endPage: int): (r: seq<int>)
    ensures |r| == if endPage < startPage then 0 else endPage - startPage + 1
  {
    var n := endPage - startPage + 1;
    seq(if n < 0 then 0 else n, i => startPage - 1 + i)
  }

  /** The indices of a range the guard lets through run from start - 1 to
      end - 1 in steps of one, and every one of them is a page of the
      document. */
  lemma IndicesInRange(file: Option<PdfFile>, startPage: int, endPage: int, pageCount: int)
    requires !Refused(file, startPage, endPage, pageCount)
    ensures |PageIndices(startPage, endPage)| == endPage - startPage + 1
    ensures PageIndices(startPage, endPage)[0] == startPage - 1
    ensures PageIndices(startPage, endPage)[|PageIndices(startPage, endPage)| - 1] == endPage - 1
    ensures forall i :: 0 <= i < |PageIndices(startPage, endPage)| - 1 ==>
      PageIndices(startPage, endPage)[i + 1] == PageIndices(startPage, endPage)[i] + 1
    ensures forall i :: 0 <= i < |PageIndices(startPage, endPage)| ==>
      0 <= PageIndices(startPage, endPage)[i] < pageCount
  {
  }

  /** `newPdf.copyPages(pdf, indices)` followed by one `addPage` per copy: the
      new document holds the indexed pages in the order of the indices. */
  method CopyPages(pages: seq<Page>, indices: seq<int>) returns (doc: seq<Page>)
    requires forall i :: 0 <= i < |indices| ==> 0 <= indices[i] < |pages|
    ensures |doc| == |indices|
    ensures forall i :: 0 <= i < |indices| ==> doc[i] == pages[indices[i]]
  {
    doc := [];
    var i := 0;
    while i < |indices|
      invariant 0 <= i <= |indices|
      invariant |doc| == i
      invariant forall k :: 0 <= k < i ==> doc[k] == pages[indices[k]]
    {
      doc := doc + [pages[indices[i]]];
      i := i + 1;
    }
  }

  /** Copying the pages a range lists extracts the slice of the document from
      the start page to the end page, both included. */
  lemma RangeIsSlice(pages: seq<Page>, startPage: int, endPage: int, doc: seq<Page>)
    requires 1 <= startPage <= endPage <= |pages|
    requires |doc| == |PageIndices(startPage, endPage)|
    requires forall i :: 0 <= i < |doc| ==> doc[i] == pages[PageIndices(startPage, endPage)[i]]
    ensures doc == pages[startPage - 1..endPage]
  {
  }

  /** The download name `split_${startPage}-${endPage}_${file.name}`. */
  function DownloadName(startPage: int, endPage: int, name: string): string {
    "split_" + IntToString(startPage) + "-" + IntToString(endPage) + "_" + name
  }

  predicate AllDigits(s: string) {
    forall i :: 0 <= i < |s| ==> '0' <= s[i] <= '9'
  }

  /** Reads a number written in decimal up to the first `c`, and what follows
      that `c`. */
  function ParseNumberThen(s: string, c: char): Option<(nat, string)> {
    var a := Before(s, c);
    if |a| == |s| || a == "" || !AllDigits(a) then None
    else Some((DecimalValue(a), s[|a| + 1..]))
  }

  lemma NumberThenRoundTrip(n: nat, c: char, rest: string)
    requires !('0' <= c <= '9')
    ensures ParseNumberThen(NatToString(n) + [c] + rest, c) == Some((n, rest))
  {
    var a := NatToString(n);
    var s := a + [c] + rest;
    BeforePrefix(a, rest, c);
    assert s[|a| + 1..] == rest;
    NatToStringRoundTrip(n);
  }

  /** Reads a download name back into the range and the file name. */
  function ParseDownloadName(dn: string): Option<(nat, nat, string)> {
    if !StartsWith(dn, "split_") then None
    else match ParseNumberThen(dn[6..], '-')
      case None => None
      case Some((a, rest)) =>
        match ParseNumberThen(rest, '_')
          case None => None
          case Some((b, name)) => Some((a, b, name))
  }

  /** The name of a download of a range the guard lets through gives back the
      range and the file name: different splits of different files are never
      offered under the same name. */
  lemma DownloadNameRoundTrip(startPage: int, endPage: int, name: string)
    requires 1 <= startPage <= endPage
    ensures ParseDownloadName(DownloadName(startPage, endPage, name)) == Some((startPage, endPage, name))
  {
    var s, e := NatToString(startPage), NatToString(endPage);
    var dn := DownloadName(startPage, endPage, name);
    var tail := e + ['_'] + name;
    assert dn == "split_" + (s + ['-'] + tail);
    assert dn[6..] == s + ['-'] + tail;
    NumberThenRoundTrip(startPage, '-', tail);
    NumberThenRoundTrip(endPage, '_', name);
  }

  class Splitter {
    var file: Option<PdfFile>
    var pageCount: int
    var startPage: int
    var endPage: int
    var splitPdf: Option<seq<Page>>

    /** The page count is the loaded document's whenever the current file
        loads. */
    predicate Valid()
      reads this
    {
      file.Some? && file.value.pages.Some? ==> pageCount == |file.value.pages.value|
    }

    constructor ()
      ensures Valid()
      ensures file == None && pageCount == 0 && startPage == 1 && endPage == 1 && splitPdf == None
    {
      file, pageCount, startPage, endPage, splitPdf := None, 0, 1, 1, None;
    }

    /** `handleFileChange`: an accepted file replaces the current one and
        clears the result; when it loads, the range becomes the whole
        document; when loading throws, the counts stay. Anything else changes
        nothing. */
    method HandleFileChange(selected: Option<PdfFile>)
      requires Valid()
      modifies this
      ensures Valid()
      ensures selected.None? || !IsPdf(selected.value) ==>
        file == old(file) && splitPdf == old(splitPdf) && pageCount == old(pageCount)
        && startPage == old(startPage) && endPage == old(endPage)
      ensures selected.Some? && IsPdf(selected.value) ==> file == selected && splitPdf == None
      ensures selected.Some? && IsPdf(selected.value) && selected.value.pages.Some? ==>
        pageCount == |selected.value.pages.value| && startPage == 1 && endPage == pageCount
      ensures selected.Some? && IsPdf(selected.value) && selected.value.pages.None? ==>
        pageCount == old(pageCount) && startPage == old(startPage) && endPage == old(endPage)
    {
      if selected.Some? && IsPdf(selected.value) {
        file := selected;
        splitPdf := None;
        match selected.value.pages {
          case Some(pages) =>
            var count := |pages|;
            pageCount := count;
            startPage := 1;
            endPage := count;
          case None =>
        }
      }
    }

    /** `splitPdf`: a refused range changes nothing, and neither does a file
        that fails to load; otherwise the result is the document made of the
        pages from the start page to the end page. */
    method Split()
      requires Valid()
      modifies this
      ensures Valid()
      ensures file == old(file) && pageCount == old(pageCount)
      ensures startPage == old(startPage) && endPage == old(endPage)
      ensures Refused(file, startPage, endPage, pageCount) || file.value.pages.None? ==>
        splitPdf == old(splitPdf)
      ensures !Refused(file, startPage, endPage, pageCount) && file.value.pages.Some? ==>
        1 <= startPage <= endPage <= |file.value.pages.value|
        && splitPdf == Some(file.value.pages.value[startPage - 1..endPage])
    {
      if Refused(file, startPage, endPage, pageCount) {
        return;
      }
      match file.value.pages {
        case None =>
          return;
        case Some(pages) =>
          IndicesInRange(file, startPage, endPage, pageCount);
          var pageIndices := PageIndices(startPage, endPage);
          var copiedPages := CopyPages(pages, pageIndices);
          RangeIsSlice(pages, startPage, endPage, copiedPages);
          splitPdf := Some(copiedPages);
      }
    }
  }

  /** After a file loads, splitting right away extracts the whole document. */
  lemma FreshRangeIsWhole(pages: seq<Page>)
    requires |pages| >= 1
    ensures !Refused(Some(PdfFile("", "", Some(pages))), 1, |pages|, |pages|)
    ensures pages[1 - 1..|pages|] == pages
  {
  }

  /** An empty document cannot be split: its whole range ends before page 1. */
  lemma EmptyDocumentRefused(f: PdfFile)
    ensures Refused(Some(f), 1, 0, 0)
  {
  }
}
