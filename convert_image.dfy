/** src/tools/Image/ConvertImage.tsx: which files are accepted, the extension
    of each target format, the name of the download, and which target formats
    get a white background and a quality control. The canvas drawing and the
    encoding are not modelled. */
module ConvertImage {

  import opened Wrappers
  import opened Strings

  /** The three target formats of the format menu. */
  datatype Format = Jpeg | Png | Webp

  function Mime(f: Format): string {
    match f
    case Jpeg => "image/jpeg"
    case Png => "image/png"
    case Webp => "image/webp"
  }

  /** `getExtension`: png and webp keep their names, JPEG and every other
      type become "jpg". */
  function Extension(mimeType: string): (ext: string)
    ensures ext == "png" <==> mimeType == "image/png"
    ensures ext == "webp" <==> mimeType == "image/webp"
    ensures ext == "jpg" <==> mimeType != "image/png" && mimeType != "image/webp"
  {
    if mimeType == "image/jpeg" then "jpg"
    else if mimeType == "image/png" then "png"
    else if mimeType == "image/webp" then "webp"
    else "jpg"
  }

  /** Each target format has its own extension, free of dots, so the
      extension tells the format back. */
  lemma ExtensionsDistinct(f: Format, g: Format)
    ensures '.' !in Extension(Mime(f))
    ensures Extension(Mime(f)) == Extension(Mime(g)) ==> f == g
  {
  }

  /** `/\.(jpg|jpeg|png|gif|webp|svg)$/i`. */
  predicate ImageName(name: string) {
    var n := Lower(name);
    EndsWith(n, ".jpg") || EndsWith(n, ".jpeg") || EndsWith(n, ".png")
      || EndsWith(n, ".gif") || EndsWith(n, ".webp") || EndsWith(n, ".svg")
  }

  /** The acceptance test of `handleFileChange`. */
  predicate Accepted(mimeType: string, name: string) {
    StartsWith(mimeType, "image/") || ImageName(name)
  }

  /** The extension test ignores case. */
  lemma AcceptanceIgnoresCase(mimeType: string, name: string)
    ensures Accepted(mimeType, name) <==> Accepted(mimeType, Lower(name))
  {
    LowerIdempotent(name);
  }

  /** A chosen file: its MIME type and its name. */
  datatype ImageFile = ImageFile(mime: string, name: string)

  /** The part of the state `handleFileChange` writes: the file and the
      converted image (a data URL). */
  datatype Converter = Converter(file: Option<ImageFile>, converted: Option<string>)

  /** `handleFileChange`: an accepted file becomes the current one and clears
      the previous result; anything else changes nothing. */
  function OnFileChange(st: Converter, selected: Option<ImageFile>): (r: Converter)
    ensures selected.Some? && Accepted(selected.value.mime, selected.value.name) ==>
      r.file == selected && r.converted == None
    ensures !(selected.Some? && Accepted(selected.value.mime, selected.value.name)) ==> r == st
  {
    if selected.Some? && Accepted(selected.value.mime, selected.value.name) then
      Converter(selected, None)
    else st
  }

  /** Choosing the same accepted file twice is choosing it once. */
  lemma OnFileChangeIdempotent(st: Converter, selected: Option<ImageFile>)
    ensures OnFileChange(OnFileChange(st, selected), selected) == OnFileChange(st, selected)
  {
  }

  /** The download name `converted_${file.name.split(".")[0]}.${ext}`. */
  function DownloadName(name: string, target: string): string {
    "converted_" + Before(name, '.') + "." + Extension(target)
  }

  /** The download name splits at its one dot into the prefixed stem of the
      file name and the target's extension. */
  lemma DownloadNameParts(name: string, f: Format)
    ensures Split(DownloadName(name, Mime(f)), '.') == ["converted_" + Before(name, '.'), Extension(Mime(f))]
    ensures EndsWith(DownloadName(name, Mime(f)), "." + Extension(Mime(f)))
  {
    var stem := "converted_" + Before(name, '.');
    var ext := Extension(Mime(f));
    assert '.' !in "converted_";
    assert '.' !in stem;
    ExtensionsDistinct(f, f);
    JoinSplit([stem, ext], '.');
    assert Join([stem, ext], '.') == stem + "." + ext;
  }

  /** The white background fill is for a JPEG target only. */
  predicate FillsWhite(target: string) {
    target == "image/jpeg"
  }

  /** The quality control is shown for the lossy targets JPEG and WebP. */
  predicate ShowsQuality(target: string) {
    target == "image/jpeg" || target == "image/webp"
  }

  /** Of the three formats, JPEG is filled white and has a quality, WebP has
      a quality but keeps transparency, and PNG has neither. */
  lemma TargetOptions(f: Format)
    ensures FillsWhite(Mime(f)) <==> f == Jpeg
    ensures ShowsQuality(Mime(f)) <==> f != Png
    ensures FillsWhite(Mime(f)) ==> ShowsQuality(Mime(f))
  {
  }
}
