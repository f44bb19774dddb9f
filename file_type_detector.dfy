/**
 * `FileTypeDetector`: classifies a stored document as a PDF, an image or
 * unsupported, from its declared file type and, failing that, from its
 * storage URL; and maps file names to extensions and extensions to MIME
 * types.
 *
 * An optional string argument is an `Option<string>`; JavaScript treats
 * both an absent value and the empty string as false, which `Truthy` says.
 */
module FileTypeDetection {
  import opened Wrappers
  import opened Text

  datatype Category = Pdf | Image | Unsupported

  datatype FileTypeInfo = FileTypeInfo(category: Category, mimeType: Option<string>, extension: Option<string>)

  /** The image types, in the order both `isImageType` and the URL fallback try them. */
  const ImageExtensions: seq<string> := ["jpg", "jpeg", "png", "gif", "webp", "bmp", "svg"]

  const PdfMime: string := "application/pdf"
  const DefaultMime: string := "application/octet-stream"

  /** A JavaScript string value that is present and non-empty. */
  predicate Truthy(s: Option<string>) {
    s.Some? && s.value != ""
  }

  function PdfInfo(): FileTypeInfo {
    FileTypeInfo(Pdf, Some(PdfMime), Some("pdf"))
  }

  function ImageInfo(ext: string): FileTypeInfo {
    FileTypeInfo(Image, Some("image/" + ext), Some(ext))
  }

  function UnsupportedInfo(): FileTypeInfo {
    FileTypeInfo(Unsupported, None, None)
  }

  /** `isImageType`: one of the image extensions (in any case), or a MIME type under `image/`. */
  predicate IsImageType(fileType: string) {
    Lower(fileType) in ImageExtensions || StartsWith(fileType, "image/")
  }

  /** The `for … of` loop of the URL fallback: the first extension `e` of `exts` whose `.e` occurs in `url`. */
  function FirstContained(url: string, exts: seq<string>): (r: Option<string>)
    ensures r.None? <==> forall j :: 0 <= j < |exts| ==> !Contains(url, "." + exts[j])
    ensures r.Some? ==> exists i :: 0 <= i < |exts| && exts[i] == r.value && Contains(url, "." + exts[i])
                                     && forall j :: 0 <= j < i ==> !Contains(url, "." + exts[j])
  {
    if exts == [] then None
    else if Contains(url, "." + exts[0]) then Some(exts[0])
    else
      var r := FirstContained(url, exts[1..]);
      assert forall j :: 1 <= j < |exts| ==> exts[j] == exts[1..][j - 1];
      r
  }

  /** `detectFileType`: the declared type first, then the storage URL. */
  function DetectFileType(storagePath: Option<string>, fileType: Option<string>): (r: FileTypeInfo)
    ensures r.category == Unsupported <==> r.mimeType == None
    ensures r.category == Unsupported <==> r.extension == None
    ensures r.category == Pdf ==> r == PdfInfo()
    ensures r.category == Image ==> exists e :: r == ImageInfo(e)
  {
    if !Truthy(storagePath) && !Truthy(fileType) then UnsupportedInfo()
    else if Truthy(fileType) && (fileType.value == "pdf" || Contains(fileType.value, "pdf")) then PdfInfo()
    else if Truthy(fileType) && IsImageType(fileType.value) then ImageInfo(fileType.value)
    else if Truthy(storagePath) then
      var url := Lower(storagePath.value);
      if Contains(url, ".pdf") then PdfInfo()
      else match FirstContained(url, ImageExtensions)
        case Some(ext) => ImageInfo(ext)
        case None => UnsupportedInfo()
    else UnsupportedInfo()
  }

  /** With neither a path nor a type there is nothing to go on. */
  lemma DetectNothing(storagePath: Option<string>, fileType: Option<string>)
    requires !Truthy(storagePath) && !Truthy(fileType)
    ensures DetectFileType(storagePath, fileType) == FileTypeInfo(Unsupported, None, None)
  {
  }

  /** A declared type mentioning `pdf` decides, whatever the path says. */
  lemma DetectPdfType(storagePath: Option<string>, fileType: string)
    requires Contains(fileType, "pdf")
    ensures DetectFileType(storagePath, Some(fileType)) == FileTypeInfo(Pdf, Some("application/pdf"), Some("pdf"))
  {
    var i :| 0 <= i <= |fileType| && OccursAt(fileType, "pdf", i);
    assert |fileType| >= 3;
  }

  /**
   * A declared image type that does not mention `pdf` decides next; its MIME
   * type is `image/` followed by the declared type exactly as given.
   */
  lemma DetectImageType(storagePath: Option<string>, fileType: string)
    requires fileType != "" && !Contains(fileType, "pdf") && IsImageType(fileType)
    ensures DetectFileType(storagePath, Some(fileType)) == FileTypeInfo(Image, Some("image/" + fileType), Some(fileType))
  {
    ContainsSelf("pdf");
  }

  /** So a declared MIME type such as `image/png` comes back as `image/image/png`. */
  lemma DetectImageMimeDoubled()
    ensures DetectFileType(None, Some("image/png")).mimeType == Some("image/image/png")
  {
    var t := "image/png";
    assert StartsWith(t, "image/");
    NotContainsChar(t, "pdf", 'd', 1);
    assert DetectFileType(None, Some(t)) == ImageInfo(t);
    assert "image/" + t == "image/image/png";
  }

  /**
   * When the declared type does not decide, the lower-cased URL does: `.pdf`
   * anywhere makes a PDF, otherwise the first image extension in list order
   * whose `.ext` occurs, otherwise unsupported.
   */
  lemma DetectByPath(path: string, fileType: Option<string>)
    requires path != ""
    requires !Truthy(fileType) || (!Contains(fileType.value, "pdf") && !IsImageType(fileType.value))
    ensures Contains(Lower(path), ".pdf") ==> DetectFileType(Some(path), fileType) == PdfInfo()
    ensures !Contains(Lower(path), ".pdf") ==>
              DetectFileType(Some(path), fileType)
              == match FirstContained(Lower(path), ImageExtensions)
                   case Some(ext) => ImageInfo(ext)
                   case None => UnsupportedInfo()
  {
    ContainsSelf("pdf");
  }

  /** A declared type that is neither a PDF nor an image, with no path to fall back on, is unsupported. */
  lemma DetectUndecidedNoPath(storagePath: Option<string>, fileType: string)
    requires fileType != "" && !Contains(fileType, "pdf") && !IsImageType(fileType)
    requires !Truthy(storagePath)
    ensures DetectFileType(storagePath, Some(fileType)) == UnsupportedInfo()
  {
    ContainsSelf("pdf");
  }

  /** `isPDFType`: the declared type mentions `pdf`, or the lower-cased path mentions `.pdf`. */
  predicate IsPDFType(fileType: Option<string>, storagePath: Option<string>) {
    (fileType.Some? && (fileType.value == "pdf" || Contains(fileType.value, "pdf")))
    || (storagePath.Some? && Contains(Lower(storagePath.value), ".pdf"))
  }

  /**
   * `isPDFType` agrees with `detectFileType` except where a declared image
   * type wins over a `.pdf` path: detection as PDF implies `isPDFType`, and
   * `isPDFType` implies detection as PDF unless the declared type is an image type.
   */
  lemma PdfTypeAgrees(fileType: Option<string>, storagePath: Option<string>)
    ensures DetectFileType(storagePath, fileType).category == Pdf ==> IsPDFType(fileType, storagePath)
    ensures IsPDFType(fileType, storagePath) && !(Truthy(fileType) && IsImageType(fileType.value)) ==>
              DetectFileType(storagePath, fileType).category == Pdf
  {
    if fileType.Some? && fileType.value == "" {
      forall i | 0 <= i <= 0 ensures !OccursAt(fileType.value, "pdf", i) {
      }
    }
    if storagePath.Some? && storagePath.value == "" {
      forall i | 0 <= i <= 0 ensures !OccursAt(Lower(storagePath.value), ".pdf", i) {
      }
    }
  }

  /** `getFileExtension`: the lower-cased text after the last `.`, or nothing. */
  function GetFileExtension(fileName: Option<string>): (r: Option<string>)
    ensures r.Some? <==> Truthy(fileName) && '.' in fileName.value && fileName.value[|fileName.value| - 1] != '.'
    ensures r.Some? ==> r.value != "" && '.' !in r.value
  {
    if !Truthy(fileName) || '.' !in fileName.value then None
    else
      var last := AfterLast(fileName.value, '.');
      if last == "" then None else Some(Lower(last))
  }

  /** An extension put after a `.` comes back, lower-cased. */
  lemma GetFileExtensionOf(base: string, ext: string)
    requires ext != "" && '.' !in ext
    ensures GetFileExtension(Some(base + "." + ext)) == Some(Lower(ext))
  {
    var name := base + "." + ext;
    assert name == base + ['.'] + ext;
    AfterLastSuffix(base, '.', ext);
    assert name[|name| - 1] == ext[|ext| - 1];
  }

  /** The Office Open XML types share one long prefix. */
  function OpenXmlMime(subtype: string): string {
    "application/" + "vnd.openxmlformats-officedocument." + subtype
  }

  /** The MIME table, keyed by lower-case extension. */
  const MimeTable: map<string, string> := map[
    "pdf" := "application/pdf",
    "jpg" := "image/jpeg",
    "jpeg" := "image/jpeg",
    "png" := "image/png",
    "gif" := "image/gif",
    "webp" := "image/webp",
    "bmp" := "image/bmp",
    "svg" := "image/svg+xml",
    "doc" := "application/msword",
    "docx" := OpenXmlMime("wordprocessingml.document"),
    "xls" := "application/vnd.ms-excel",
    "xlsx" := OpenXmlMime("spreadsheetml.sheet"),
    "ppt" := "application/vnd.ms-powerpoint",
    "pptx" := OpenXmlMime("presentationml.presentation"),
    "txt" := "text/plain",
    "json" := "application/json",
    "xml" := "application/xml",
    "html" := "text/html",
    "css" := "text/css",
    "js" := "application/javascript",
    "ts" := "application/typescript"
  ]

  /** `getMimeTypeFromExtension`: a case-insensitive lookup with a generic fallback. */
  function GetMimeTypeFromExtension(extension: string): (r: string)
    ensures r != ""
    ensures Lower(extension) in MimeTable ==> r == MimeTable[Lower(extension)]
    ensures Lower(extension) !in MimeTable ==> r == DefaultMime
  {
    var key := Lower(extension);
    if key in MimeTable && MimeTable[key] != "" then MimeTable[key] else DefaultMime
  }

  /** The lookup ignores case: an extension and its lower-cased form map alike. */
  lemma MimeIgnoresCase(extension: string)
    ensures GetMimeTypeFromExtension(extension) == GetMimeTypeFromExtension(Lower(extension))
  {
    LowerIdempotent(extension);
  }

  /**
   * `isImageType` and the MIME table agree: a type that is not already an
   * `image/` MIME type is an image type exactly when its extension's MIME type
   * is an `image/` one.
   */
  lemma ImageTypeAgreesWithMime(fileType: string)
    requires !StartsWith(fileType, "image/")
    ensures IsImageType(fileType) <==> StartsWith(GetMimeTypeFromExtension(fileType), "image/")
  {
    var key := Lower(fileType);
    if key in MimeTable {
      ImageMimeKeys(key);
    } else {
      assert key !in ImageExtensions;
      assert DefaultMime[0] != 'i';
    }
  }

  /** The table's `image/` entries are exactly the image extensions. */
  lemma ImageMimeKeys(key: string)
    requires key in MimeTable
    ensures StartsWith(MimeTable[key], "image/") <==> key in ImageExtensions
  {
    var v := MimeTable[key];
    if key in ImageExtensions {
      assert v == "image/jpeg" || v == "image/png" || v == "image/gif" || v == "image/webp"
          || v == "image/bmp" || v == "image/svg+xml";
      assert v[..6] == "image/";
    } else {
      OtherMimeValues(key);
      assert v[0] != 'i';
    }
  }

  /** The other entries are `application/` and `text/` types, so none starts with an `i`. */
  lemma OtherMimeValues(key: string)
    requires key in MimeTable && key !in ImageExtensions
    ensures MimeTable[key] != "" && MimeTable[key][0] in "at"
  {
    assert key == "pdf" || key == "doc" || key == "docx" || key == "xls" || key == "xlsx" || key == "ppt"
        || key == "pptx" || key == "txt" || key == "json" || key == "xml" || key == "html" || key == "css"
        || key == "js" || key == "ts";
  }

  /** What `getFileExtension` extracts from a name ending in a known extension finds that extension's MIME type. */
  lemma MimeOfFileName(base: string, ext: string)
    requires ext != "" && '.' !in ext && Lower(ext) in MimeTable
    ensures GetMimeTypeFromExtension(GetFileExtension(Some(base + "." + ext)).value) == MimeTable[Lower(ext)]
  {
    GetFileExtensionOf(base, ext);
    LowerIdempotent(ext);
  }
}
