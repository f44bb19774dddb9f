/**
 * The upload filter of the `useDragAndDrop` hook: the configured file types
 * are normalised once; each dropped or picked file is matched by the last
 * `.`-segment of its name or by its MIME type; `handleFiles` splits the
 * files into allowed and rejected ones, reports the rejected ones in one
 * message, and hands the allowed ones to the upload callback together with
 * a folder name.
 *
 * The callbacks `onUploadFiles` and `onError` are recorded as the sequences
 * of arguments they received; the hook's `error` state is a field.
 */
module DragAndDrop {
  import opened Wrappers
  import opened Text
  import opened BrowserFile
  import opened Sequences

  /** One configured type, as the hook compares it: trimmed and lower-cased. */
  function Normalise(t: string): string {
    Lower(Trim(t))
  }

  predicate IsNonEmpty(t: string) {
    t != ""
  }

  function NormaliseAll(ts: seq<string>): (r: seq<string>)
    ensures |r| == |ts| && forall i :: 0 <= i < |ts| ==> r[i] == Normalise(ts[i])
  {
    seq(|ts|, i requires 0 <= i < |ts| => Normalise(ts[i]))
  }

  /** `normalisedTypes`: every configured type normalised, the empty ones dropped. */
  function NormaliseTypes(allowFileTypes: seq<string>): (r: seq<string>)
    ensures forall t :: t in r <==> t != "" && exists i :: 0 <= i < |allowFileTypes| && Normalise(allowFileTypes[i]) == t
  {
    Select(NormaliseAll(allowFileTypes), IsNonEmpty, true)
  }

  /** The normalised types keep the order of the configured ones. */
  lemma NormaliseTypesOrder(allowFileTypes: seq<string>)
    ensures IsSubsequence(NormaliseTypes(allowFileTypes), NormaliseAll(allowFileTypes))
  {
    SelectSubsequence(NormaliseAll(allowFileTypes), IsNonEmpty, true);
  }

  /** Every normalised type is already in lower case. */
  lemma NormalisedAreLower(allowFileTypes: seq<string>, t: string)
    requires t in NormaliseTypes(allowFileTypes)
    ensures Lower(t) == t
  {
    var i :| 0 <= i < |allowFileTypes| && Normalise(allowFileTypes[i]) == t;
    LowerIdempotent(Trim(allowFileTypes[i]));
  }

  /** The segment `isFileAllowed` compares: the lower-cased text after the last `.`, or the whole name. */
  function ExtensionOf(name: string): (r: string)
    ensures '.' !in r
    ensures '.' !in name ==> r == Lower(name)
  {
    var e := AfterLast(name, '.');
    assert forall i :: 0 <= i < |e| ==> Lower(e)[i] != '.';
    Lower(e)
  }

  /** `isFileAllowed`: the segment, the segment after a `.`, or the lower-cased MIME type is listed. */
  predicate IsFileAllowed(types: seq<string>, f: File) {
    var ext := ExtensionOf(f.name);
    ext in types || "." + ext in types || Lower(f.mimeType) in types
  }

  /** The matching ignores case in the name and in the MIME type. */
  lemma AllowedIgnoresCase(types: seq<string>, f: File)
    ensures IsFileAllowed(types, f) == IsFileAllowed(types, File(Lower(f.name), Lower(f.mimeType), f.relativePath))
  {
    AfterLastLower(f.name, '.');
    LowerIdempotent(AfterLast(f.name, '.'));
    LowerIdempotent(f.mimeType);
  }

  /**
   * A file whose name ends in `.ext` is allowed when a configured type
   * normalises to that extension, with or without its leading dot, whatever
   * the case on either side.
   */
  lemma AllowedByListedExtension(allowFileTypes: seq<string>, i: int, base: string, ext: string, f: File)
    requires 0 <= i < |allowFileTypes|
    requires ext != "" && '.' !in ext && f.name == base + "." + ext
    requires Normalise(allowFileTypes[i]) == Lower(ext) || Normalise(allowFileTypes[i]) == "." + Lower(ext)
    ensures IsFileAllowed(NormaliseTypes(allowFileTypes), f)
  {
    assert f.name == base + ['.'] + ext;
    AfterLastSuffix(base, '.', ext);
    assert Lower(ext) != "";
  }

  /** A file is rejected when neither its segment, with or without a dot, nor its MIME type is listed. */
  lemma RejectedUnlisted(types: seq<string>, f: File)
    requires ExtensionOf(f.name) !in types && "." + ExtensionOf(f.name) !in types
    requires Lower(f.mimeType) !in types
    ensures !IsFileAllowed(types, f)
  {
  }

  /** `isFileAllowed` as a function value, for `Select`. */
  function Admits(types: seq<string>): File -> bool {
    f => IsFileAllowed(types, f)
  }

  /** The files `handleFiles` keeps, in input order. */
  function AllowedFiles(types: seq<string>, files: seq<File>): (r: seq<File>)
    ensures forall f :: f in r <==> f in files && IsFileAllowed(types, f)
  {
    Select(files, Admits(types), true)
  }

  /** The files `handleFiles` rejects, in input order. */
  function RejectedFiles(types: seq<string>, files: seq<File>): (r: seq<File>)
    ensures forall f :: f in r <==> f in files && !IsFileAllowed(types, f)
  {
    Select(files, Admits(types), false)
  }

  /**
   * The allowed and the rejected files together are the input, each in
   * input order, and the first are exactly the files `isFileAllowed` accepts.
   */
  lemma PartitionSpec(types: seq<string>, files: seq<File>)
    ensures multiset(AllowedFiles(types, files)) + multiset(RejectedFiles(types, files)) == multiset(files)
    ensures IsSubsequence(AllowedFiles(types, files), files)
    ensures IsSubsequence(RejectedFiles(types, files), files)
    ensures forall f :: f in AllowedFiles(types, files) ==> IsFileAllowed(types, f)
    ensures forall f :: f in RejectedFiles(types, files) ==> !IsFileAllowed(types, f)
  {
    SelectPartition(files, Admits(types));
    SelectSubsequence(files, Admits(types), true);
    SelectSubsequence(files, Admits(types), false);
  }

  /** The `forEach` of `handleFiles`: each file goes to `allowed` or to `rejected`. */
  method Partition(types: seq<string>, files: seq<File>) returns (allowed: seq<File>, rejected: seq<File>)
    ensures allowed == AllowedFiles(types, files)
    ensures rejected == RejectedFiles(types, files)
  {
    allowed, rejected := [], [];
    for i := 0 to |files|
      invariant allowed == AllowedFiles(types, files[..i])
      invariant rejected == RejectedFiles(types, files[..i])
    {
      assert files[..i + 1][..i] == files[..i];
      if IsFileAllowed(types, files[i]) {
        allowed := allowed + [files[i]];
      } else {
        rejected := rejected + [files[i]];
      }
    }
    assert files[..|files|] == files;
  }

  const MaxListedNames: nat := 3

  function Names(fs: seq<File>): (r: seq<string>)
    ensures |r| == |fs| && forall i :: 0 <= i < |fs| ==> r[i] == fs[i].name
  {
    seq(|fs|, i requires 0 <= i < |fs| => fs[i].name)
  }

  /** The text in front of the listed names: the count, `unsupported file`, a plural `s`, a colon. */
  function MessageHead(n: nat): string {
    NatToString(n) + " unsupported file" + (if n > 1 then "s" else "") + ": "
  }

  /** The names the message lists: at most the first three. */
  function ListedNames(rejected: seq<File>): (r: string)
    ensures |rejected| <= MaxListedNames ==> r == Join(Names(rejected), ", ")
  {
    var shown := if |rejected| <= MaxListedNames then rejected else rejected[..MaxListedNames];
    Join(Names(shown), ", ")
  }

  /** The message `handleFiles` reports for a non-empty list of rejected files. */
  function RejectionMessage(rejected: seq<File>): string
    requires rejected != []
  {
    MessageHead(|rejected|) + ListedNames(rejected) + (if |rejected| > MaxListedNames then "…" else "")
  }

  /** Where the count ends, a space follows, and where `file` ends, the plural `s` or the colon. */
  lemma HeadLayout(n: nat)
    ensures var d := NatToString(n);
            && |d| + |" unsupported file"| < |MessageHead(n)|
            && MessageHead(n)[..|d|] == d
            && MessageHead(n)[|d|] == ' '
            && (MessageHead(n)[|d| + |" unsupported file"|] == 's' <==> n > 1)
  {
  }

  /** Whatever follows the head, the text before the first space is the count. */
  lemma HeadCount(n: nat, tail: string)
    ensures BeforeFirst(MessageHead(n) + tail, ' ') == NatToString(n)
  {
    var d := NatToString(n);
    var m := MessageHead(n) + tail;
    HeadLayout(n);
    assert m[..|d|] == d && m[|d|] == ' ';
    assert m == d + [' '] + m[|d| + 1..];
    forall i | 0 <= i < |d| ensures d[i] != ' ' {
    }
    BeforeFirstPrefix(d, ' ', m[|d| + 1..]);
  }

  /** The message starts with the number of rejected files, which reads back as that number. */
  lemma MessageCount(rejected: seq<File>)
    requires rejected != []
    ensures var digits := BeforeFirst(RejectionMessage(rejected), ' ');
            (forall i :: 0 <= i < |digits| ==> '0' <= digits[i] <= '9') && DigitsValue(digits) == |rejected|
  {
    var n := |rejected|;
    var tail := ListedNames(rejected) + (if n > MaxListedNames then "…" else "");
    assert RejectionMessage(rejected) == MessageHead(n) + tail;
    HeadCount(n, tail);
    NatToStringValue(n);
  }

  /** `file` takes an `s` exactly when more than one file was rejected. */
  lemma MessagePlural(rejected: seq<File>)
    requires rejected != []
    ensures var k := |NatToString(|rejected|)| + |" unsupported file"|;
            k < |RejectionMessage(rejected)| && (RejectionMessage(rejected)[k] == 's' <==> |rejected| > 1)
  {
    var h := MessageHead(|rejected|);
    HeadLayout(|rejected|);
    assert RejectionMessage(rejected)[..|h|] == h;
  }

  /** Up to three rejected files, the message lists all their names and ends there. */
  lemma MessageListsAll(rejected: seq<File>)
    requires 0 < |rejected| <= MaxListedNames
    ensures RejectionMessage(rejected) == MessageHead(|rejected|) + Join(Names(rejected), ", ")
  {
  }

  /** Beyond three, it lists the first three names and ends with an ellipsis. */
  lemma MessageTruncated(rejected: seq<File>)
    requires |rejected| > MaxListedNames
    ensures RejectionMessage(rejected) == MessageHead(|rejected|) + Join(Names(rejected[..3]), ", ") + "…"
    ensures RejectionMessage(rejected)[|RejectionMessage(rejected)| - 1] == '…'
  {
  }

  /**
   * The folder name passed to `onUploadFiles`: the trimmed custom name if it
   * is not empty; otherwise the first `/`-segment of the first allowed file's
   * relative path, when that path has a `/` and the segment is not empty;
   * otherwise none.
   */
  function FolderName(customFolderName: Option<string>, first: File): (r: Option<string>)
    ensures r.Some? ==> r.value != ""
  {
    if customFolderName.Some? && Trim(customFolderName.value) != "" then Some(Trim(customFolderName.value))
    else if '/' in first.relativePath && BeforeFirst(first.relativePath, '/') != "" then Some(BeforeFirst(first.relativePath, '/'))
    else None
  }

  /** A non-blank custom name wins, trimmed. */
  lemma FolderNameCustom(customFolderName: string, first: File)
    requires Trim(customFolderName) != ""
    ensures FolderName(Some(customFolderName), first) == Some(Trim(customFolderName))
  {
  }

  /** Without one, a path `top/rest` names the folder `top`. */
  lemma FolderNameFromPath(customFolderName: Option<string>, top: string, rest: string, first: File)
    requires customFolderName.None? || Trim(customFolderName.value) == ""
    requires top != "" && '/' !in top && first.relativePath == top + "/" + rest
    ensures FolderName(customFolderName, first) == Some(top)
  {
    assert first.relativePath == top + ['/'] + rest;
    BeforeFirstPrefix(top, '/', rest);
  }

  /** Without either, no folder name is passed. */
  lemma FolderNameNone(customFolderName: Option<string>, first: File)
    requires customFolderName.None? || Trim(customFolderName.value) == ""
    requires '/' !in first.relativePath
    ensures FolderName(customFolderName, first) == None
  {
  }

  /** One call of `onUploadFiles`. */
  datatype UploadCall = UploadCall(files: seq<File>, folderName: Option<string>)

  /** The message `handleFiles` reports, if any. */
  function ErrorOf(types: seq<string>, files: seq<File>): Option<string> {
    var rejected := RejectedFiles(types, files);
    if rejected == [] then None else Some(RejectionMessage(rejected))
  }

  /** The `onUploadFiles` call `handleFiles` makes, if any. */
  function UploadOf(types: seq<string>, files: seq<File>, customFolderName: Option<string>): Option<UploadCall> {
    var allowed := AllowedFiles(types, files);
    if allowed == [] then None else Some(UploadCall(allowed, FolderName(customFolderName, allowed[0])))
  }

  /**
   * A message is reported exactly when some file is rejected, and an upload
   * is requested exactly when some file is allowed, with exactly the allowed
   * files; so an empty drop does neither.
   */
  lemma HandleFilesOutcome(types: seq<string>, files: seq<File>, customFolderName: Option<string>)
    ensures ErrorOf(types, files).Some? <==> exists f :: f in files && !IsFileAllowed(types, f)
    ensures UploadOf(types, files, customFolderName).Some? <==> exists f :: f in files && IsFileAllowed(types, f)
    ensures UploadOf(types, files, customFolderName).Some? ==>
              && UploadOf(types, files, customFolderName).value.files == AllowedFiles(types, files)
              && forall f :: f in UploadOf(types, files, customFolderName).value.files ==> IsFileAllowed(types, f)
    ensures files == [] ==> ErrorOf(types, files) == None && UploadOf(types, files, customFolderName) == None
  {
    var allowed := AllowedFiles(types, files);
    var rejected := RejectedFiles(types, files);
    if allowed != [] {
      assert allowed[0] in allowed;
    }
    if rejected != [] {
      assert rejected[0] in rejected;
    }
  }

  /** Drag-and-drop state of one drop zone. */
  class DropZone {
    const normalisedTypes: seq<string>
    /** The `error` state shown under the drop zone. */
    var error: Option<string>
    /** The messages passed to `onError`, oldest first. */
    var reportedErrors: seq<string>
    /** The calls of `onUploadFiles`, oldest first. */
    var uploadCalls: seq<UploadCall>

    constructor(allowFileTypes: seq<string>)
      ensures normalisedTypes == NormaliseTypes(allowFileTypes)
      ensures error == None && reportedErrors == [] && uploadCalls == []
    {
      normalisedTypes := NormaliseTypes(allowFileTypes);
      error, reportedErrors, uploadCalls := None, [], [];
    }

    /**
     * `handleFiles`: a rejection message becomes the error and is reported;
     * the allowed files, if any, are handed on with the folder name.
     */
    method HandleFiles(files: seq<File>, customFolderName: Option<string>)
      modifies this
      ensures files == [] ==> unchanged(this)
      ensures ErrorOf(normalisedTypes, files).Some? ==> error == ErrorOf(normalisedTypes, files)
      ensures ErrorOf(normalisedTypes, files).None? ==> error == old(error)
      ensures reportedErrors == old(reportedErrors) + OptionToSeq(ErrorOf(normalisedTypes, files))
      ensures uploadCalls == old(uploadCalls) + OptionToSeq(UploadOf(normalisedTypes, files, customFolderName))
    {
      if |files| == 0 {
        return;
      }
      var allowed, rejected := Partition(normalisedTypes, files);
      if |rejected| > 0 {
        var errorMessage := RejectionMessage(rejected);
        error := Some(errorMessage);
        reportedErrors := reportedErrors + [errorMessage];
      }
      if |allowed| == 0 {
        return;
      }
      var folderName := DeriveFolderName(customFolderName, allowed[0]);
      uploadCalls := uploadCalls + [UploadCall(allowed, folderName)];
    }
  }

  /** The folder-name block of `handleFiles`, for the first allowed file. */
  method DeriveFolderName(customFolderName: Option<string>, first: File) returns (folderName: Option<string>)
    ensures folderName == FolderName(customFolderName, first)
  {
    var name := if customFolderName.Some? then Some(Trim(customFolderName.value)) else None;
    if !(name.Some? && name.value != "") && first.relativePath != "" {
      var path := first.relativePath;
      if '/' in path {
        name := Some(BeforeFirst(path, '/'));
      }
    }
    folderName := if name.Some? && name.value != "" then name else None;
  }

  /** An optional value as a list of zero or one element. */
  function OptionToSeq<T>(o: Option<T>): (r: seq<T>)
    ensures o.Some? ==> r == [o.value]
    ensures o.None? ==> r == []
  {
    if o.Some? then [o.value] else []
  }
}
