/**
 * api/upload.php: stores one uploaded attachment under
 * `vanban_files/vanbanden/` (incoming) or `vanban_files/vanbandi/`
 * (outgoing), renamed `<timestamp>_<original name>`. The extension is checked
 * before the size. Every failure after the method check is an exception whose
 * message is sent back with `success: false` and status 200.
 *
 * The clock (`time()`) is the `timestamp` parameter. Whether
 * `move_uploaded_file` succeeds is the `moved` parameter. Creating the folder
 * is left out.
 */
module Upload {
  import opened Common

  /** An entry of `$_FILES`: the client's file name, its size in bytes and the MIME type it claimed. */
  datatype UploadedFile = UploadedFile(name: string, size: int, mime: string)

  /** The `data` object of a successful reply. */
  datatype StoredFile = StoredFile(name: string, path: string, size: int, mime: string)

  datatype Reply = Reply(status: int, success: bool, message: string, data: Option<StoredFile>)

  const MaxSize: int := 10 * 1024 * 1024

  const AllowedExtensions: set<string> := {"pdf", "doc", "docx", "xls", "xlsx", "txt"}

  /**
   * `pathinfo($name, PATHINFO_EXTENSION)`: the text after the last '.' of the
   * last '/'-segment, or "" when that segment has no '.'.
   */
  function Extension(name: string): (r: string)
    ensures '.' !in r
    ensures |r| <= |name| && r == name[|name| - |r|..]
  {
    var base := LastSegment(name, '/');
    var e := AfterLastDot(base);
    SuffixOfSuffix(name, base, e);
    e
  }

  /** The text after the last '.', or "" when there is none. */
  function AfterLastDot(base: string): (r: string)
    ensures '.' !in r
    ensures |r| <= |base| && r == base[|base| - |r|..]
  {
    var e := LastSegment(base, '.');
    // the segment after the last '.' is the whole text exactly when there is no '.'
    if |e| < |base| then e else ""
  }

  /** The folder a document type's attachments go to; an absent type counts as 'incoming'. */
  function FolderName(documentType: Option<string>): string
  {
    var t := if documentType.Some? then documentType.value else "incoming";
    if t == "incoming" then "vanbanden" else "vanbandi"
  }

  /** The name the file is stored under. */
  function StoredName(timestamp: nat, name: string): string
  {
    NatToString(timestamp) + "_" + name
  }

  function Failure(message: string): Reply
  {
    Reply(200, false, message, None)
  }

  predicate Accepted(file: UploadedFile)
  {
    AsciiLower(Extension(file.name)) in AllowedExtensions && file.size <= MaxSize
  }

  /** The reply to one request. */
  function HandleUpload(httpMethod: string, file: Option<UploadedFile>, documentType: Option<string>,
                        timestamp: nat, moved: bool): (r: Reply)
    ensures r.success <==> httpMethod == "POST" && file.Some? && Accepted(file.value) && moved
    ensures r.status == (if httpMethod == "POST" then 200 else 405)
    ensures r.success <==> r.data.Some?
    ensures r.success ==> r.data.value == StoredFile(file.value.name,
      "vanban_files/" + FolderName(documentType) + "/" + StoredName(timestamp, file.value.name),
      file.value.size, file.value.mime)
  {
    if httpMethod != "POST" then Reply(405, false, "Method not allowed", None)
    else if file.None? then Failure("Không có file được upload")
    else
      var f := file.value;
      var folderName := FolderName(documentType);
      var fileName := StoredName(timestamp, f.name);
      if AsciiLower(Extension(f.name)) !in AllowedExtensions then Failure("Loại file không được hỗ trợ")
      else if f.size > MaxSize then Failure("File quá lớn. Tối đa 10MB")
      else if !moved then Failure("Không thể upload file")
      else Reply(200, true, "Upload file thành công",
        Some(StoredFile(f.name, "vanban_files/" + folderName + "/" + fileName, f.size, f.mime)))
  }

  /** The extension is checked first: a file with a refused extension reports that, whatever its size. */
  lemma ExtensionCheckedFirst(file: UploadedFile, documentType: Option<string>, timestamp: nat, moved: bool)
    requires AsciiLower(Extension(file.name)) !in AllowedExtensions
    ensures HandleUpload("POST", Some(file), documentType, timestamp, moved) == Failure("Loại file không được hỗ trợ")
  {
  }

  /** Size is compared with `>`: exactly 10 MiB passes, one byte more is refused. */
  lemma SizeBoundary(name: string, mime: string, documentType: Option<string>, timestamp: nat)
    requires AsciiLower(Extension(name)) in AllowedExtensions
    ensures HandleUpload("POST", Some(UploadedFile(name, 10485760, mime)), documentType, timestamp, true).success
    ensures HandleUpload("POST", Some(UploadedFile(name, 10485761, mime)), documentType, timestamp, true)
      == Failure("File quá lớn. Tối đa 10MB")
  {
  }

  /** Only 'incoming', given or defaulted, goes to `vanbanden`; any other type goes to `vanbandi`. */
  lemma FolderChoice(documentType: Option<string>)
    ensures FolderName(documentType) == "vanbanden" <==> documentType.None? || documentType.value == "incoming"
    ensures FolderName(documentType) == "vanbanden" || FolderName(documentType) == "vanbandi"
  {
  }

  /** No digit string holds '_', so the timestamp ends at the first '_' of a stored name. */
  lemma NoUnderscoreInTimestamp(timestamp: nat)
    ensures '_' !in NatToString(timestamp)
  {
    NatToStringWithout(timestamp, '_');
  }

  /**
   * Two stored names are equal only for the same timestamp and the same
   * original name: files uploaded in different seconds never collide, and
   * in the same second only files with the same name do.
   */
  lemma StoredNameInjective(t1: nat, n1: string, t2: nat, n2: string)
    requires StoredName(t1, n1) == StoredName(t2, n2)
    ensures t1 == t2 && n1 == n2
  {
    NoUnderscoreInTimestamp(t1);
    NoUnderscoreInTimestamp(t2);
    SeparatedInjective(NatToString(t1), n1, NatToString(t2), n2, '_');
    NatToStringInjective(t1, t2);
  }

  /** A name without '/' whose last '.' is followed by `ext` has extension `ext`. */
  lemma ExtensionOfDotted(stem: string, ext: string)
    requires '/' !in stem && '/' !in ext && '.' !in ext
    ensures Extension(stem + "." + ext) == ext
  {
    var name := stem + (['.'] + ext);
    assert stem + "." + ext == name;
    assert '/' !in name;
    LastSegmentWhole(name, '/');
    LastSegmentAfter(stem, ext, '.');
    assert name[|stem|] in name;
  }

  /** Whether a name `stem.ext` passes the extension check depends on `ext` alone. */
  lemma DottedNameChecked(stem: string, ext: string)
    requires '/' !in stem && '/' !in ext && '.' !in ext
    ensures AsciiLower(Extension(stem + "." + ext)) in AllowedExtensions <==> AsciiLower(ext) in AllowedExtensions
  {
    ExtensionOfDotted(stem, ext);
  }

  /** An empty name has no extension, so the server never accepts it. */
  lemma EmptyNameRefused(file: UploadedFile)
    ensures Accepted(file) ==> file.name != []
  {
    if file.name == [] {
      NoDotNoExtension(file.name);
      EmptyExtensionRefused();
    }
  }

  /** The empty extension is not an allowed one. */
  lemma EmptyExtensionRefused()
    ensures AsciiLower("") !in AllowedExtensions
  {
    assert AsciiLower("") == "";
    assert forall e | e in AllowedExtensions :: |e| > 0;
  }

  /** A name without '.' has the empty extension. */
  lemma NoDotNoExtension(name: string)
    requires '.' !in name
    ensures Extension(name) == ""
  {
    var base := LastSegment(name, '/');
    forall i | 0 <= i < |base| ensures base[i] != '.' {
      assert base[i] == name[|name| - |base| + i];
    }
    LastSegmentWhole(base, '.');
  }

  /** A name without any '.' has no extension, so it is always refused. */
  lemma NoExtensionRefused(file: UploadedFile, documentType: Option<string>, timestamp: nat, moved: bool)
    requires '.' !in file.name
    ensures !HandleUpload("POST", Some(file), documentType, timestamp, moved).success
  {
    NoDotNoExtension(file.name);
    EmptyExtensionRefused();
  }

  /**
   * The last '/'-segment of the returned path is the stored name, and the
   * path names the folder of the document type.
   */
  lemma StoredPathShape(file: UploadedFile, documentType: Option<string>, timestamp: nat)
    requires '/' !in file.name
    requires HandleUpload("POST", Some(file), documentType, timestamp, true).success
    ensures var p := HandleUpload("POST", Some(file), documentType, timestamp, true).data.value.path;
      LastSegment(p, '/') == StoredName(timestamp, file.name) &&
      p == "vanban_files/" + FolderName(documentType) + "/" + StoredName(timestamp, file.name)
  {
    StoredPathLast(FolderName(documentType), timestamp, file.name);
  }

  lemma StoredPathLast(folder: string, timestamp: nat, name: string)
    requires '/' !in name
    ensures LastSegment("vanban_files/" + folder + "/" + StoredName(timestamp, name), '/') == StoredName(timestamp, name)
  {
    var stored := StoredName(timestamp, name);
    NatToStringWithout(timestamp, '/');
    assert '/' !in stored;
    assert "vanban_files/" + folder + "/" + stored == ("vanban_files/" + folder) + (['/'] + stored);
    LastSegmentAfter("vanban_files/" + folder, stored, '/');
  }
}
