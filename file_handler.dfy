/**
 * js/file-handler.js: the browser side of attachments. `validateFile` checks
 * the size first and then the MIME type the browser reports. A file that passes
 * is posted to api/upload.php, which checks the extension of the name instead.
 * A download is named after `fileName`, or else after the last
 * '/'-segment of the path.
 *
 * The server's answer is `Upload.HandleUpload` applied to what the client
 * sends. The clock, the network and the DOM are parameters or are left out.
 */
module FileHandler {
  import opened Common
  import Upload

  /** A browser `File`: its name, its size in bytes and its MIME type. */
  datatype ClientFile = ClientFile(name: string, size: int, mime: string)

  /** `validateFile` either returns `true` or throws with a message. */
  datatype Check = Passed | Rejected(message: string)

  const MaxSize: int := 10 * 1024 * 1024

  const AllowedTypes: set<string> := {
    "application/pdf",
    "application/msword",
    "application/vnd.openxmlformats-officedocument.wordprocessingml.document",
    "application/vnd.ms-excel",
    "application/vnd.openxmlformats-officedocument.spreadsheetml.sheet",
    "text/plain"
  }

  const TooLarge := "File quá lớn. Kích thước tối đa là 10MB."
  const BadType := "Loại file không được hỗ trợ. Chỉ chấp nhận PDF, Word, Excel, Text."

  function ValidateFile(file: ClientFile): (r: Check)
    ensures r == Passed <==> file.size <= MaxSize && file.mime in AllowedTypes
    ensures file.size > MaxSize ==> r == Rejected(TooLarge)
    ensures file.size <= MaxSize && file.mime !in AllowedTypes ==> r == Rejected(BadType)
  {
    if file.size > MaxSize then Rejected(TooLarge)
    else if file.mime !in AllowedTypes then Rejected(BadType)
    else Passed
  }

  /** The limit is inclusive, as on the server: 10 MiB passes, one byte more does not. */
  lemma ValidateSizeBoundary(name: string, mime: string)
    requires mime in AllowedTypes
    ensures ValidateFile(ClientFile(name, 10485760, mime)) == Passed
    ensures ValidateFile(ClientFile(name, 10485761, mime)) == Rejected(TooLarge)
  {
  }

  /** What `handleFileUpload` resolves to: `null`, the attachment, or a thrown error. */
  datatype UploadOutcome = NoFile | Uploaded(name: string, path: string, size: int, mime: string, uploadedAt: string)
                         | Failed(message: string)

  /** `FormData.append` turns a missing `documentType` into the text "undefined". */
  function FormValue(documentType: Option<string>): string
  {
    if documentType.Some? then documentType.value else "undefined"
  }

  /**
   * Validates, posts the file with its document type, and reports the server's
   * answer. `timestamp` and `moved` are what the server's clock and file system
   * do; `uploadedAt` is the browser's current time as an ISO string.
   */
  function HandleFileUpload(file: Option<ClientFile>, documentType: Option<string>,
                            timestamp: nat, moved: bool, uploadedAt: string): (r: UploadOutcome)
    ensures file.None? <==> r == NoFile
    ensures r.Failed? ==> IsPrefix("Không thể upload file: ", r.message)
    ensures r.Uploaded? ==>
      file.Some? && ValidateFile(file.value) == Passed && r.name == file.value.name &&
      r.size == file.value.size && r.mime == file.value.mime && r.uploadedAt == uploadedAt
  {
    if file.None? then NoFile
    else
      var f := file.value;
      match ValidateFile(f)
      case Rejected(m) => Failed("Không thể upload file: " + m)
      case Passed =>
        var reply := Upload.HandleUpload("POST", Some(Upload.UploadedFile(f.name, f.size, f.mime)),
                                         Some(FormValue(documentType)), timestamp, moved);
        if !reply.success then Failed("Không thể upload file: " + reply.message)
        else Uploaded(reply.data.value.name, reply.data.value.path, reply.data.value.size,
                      reply.data.value.mime, uploadedAt)
  }

  /**
   * An upload succeeds exactly when both sides accept the file: the browser
   * checks size and MIME type, the server extension and size, and the file is
   * moved. The path is the server's.
   */
  lemma UploadSucceedsIff(f: ClientFile, documentType: Option<string>, timestamp: nat, moved: bool, uploadedAt: string)
    ensures HandleFileUpload(Some(f), documentType, timestamp, moved, uploadedAt).Uploaded? <==>
      ValidateFile(f) == Passed && Upload.Accepted(Upload.UploadedFile(f.name, f.size, f.mime)) && moved
    ensures HandleFileUpload(Some(f), documentType, timestamp, moved, uploadedAt).Uploaded? ==>
      HandleFileUpload(Some(f), documentType, timestamp, moved, uploadedAt).path ==
        "vanban_files/" + Upload.FolderName(Some(FormValue(documentType))) + "/" + Upload.StoredName(timestamp, f.name)
  {
    var uf := Upload.UploadedFile(f.name, f.size, f.mime);
    var reply := Upload.HandleUpload("POST", Some(uf), Some(FormValue(documentType)), timestamp, moved);
    var out := HandleFileUpload(Some(f), documentType, timestamp, moved, uploadedAt);
    if ValidateFile(f) == Passed {
      assert out == if !reply.success then Failed("Không thể upload file: " + reply.message)
        else Uploaded(reply.data.value.name, reply.data.value.path, reply.data.value.size, reply.data.value.mime, uploadedAt);
    } else {
      assert out.Failed?;
    }
  }

  /**
   * The two sides check different things. A PDF-typed file whose name ends in
   * `.exe` passes the browser's check and is then refused by the server.
   */
  lemma ServerRefusesWhatClientPassed(stem: string, timestamp: nat, uploadedAt: string)
    requires '/' !in stem
    ensures var f := ClientFile(stem + ".exe", 100, "application/pdf");
      ValidateFile(f) == Passed &&
      HandleFileUpload(Some(f), Some("incoming"), timestamp, true, uploadedAt) ==
        Failed("Không thể upload file: " + "Loại file không được hỗ trợ")
  {
    var f := ClientFile(stem + ".exe", 100, "application/pdf");
    assert ValidateFile(f) == Passed;
    AsciiLowerNoCapitals("exe");
    assert AsciiLower("exe") !in Upload.AllowedExtensions;
    assert f.name == stem + "." + "exe";
    Upload.DottedNameChecked(stem, "exe");
    Upload.ExtensionCheckedFirst(Upload.UploadedFile(f.name, f.size, f.mime), Some(FormValue(Some("incoming"))), timestamp, true);
  }

  /**
   * Conversely, a `.txt` file the browser reports as `application/zip` never
   * reaches the server, which would have taken it.
   */
  lemma ClientRefusesWhatServerTakes(stem: string, timestamp: nat)
    requires '/' !in stem
    ensures var g := ClientFile(stem + ".txt", 100, "application/zip");
      ValidateFile(g) == Rejected(BadType) &&
      Upload.HandleUpload("POST", Some(Upload.UploadedFile(g.name, g.size, g.mime)), Some("incoming"), timestamp, true).success
  {
    var g := ClientFile(stem + ".txt", 100, "application/zip");
    assert ValidateFile(g) == Rejected(BadType);
    AsciiLowerNoCapitals("txt");
    assert AsciiLower("txt") in Upload.AllowedExtensions;
    assert g.name == stem + "." + "txt";
    Upload.DottedNameChecked(stem, "txt");
  }

  /** `fileName || filePath.split('/').pop()`. */
  function DownloadName(filePath: string, fileName: Option<string>): (r: string)
    ensures Truthy(fileName) ==> r == fileName.value
  {
    if Truthy(fileName) then fileName.value
    else var parts := Split(filePath, '/'); parts[|parts| - 1]
  }

  /** Without a file name the download is named after the path's last segment, which holds no '/'. */
  lemma DownloadNameFromPath(filePath: string, fileName: Option<string>)
    requires !Truthy(fileName)
    ensures DownloadName(filePath, fileName) == LastSegment(filePath, '/')
    ensures '/' !in DownloadName(filePath, fileName)
  {
    var parts := Split(filePath, '/');
    assert DownloadName(filePath, fileName) == parts[|parts| - 1];
    LastSegmentOfSplit(filePath, '/');
  }

  /** `openFileInExplorer`: nothing for a missing or empty path, otherwise the name of the download it starts. */
  function OpenFileInExplorer(filePath: Option<string>, fileName: Option<string>): (r: Option<string>)
    ensures r.Some? <==> Truthy(filePath)
  {
    if !Truthy(filePath) then None else Some(DownloadName(filePath.value, fileName))
  }

  /**
   * A file uploaded without a '/' in its name downloads, when no name is
   * given, under the name the server stored it as: `<timestamp>_<name>`;
   * given the returned name, under the original name (never empty, since it
   * carries an accepted extension).
   */
  lemma DownloadOfUploaded(f: ClientFile, documentType: Option<string>, timestamp: nat, uploadedAt: string)
    requires '/' !in f.name
    requires HandleFileUpload(Some(f), documentType, timestamp, true, uploadedAt).Uploaded?
    ensures var u := HandleFileUpload(Some(f), documentType, timestamp, true, uploadedAt);
      OpenFileInExplorer(Some(u.path), None) == Some(Upload.StoredName(timestamp, f.name)) &&
      OpenFileInExplorer(Some(u.path), Some(u.name)) == Some(f.name)
  {
    UploadSucceedsIff(f, documentType, timestamp, true, uploadedAt);
    Upload.EmptyNameRefused(Upload.UploadedFile(f.name, f.size, f.mime));
    DownloadOfStored(Upload.FolderName(Some(FormValue(documentType))), timestamp, f.name);
  }

  lemma DownloadOfStored(folder: string, timestamp: nat, name: string)
    requires '/' !in name && name != []
    ensures var path := "vanban_files/" + folder + "/" + Upload.StoredName(timestamp, name);
      OpenFileInExplorer(Some(path), None) == Some(Upload.StoredName(timestamp, name)) &&
      OpenFileInExplorer(Some(path), Some(name)) == Some(name)
  {
    var path := "vanban_files/" + folder + "/" + Upload.StoredName(timestamp, name);
    Upload.StoredPathLast(folder, timestamp, name);
    DownloadNameFromPath(path, None);
  }
}
