/** `backend/src/middleware/importUpload.js`: the filter and the stored name
 *  of an uploaded Excel file, the hourly sweep of the temporary folder, and
 *  how upload errors become responses. */
module ImportUpload {
  import opened Wrappers
  import opened Strings
  import Upload
  import opened Directory

  const AllowedMimetypes: seq<string> :=
    ["application/vnd.openxmlformats-officedocument.spreadsheetml.sheet",
     "application/vnd.ms-excel",
     "application/octet-stream"]
  const AllowedExtensions: seq<string> := [".xlsx", ".xls"]
  const MaxFileSize: nat := 5 * 1024 * 1024

  /** One hour in milliseconds: the age past which a temporary file goes. */
  const OneHour: int := 60 * 60 * 1000

  // ------------------------------------------------------------ fileFilter

  /** The lower-cased extension of the original name. */
  function LowerExt(originalname: string): string
  {
    ToLower(Upload.Extname(originalname))
  }

  /** `fileFilter`: only the extension decides; an unexpected MIME type is
   *  logged and the file is still accepted. */
  function FileFilter(mimetype: string, originalname: string): (r: Upload.FilterResult)
    ensures r.Accept? <==> LowerExt(originalname) in AllowedExtensions
    ensures r.Reject? ==> r.code == "INVALID_FILE_TYPE"
    ensures r.Reject? ==> r.message == "Geçersiz dosya uzantısı: " + LowerExt(originalname) + ". İzin verilen uzantılar: .xlsx, .xls"
  {
    var ext := LowerExt(originalname);
    if ext !in AllowedExtensions then
      IzinVerilenler(ext);
      Upload.Reject("INVALID_FILE_TYPE", "Geçersiz dosya uzantısı: " + ext + ". İzin verilen uzantılar: " + Join(AllowedExtensions, ", "))
    else Upload.Accept
  }

  /** The list of allowed extensions as the rejection message prints it. */
  lemma IzinVerilenler(ext: string)
    ensures Join(AllowedExtensions, ", ") == ".xlsx, .xls"
    ensures "Geçersiz dosya uzantısı: " + ext + ". İzin verilen uzantılar: " + Join(AllowedExtensions, ", ")
            == "Geçersiz dosya uzantısı: " + ext + ". İzin verilen uzantılar: .xlsx, .xls"
  {
    var xs := AllowedExtensions;
    assert xs[1..] == [".xls"];
    assert Join(xs, ", ") == xs[0] + ", " + Join(xs[1..], ", ");
  }

  /** The filter's answer does not depend on the MIME type at all. */
  lemma {:induction false} MimeTypeNeverRejects(m1: string, m2: string, originalname: string)
    ensures FileFilter(m1, originalname) == FileFilter(m2, originalname)
    ensures FileFilter(m1, originalname).Reject? ==> FileFilter(m1, originalname).code == "INVALID_FILE_TYPE"
  {
  }

  // ---------------------------------------------------------- stored name

  /** The name multer stores the file under, with the clock and the random
   *  hex digits as parameters: `import_<timestamp>_<hex><lower-case ext>`. */
  function StoredName(timestamp: nat, randomHex: string, originalname: string): string
  {
    "import_" + NatToString(timestamp) + "_" + randomHex + LowerExt(originalname)
  }

  /** A file the filter lets through is stored with the `import_` prefix and
   *  an Excel extension, the one it was sent with, lower-cased. */
  lemma StoredNameOfAccepted(timestamp: nat, randomHex: string, mimetype: string, originalname: string)
    requires FileFilter(mimetype, originalname).Accept?
    ensures StartsWith(StoredName(timestamp, randomHex, originalname), "import_")
    ensures Upload.Extname(StoredName(timestamp, randomHex, originalname)) == LowerExt(originalname)
    ensures Upload.Extname(StoredName(timestamp, randomHex, originalname)) in AllowedExtensions
  {
    var e := LowerExt(originalname);
    var stem := "import_" + NatToString(timestamp) + "_" + randomHex;
    assert StoredName(timestamp, randomHex, originalname) == stem + e;
    assert stem[..7] == "import_";
    assert '.' !in e[1..] by {
      if e == ".xlsx" { assert e[1..] == "xlsx"; } else { assert e[1..] == "xls"; }
    }
    Upload.ExtensionOf(stem, e);
  }

  // ------------------------------------------------------- error handling

  datatype Yanit = Yanit(status: int, error: string)

  /** The response `handleImportUploadError` sends for an error: multer's
   *  errors and the filter's code are the client's fault, the rest are not. */
  function HataYaniti(e: Upload.UploadError): (r: Yanit)
    ensures r.status == 400 <==> e.MulterError? || (e.CodedError? && e.code == "INVALID_FILE_TYPE")
    ensures r.status != 400 ==> r == Yanit(500, "Dosya yükleme sırasında bir hata oluştu")
    ensures e.CodedError? && e.code == "INVALID_FILE_TYPE" ==> r.error == e.message
    ensures e.MulterError? && e.code == "LIMIT_FILE_SIZE" ==> r.error == "Dosya boyutu çok büyük. Maksimum: 5MB"
    ensures e.MulterError? && e.code !in ["LIMIT_FILE_SIZE", "LIMIT_FILE_COUNT", "LIMIT_UNEXPECTED_FILE"] ==>
              r.error == "Dosya yükleme hatası: " + e.message
  {
    match e
    case MulterError(code, message) =>
      if code == "LIMIT_FILE_SIZE" then
        Yanit(400, "Dosya boyutu çok büyük. Maksimum: " + NatToString(MaxFileSize / (1024 * 1024)) + "MB")
      else if code == "LIMIT_FILE_COUNT" then Yanit(400, "Sadece tek dosya yüklenebilir")
      else if code == "LIMIT_UNEXPECTED_FILE" then Yanit(400, "Beklenmeyen dosya alanı")
      else Yanit(400, "Dosya yükleme hatası: " + message)
    case CodedError(code, message) =>
      if code == "INVALID_FILE_TYPE" then Yanit(400, message)
      else Yanit(500, "Dosya yükleme sırasında bir hata oluştu")
    case OtherError(_) => Yanit(500, "Dosya yükleme sırasında bir hata oluştu")
  }

  /** A rejected file is answered with the filter's own message and 400. */
  lemma RejectionReachesClient(mimetype: string, originalname: string)
    requires FileFilter(mimetype, originalname).Reject?
    ensures HataYaniti(Upload.CodedError("INVALID_FILE_TYPE", FileFilter(mimetype, originalname).message))
            == Yanit(400, "Geçersiz dosya uzantısı: " + LowerExt(originalname) + ". İzin verilen uzantılar: .xlsx, .xls")
  {
  }

  // ------------------------------------------------------ the temp folder

  /** Whether the sweep removes a file with this name and modification time. */
  predicate Eski(name: string, mtime: int, now: int)
  {
    name != ".gitkeep" && mtime < now - OneHour
  }

  /** The names the sweep removes, in listing order. */
  function Silinecekler(names: seq<string>, files: map<string, int>, now: int): (r: seq<string>)
    requires forall n :: n in names ==> n in files
    ensures |r| <= |names|
    ensures forall n :: n in r <==> n in names && Eski(n, files[n], now)
  {
    if names == [] then []
    else
      var son := names[|names| - 1];
      Silinecekler(names[..|names| - 1], files, now) + (if Eski(son, files[son], now) then [son] else [])
  }

  lemma SilineceklerAdimi(names: seq<string>, files: map<string, int>, now: int, i: nat)
    requires i < |names| && forall n :: n in names ==> n in files
    ensures Silinecekler(names[..i + 1], files, now)
            == Silinecekler(names[..i], files, now) + (if Eski(names[i], files[names[i]], now) then [names[i]] else [])
  {
    assert names[..i + 1][..i] == names[..i];
  }

  /** The folder after a sweep: the files the sweep does not remove. */
  function Supurulmus(files: map<string, int>, now: int): (r: map<string, int>)
    ensures forall n :: n in r <==> n in files && !Eski(n, files[n], now)
    ensures forall n :: n in r ==> r[n] == files[n]
  {
    map n | n in files && !Eski(n, files[n], now) :: files[n]
  }

  /** A second sweep at the same moment finds nothing more to remove. */
  lemma {:induction false} SupurmeKararli(files: map<string, int>, now: int, names: seq<string>)
    requires forall n :: n in names ==> n in Supurulmus(files, now)
    ensures Silinecekler(names, Supurulmus(files, now), now) == []
  {
    if names != [] {
      var init := names[..|names| - 1];
      assert forall n :: n in init ==> n in names;
      SupurmeKararli(files, now, init);
      assert names[|names| - 1] in names;
    }
  }

  /** A listing without repeats has no repeats after filtering, so the count
   *  of removals is the number of distinct files removed. */
  lemma {:induction false} SilineceklerTekil(names: seq<string>, files: map<string, int>, now: int)
    requires Listeler(names, files)
    ensures |Silinecekler(names, files, now)| == |set n | n in files && Eski(n, files[n], now)|
  {
    var r := Silinecekler(names, files, now);
    TekilFiltre(names, files, now);
    var s := set n | n in files && Eski(n, files[n], now);
    assert s == set n | n in r;
    TekilKume(r);
  }

  lemma {:induction false} TekilFiltre(names: seq<string>, files: map<string, int>, now: int)
    requires forall n :: n in names ==> n in files
    requires Tekil(names)
    ensures Tekil(Silinecekler(names, files, now))
  {
    if names != [] {
      var init := names[..|names| - 1];
      var son := names[|names| - 1];
      assert forall n :: n in init ==> n in names;
      TekilFiltre(init, files, now);
      var v := Silinecekler(init, files, now);
      var r := Silinecekler(names, files, now);
      forall k | 0 <= k < |init| ensures init[k] != son {
        assert init[k] == names[k];
      }
      forall i, j | 0 <= i < j < |r| ensures r[i] != r[j] {
        if j == |v| {
          assert r[i] == v[i] && v[i] in init;
        } else {
          assert r[i] == v[i] && r[j] == v[j];
        }
      }
    }
  }

  lemma {:induction false} TekilKume(r: seq<string>)
    requires Tekil(r)
    ensures |set n | n in r| == |r|
  {
    if r != [] {
      var init := r[..|r| - 1];
      var son := r[|r| - 1];
      TekilKume(init);
      forall k | 0 <= k < |init| ensures init[k] != son {
        assert init[k] == r[k];
      }
      assert (set n | n in r) == (set n | n in init) + {son};
    }
  }

  /** The folder once the sweep has looked at the names in `seen`. */
  function Kalan(files: map<string, int>, seen: seq<string>, now: int): map<string, int>
  {
    map n | n in files && !(n in seen && Eski(n, files[n], now)) :: files[n]
  }

  lemma KalanAdimi(files: map<string, int>, names: seq<string>, now: int, i: nat)
    requires Listeler(names, files) && i < |names|
    ensures names[i] in Kalan(files, names[..i], now)
    ensures Kalan(files, names[..i], now)[names[i]] == files[names[i]]
    ensures Kalan(files, names[..i + 1], now)
            == if Eski(names[i], files[names[i]], now) then Kalan(files, names[..i], now) - {names[i]}
               else Kalan(files, names[..i], now)
  {
    assert names[i] in names;
    forall k | 0 <= k < i ensures names[..i][k] != names[i] {
      assert names[..i][k] == names[k];
    }
    assert forall n :: n in names[..i + 1] <==> n in names[..i] || n == names[i] by {
      assert names[..i + 1] == names[..i] + [names[i]];
    }
  }

  lemma KalanHepsi(files: map<string, int>, names: seq<string>, now: int)
    requires Listeler(names, files)
    ensures Kalan(files, names, now) == Supurulmus(files, now)
  {
  }

  /** The temporary upload folder: each file's name and modification time. */
  class TempDir {
    var files: map<string, int>

    constructor(files: map<string, int>)
      ensures this.files == files
    {
      this.files := files;
    }

    /** `deleteTempFile`: an empty path does nothing; a path that is not
     *  there is not an error. */
    method DeleteTempFile(path: string)
      modifies this
      ensures files == if path == "" then old(files) else old(files) - {path}
    {
      if path == "" {
        return;
      }
      if path in files {
        files := files - {path};
      }
    }

    /** `cleanupTempFiles`, with the folder listing and the clock as
     *  parameters: every file but `.gitkeep` older than an hour is removed,
     *  and the count of removals is returned. */
    method CleanupTempFiles(names: seq<string>, now: int) returns (deletedCount: nat)
      requires Listeler(names, files)
      modifies this
      ensures files == Supurulmus(old(files), now)
      ensures deletedCount == |Silinecekler(names, old(files), now)|
    {
      ghost var eski := files;
      deletedCount := 0;
      var i := 0;
      while i < |names|
        invariant 0 <= i <= |names|
        invariant deletedCount == |Silinecekler(names[..i], eski, now)|
        invariant files == Kalan(eski, names[..i], now)
      {
        var name := names[i];
        SilineceklerAdimi(names, eski, now, i);
        KalanAdimi(eski, names, now, i);
        if name != ".gitkeep" {
          var mtime := files[name];
          if mtime < now - OneHour {
            files := files - {name};
            deletedCount := deletedCount + 1;
          }
        }
        i := i + 1;
      }
      assert names[..i] == names;
      KalanHepsi(eski, names, now);
    }

    /** `handleImportUploadError`: the stored upload, if any, is deleted
     *  before the response is chosen. */
    method HandleImportUploadError(e: Upload.UploadError, uploadedPath: Option<string>) returns (r: Yanit)
      modifies this
      ensures r == HataYaniti(e)
      ensures uploadedPath.Some? && uploadedPath.value != "" ==> files == old(files) - {uploadedPath.value}
      ensures uploadedPath.None? || uploadedPath.value == "" ==> files == old(files)
    {
      if uploadedPath.Some? {
        DeleteTempFile(uploadedPath.value);
      }
      r := HataYaniti(e);
    }
  }
}
