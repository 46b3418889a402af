/** `frontend/src/services/import.ts`: the checks on the file picked for
 *  upload, the rows sent back for import, and how the preview table marks a
 *  parsed row. */
module ImportService {
  import opened Wrappers
  import opened Strings
  import opened ExcelParser
  import opened ExcelRows
  import ImportRoute

  // ------------------------------------------------------------- the file

  /** A browser `File`: its name, MIME type and size in bytes. */
  datatype Dosya = Dosya(name: string, mimeType: string, size: nat)

  const XlsxMime := "application/vnd.openxmlformats-officedocument.spreadsheetml.sheet"
  const XlsMime := "application/vnd.ms-excel"

  /** `isValidExcelType`: one of the two Excel MIME types, whatever the name;
   *  otherwise the lower-cased name ends in `.xlsx` or `.xls`. */
  predicate IsValidExcelType(f: Dosya)
  {
    f.mimeType in [XlsxMime, XlsMime] || EndsWith(ToLower(f.name), ".xlsx") || EndsWith(ToLower(f.name), ".xls")
  }

  /** `isValidFileSize`: at most `maxSizeMB` mebibytes. */
  predicate IsValidFileSize(f: Dosya, maxSizeMB: nat)
  {
    f.size <= maxSizeMB * 1024 * 1024
  }

  const VarsayilanMaxMB: nat := 5

  /** `validateExcelFile`: the type message first, then the size message,
   *  and no message when both checks pass. */
  function ValidateExcelFile(f: Dosya): (r: Option<string>)
    ensures r.None? <==> IsValidExcelType(f) && IsValidFileSize(f, VarsayilanMaxMB)
    ensures !IsValidExcelType(f) ==>
              r == Some("\"" + f.name + "\" desteklenmeyen dosya tipi. Sadece .xlsx ve .xls dosyaları kabul edilir.")
    ensures IsValidExcelType(f) && !IsValidFileSize(f, VarsayilanMaxMB) ==>
              r == Some("\"" + f.name + "\" çok büyük. Maksimum dosya boyutu 5 MB.")
  {
    if !IsValidExcelType(f) then
      Some("\"" + f.name + "\" desteklenmeyen dosya tipi. Sadece .xlsx ve .xls dosyaları kabul edilir.")
    else if !IsValidFileSize(f, VarsayilanMaxMB) then
      Some("\"" + f.name + "\" çok büyük. Maksimum dosya boyutu 5 MB.")
    else None
  }

  /** An Excel MIME type is accepted under any name, and a file named
   *  `.xlsx` or `.xls` under any type; the limit is 5 MiB to the byte. */
  lemma {:induction false} ExcelTypeAndSize(name: string, mimeType: string, size: nat)
    ensures IsValidExcelType(Dosya(name, XlsxMime, size)) && IsValidExcelType(Dosya(name, XlsMime, size))
    ensures IsValidExcelType(Dosya(name + ".xlsx", mimeType, size))
    ensures IsValidExcelType(Dosya(name + ".xls", mimeType, size))
    ensures IsValidFileSize(Dosya(name, mimeType, size), 5) <==> size <= 5242880
  {
    ToLowerAppend(name, ".xlsx");
    ToLowerAppend(name, ".xls");
    assert ToLower(".xlsx") == ".xlsx" by { LowerOfLower(".xlsx"); }
    assert ToLower(".xls") == ".xls" by { LowerOfLower(".xls"); }
  }

  lemma ToLowerAppend(a: string, b: string)
    ensures ToLower(a + b) == ToLower(a) + ToLower(b)
  {
    assert ToLower(a + b) == ToLower(a) + ToLower(b) by {
      forall i | 0 <= i < |a + b| ensures ToLower(a + b)[i] == (ToLower(a) + ToLower(b))[i] {
      }
    }
  }

  /** A text with no upper-case ASCII letter lower-cases to itself. */
  lemma LowerOfLower(s: string)
    requires forall i :: 0 <= i < |s| ==> !('A' <= s[i] <= 'Z')
    ensures ToLower(s) == s
  {
  }

  // ------------------------------------------------------------- the rows

  datatype RowStatus = Error | Warning | Valid

  /** `getRowStatus`: an invalid row or one with an error is an error,
   *  errors outrank warnings, and a row with neither is valid. */
  function GetRowStatus(s: Satir): (st: RowStatus)
    ensures st == Error <==> !s.gecerli || |s.hatalar| > 0
    ensures st == Warning <==> s.gecerli && |s.hatalar| == 0 && |s.uyarilar| > 0
    ensures st == Valid <==> s.gecerli && |s.hatalar| == 0 && |s.uyarilar| == 0
  {
    if !s.gecerli || |s.hatalar| > 0 then Error
    else if |s.uyarilar| > 0 then Warning
    else Valid
  }

  function GetRowBadgeColor(s: Satir): string
  {
    match GetRowStatus(s)
    case Error => "red"
    case Warning => "yellow"
    case Valid => "green"
  }

  function GetRowStatusText(s: Satir): string
  {
    match GetRowStatus(s)
    case Error => "Hatalı"
    case Warning => "Uyarı"
    case Valid => "Geçerli"
  }

  /** The badge colour and the status text each tell the status apart. */
  lemma BadgeAndTextFollowStatus(a: Satir, b: Satir)
    ensures GetRowBadgeColor(a) == GetRowBadgeColor(b) <==> GetRowStatus(a) == GetRowStatus(b)
    ensures GetRowStatusText(a) == GetRowStatusText(b) <==> GetRowStatus(a) == GetRowStatus(b)
    ensures GetRowStatus(a) == Error ==> GetRowBadgeColor(a) == "red" && GetRowStatusText(a) == "Hatalı"
    ensures GetRowStatus(a) == Warning ==> GetRowBadgeColor(a) == "yellow" && GetRowStatusText(a) == "Uyarı"
    ensures GetRowStatus(a) == Valid ==> GetRowBadgeColor(a) == "green" && GetRowStatusText(a) == "Geçerli"
  {
  }

  /** On a row the parser validated, the table marks an error exactly when
   *  the row is invalid, that is when one of the required checks failed;
   *  a warning never turns a row red. */
  lemma StatusOfValidatedRow(s: Satir, ham: SatirVerisi, env: Ortam)
    requires Dogrulanmis(s, ham, env)
    ensures GetRowStatus(s) == Error <==> !GecerliOlur(ham, env)
    ensures GetRowStatus(s) == Warning <==> GecerliOlur(ham, env) && s.uyarilar != []
  {
    GecerliKosullari(s, ham, env);
  }

  // ----------------------------------------------------------- the import

  const GecerliSatirYok := "Import edilecek geçerli satır bulunamadı"

  function GecerliSatirlar(xs: seq<Satir>): (r: seq<Satir>)
    ensures |r| <= |xs|
    ensures forall s :: s in r <==> s in xs && s.gecerli
  {
    if xs == [] then []
    else GecerliSatirlar(xs[..|xs| - 1]) + (if xs[|xs| - 1].gecerli then [xs[|xs| - 1]] else [])
  }

  datatype Gonderim = Gonderilir(satirlar: seq<Satir>) | Firlatir(mesaj: string)

  /** `importEvraklar`: the valid rows are sent, in order; when there is
   *  none it throws and sends nothing. */
  function ImportEvraklar(satirlar: seq<Satir>): (r: Gonderim)
    ensures r.Firlatir? <==> forall s :: s in satirlar ==> !s.gecerli
    ensures r.Firlatir? ==> r.mesaj == GecerliSatirYok
    ensures r.Gonderilir? ==> forall s :: s in r.satirlar <==> s in satirlar && s.gecerli
  {
    var g := GecerliSatirlar(satirlar);
    if g == [] then Firlatir(GecerliSatirYok)
    else assert g[0] in g; Gonderilir(g)
  }

  /** The rows the client sends once serialised: `kodla` is the JSON
   *  conversion, which carries `gecerli` over as a boolean. */
  function Gonderilen(satirlar: seq<Satir>, kodla: Satir -> ImportRoute.GelenSatir): seq<ImportRoute.GelenSatir>
  {
    match ImportEvraklar(satirlar)
    case Firlatir(_) => []
    case Gonderilir(g) => seq(|g|, k requires 0 <= k < |g| => kodla(g[k]))
  }

  /** The route drops none of the rows the client sends: each carries
   *  `gecerli: true`, so the route's filter keeps them all, in order. */
  lemma {:induction false} RouteKeepsEverySentRow(satirlar: seq<Satir>, kodla: Satir -> ImportRoute.GelenSatir)
    requires forall s :: kodla(s).gecerli == Some(s.gecerli)
    ensures ImportRoute.GecerliSatirlar(Gonderilen(satirlar, kodla)) == Gonderilen(satirlar, kodla)
  {
    var ys := Gonderilen(satirlar, kodla);
    forall k | 0 <= k < |ys| ensures ImportRoute.Gecerli(ys[k]) {
      var g := ImportEvraklar(satirlar).satirlar;
      assert g[k] in g;
    }
    ImportRoute.AllKept(ys);
  }
}
