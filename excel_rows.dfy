/** The row side of `backend/src/utils/excelParser.js`: the header row's
 *  column mapping, the data each row carries, `validateRow` with its errors,
 *  warnings and normalised fields, and `parseExcelFile`'s walk over the
 *  sheet with its summary. */
module ExcelRows {
  import opened Wrappers
  import opened Strings
  import opened Dates
  import opened ExcelParser
  import Js
  import Evraklar
  import Krediler

  // ---------------------------------------------------------------------
  // Header

  /** The database fields a column can feed. */
  datatype Alan = EvrakTipi | EvrakNo | Tutar | ParaBirimi | DovizKuru | EvrakTarihi
                | VadeTarihi | BankaAdi | Kesideci | CariAdi | Durum | Notlar

  function AlanAdi(a: Alan): string
  {
    match a
    case EvrakTipi => "evrak_tipi"
    case EvrakNo => "evrak_no"
    case Tutar => "tutar"
    case ParaBirimi => "para_birimi"
    case DovizKuru => "doviz_kuru"
    case EvrakTarihi => "evrak_tarihi"
    case VadeTarihi => "vade_tarihi"
    case BankaAdi => "banka_adi"
    case Kesideci => "kesideci"
    case CariAdi => "cari_adi"
    case Durum => "durum"
    case Notlar => "notlar"
  }

  /** `KOLON_MAPPING`: the lower-cased header texts a column is known by. */
  const KolonMapping: map<string, Alan> := map[
    "evrak tipi" := EvrakTipi, "evrak tipi *" := EvrakTipi,
    "evrak no" := EvrakNo, "evrak no *" := EvrakNo,
    "tutar" := Tutar, "tutar *" := Tutar,
    "para birimi" := ParaBirimi,
    "döviz kuru" := DovizKuru, "doviz kuru" := DovizKuru,
    "evrak tarihi" := EvrakTarihi,
    "vade tarihi" := VadeTarihi, "vade tarihi *" := VadeTarihi,
    "banka adı" := BankaAdi, "banka adi" := BankaAdi,
    "keşideci" := Kesideci, "kesideci" := Kesideci,
    "cari adı" := CariAdi, "cari adi" := CariAdi,
    "durum" := Durum,
    "notlar" := Notlar]

  /** `toLowerCase` on ASCII capitals and the Turkish capitals whose lower
   *  case is one character. */
  function BaslikKucukHarf(c: char): char
  {
    if 'A' <= c <= 'Z' then (c as int + 32) as char
    else if c == 'Ç' then 'ç'
    else if c == 'Ğ' then 'ğ'
    else if c == 'Ö' then 'ö'
    else if c == 'Ş' then 'ş'
    else if c == 'Ü' then 'ü'
    else c
  }

  function BaslikKucuk(s: string): (r: string)
    ensures |r| == |s|
    ensures forall i :: 0 <= i < |s| ==> r[i] == BaslikKucukHarf(s[i])
  {
    if s == [] then [] else [BaslikKucukHarf(s[0])] + BaslikKucuk(s[1..])
  }

  /** The key a header cell is looked up by. */
  function BaslikAnahtari(v: CellValue): string
  {
    BaslikKucuk(CleanCellValue(v))
  }

  /** The field a header cell names, if any: a non-empty cell whose text
   *  `KOLON_MAPPING` knows. */
  function HucreAlani(v: CellValue): Option<Alan>
  {
    if !v.Empty? && BaslikAnahtari(v) in KolonMapping then Some(KolonMapping[BaslikAnahtari(v)]) else None
  }

  /** The mapping the columns of `cells` give under `f`: column `c`
   *  (counted from 1) maps to the field `f` names for its cell, if any. */
  function Eslemeler(cells: seq<CellValue>, f: CellValue -> Option<Alan>): map<nat, Alan>
  {
    if cells == [] then map[]
    else
      var n := |cells| - 1;
      var m := Eslemeler(cells[..n], f);
      if f(cells[n]).Some? then m[n + 1 := f(cells[n]).value] else m
  }

  lemma {:induction false} EslemelerTanim(cells: seq<CellValue>, f: CellValue -> Option<Alan>)
    ensures forall c: nat :: c in Eslemeler(cells, f) <==> 1 <= c <= |cells| && f(cells[c - 1]).Some?
    ensures forall c: nat :: c in Eslemeler(cells, f) ==> Eslemeler(cells, f)[c] == f(cells[c - 1]).value
  {
    if cells != [] {
      var n := |cells| - 1;
      EslemelerTanim(cells[..n], f);
      assert forall k :: 0 <= k < n ==> cells[..n][k] == cells[k];
    }
  }

  /** The column mapping a header row defines: each column that names a
   *  field, by column number. */
  function Basliklar(cells: seq<CellValue>): map<nat, Alan>
  {
    Eslemeler(cells, HucreAlani)
  }

  /** Column `c` is mapped exactly when its header cell names a field, and
   *  it is mapped to that field. */
  lemma BasliklarTanim(cells: seq<CellValue>)
    ensures forall c: nat :: c in Basliklar(cells) <==> 1 <= c <= |cells| && HucreAlani(cells[c - 1]).Some?
    ensures forall c: nat :: c in Basliklar(cells) ==> Basliklar(cells)[c] == HucreAlani(cells[c - 1]).value
  {
    EslemelerTanim(cells, HucreAlani);
  }

  /** The header loop of `parseExcelFile`: `headerMapping[colNumber]` is set
   *  for every non-empty header cell that `KOLON_MAPPING` knows. */
  method HeaderMapping(cells: seq<CellValue>) returns (m: map<nat, Alan>)
    ensures m == Basliklar(cells)
  {
    m := map[];
    var i := 0;
    while i < |cells|
      invariant 0 <= i <= |cells|
      invariant m == Eslemeler(cells[..i], HucreAlani)
    {
      assert cells[..i + 1][..i] == cells[..i];
      var alan := HucreAlani(cells[i]);
      if alan.Some? {
        m := m[i + 1 := alan.value];
      }
      i := i + 1;
    }
    assert cells[..i] == cells;
  }

  const ZorunluKolonlar: seq<Alan> := [EvrakTipi, EvrakNo, Tutar, VadeTarihi]

  /** The required fields no column feeds, in the order they are listed. */
  function Eksik(m: map<nat, Alan>): (r: seq<Alan>)
    ensures forall a :: a in r <==> a in ZorunluKolonlar && a !in m.Values
  {
    EksikOlanlar(ZorunluKolonlar, m)
  }

  function EksikOlanlar(alanlar: seq<Alan>, m: map<nat, Alan>): (r: seq<Alan>)
    ensures forall a :: a in r <==> a in alanlar && a !in m.Values
  {
    if alanlar == [] then []
    else (if alanlar[0] in m.Values then [] else [alanlar[0]]) + EksikOlanlar(alanlar[1..], m)
  }

  function EksikMesaji(eksik: seq<Alan>): string
  {
    "Eksik zorunlu kolonlar: " + Join(AlanAdlari(eksik), ", ")
  }

  function AlanAdlari(alanlar: seq<Alan>): (r: seq<string>)
    ensures |r| == |alanlar|
  {
    if alanlar == [] then [] else [AlanAdi(alanlar[0])] + AlanAdlari(alanlar[1..])
  }

  // ---------------------------------------------------------------------
  // Rows

  /** A cell `eachCell` would not count: it cleans to the empty text. */
  predicate BosHucre(v: CellValue)
  {
    CleanCellValue(v) == ""
  }

  /** `p` holds of every element, checked from the last one back. */
  predicate Hepsi<T>(s: seq<T>, p: T -> bool)
  {
    s == [] || (Hepsi(s[..|s| - 1], p) && p(s[|s| - 1]))
  }

  lemma {:induction false} HepsiTanim<T>(s: seq<T>, p: T -> bool)
    ensures Hepsi(s, p) <==> forall i :: 0 <= i < |s| ==> p(s[i])
  {
    if s != [] {
      var n := |s| - 1;
      HepsiTanim(s[..n], p);
      assert forall i :: 0 <= i < n ==> s[..n][i] == s[i];
    }
  }

  /** One more element of a prefix. */
  lemma HepsiAdim<T>(s: seq<T>, i: nat, p: T -> bool)
    requires i < |s|
    ensures Hepsi(s[..i + 1], p) <==> Hepsi(s[..i], p) && p(s[i])
  {
    assert s[..i + 1][..i] == s[..i];
  }

  /** A row is blank when every cell cleans to the empty text. */
  predicate BosSatir(cells: seq<CellValue>)
  {
    Hepsi(cells, BosHucre)
  }

  /** A blank row is one whose every cell cleans to the empty text. */
  lemma BosSatirHepsi(cells: seq<CellValue>)
    ensures BosSatir(cells) <==> forall i :: 0 <= i < |cells| ==> CleanCellValue(cells[i]) == ""
  {
    HepsiTanim(cells, BosHucre);
  }

  /** The blank-row test of `parseExcelFile`. */
  method IsEmptyRow(cells: seq<CellValue>) returns (bos: bool)
    ensures bos <==> BosSatir(cells)
  {
    bos := true;
    var i := 0;
    while i < |cells|
      invariant 0 <= i <= |cells|
      invariant bos <==> Hepsi(cells[..i], BosHucre)
    {
      HepsiAdim(cells, i, BosHucre);
      if !cells[i].Empty? {
        var temiz := CleanCellValue(cells[i]);
        if temiz != "" {
          bos := false;
        }
      }
      i := i + 1;
    }
    assert cells[..i] == cells;
  }

  /** The cell a field takes in a row: the one in the last column mapped to
   *  the field that holds a value (`eachCell` skips empty cells and a later
   *  column overwrites an earlier one); `Empty` when there is none. */
  function AlanHucresi(cells: seq<CellValue>, m: map<nat, Alan>, f: Alan): (v: CellValue)
    ensures v.Empty? <==> forall c :: 1 <= c <= |cells| && c in m && m[c] == f ==> cells[c - 1].Empty?
  {
    if cells == [] then Empty
    else
      var c := |cells|;
      if c in m && m[c] == f && !cells[c - 1].Empty? then cells[c - 1]
      else AlanHucresi(cells[..c - 1], m, f)
  }

  /** A field's cell is the one in the last column mapped to it that holds a
   *  value. */
  lemma {:induction false} AlanHucresiSon(cells: seq<CellValue>, m: map<nat, Alan>, f: Alan)
    requires !AlanHucresi(cells, m, f).Empty?
    ensures exists c :: SonHucre(cells, m, f, c) && cells[c - 1] == AlanHucresi(cells, m, f)
  {
    var c := |cells|;
    if c in m && m[c] == f && !cells[c - 1].Empty? {
      assert SonHucre(cells, m, f, c);
    } else {
      var front := cells[..c - 1];
      AlanHucresiSon(front, m, f);
      var c' :| SonHucre(front, m, f, c') && front[c' - 1] == AlanHucresi(front, m, f);
      assert forall k :: 0 <= k < c - 1 ==> cells[k] == front[k];
      assert SonHucre(cells, m, f, c');
    }
  }

  /** Column `c` is the last one mapped to `f` that holds a value. */
  predicate SonHucre(cells: seq<CellValue>, m: map<nat, Alan>, f: Alan, c: nat)
  {
    1 <= c <= |cells| && c in m && m[c] == f && !cells[c - 1].Empty?
    && forall c2 :: c < c2 <= |cells| && c2 in m && m[c2] == f ==> cells[c2 - 1].Empty?
  }

  /** What `rowData` holds for a field: absent, or the text of its cell
   *  (dates keep the cell itself, amounts are given as the numbers they
   *  are). */
  datatype SatirVerisi = SatirVerisi(
    satir: nat,
    evrakTipi: Option<string>,
    evrakNo: Option<string>,
    tutar: AmountInput,
    paraBirimi: Option<string>,
    dovizKuru: AmountInput,
    evrakTarihi: CellValue,
    vadeTarihi: CellValue,
    bankaAdi: Option<string>,
    kesideci: Option<string>,
    cariAdi: Option<string>,
    durum: Option<string>,
    notlar: Option<string>)

  function Metin(v: CellValue): (r: Option<string>)
    ensures r.None? <==> v.Empty?
  {
    if v.Empty? then None else Some(CleanCellValue(v))
  }

  /** How an amount cell reaches `parseAmount`: as the code is written,
   *  through `cleanCellValue`, so that a number cell arrives as text; or as
   *  evidently intended, a number cell as the number it is. */
  datatype TutarOkumasi = YazildigiGibi | Amaclanan

  function TutarHucresi(o: TutarOkumasi, v: CellValue): AmountInput
  {
    if o.YazildigiGibi? then AmountOfCellAsWritten(v) else AmountOfCell(v)
  }

  /** The data of a row under a column mapping. */
  function SatirVerisiOf(satir: nat, cells: seq<CellValue>, m: map<nat, Alan>, o: TutarOkumasi): SatirVerisi
  {
    SatirVerisi(
      satir,
      Metin(AlanHucresi(cells, m, EvrakTipi)),
      Metin(AlanHucresi(cells, m, EvrakNo)),
      TutarHucresi(o, AlanHucresi(cells, m, Tutar)),
      Metin(AlanHucresi(cells, m, ParaBirimi)),
      TutarHucresi(o, AlanHucresi(cells, m, DovizKuru)),
      AlanHucresi(cells, m, EvrakTarihi),
      AlanHucresi(cells, m, VadeTarihi),
      Metin(AlanHucresi(cells, m, BankaAdi)),
      Metin(AlanHucresi(cells, m, Kesideci)),
      Metin(AlanHucresi(cells, m, CariAdi)),
      Metin(AlanHucresi(cells, m, Durum)),
      Metin(AlanHucresi(cells, m, Notlar)))
  }

  /** `rowData[field] = ...` for one cell. */
  function Ata(d: SatirVerisi, f: Alan, v: CellValue, o: TutarOkumasi): SatirVerisi
  {
    match f
    case EvrakTipi => d.(evrakTipi := Metin(v))
    case EvrakNo => d.(evrakNo := Metin(v))
    case Tutar => d.(tutar := TutarHucresi(o, v))
    case ParaBirimi => d.(paraBirimi := Metin(v))
    case DovizKuru => d.(dovizKuru := TutarHucresi(o, v))
    case EvrakTarihi => d.(evrakTarihi := v)
    case VadeTarihi => d.(vadeTarihi := v)
    case BankaAdi => d.(bankaAdi := Metin(v))
    case Kesideci => d.(kesideci := Metin(v))
    case CariAdi => d.(cariAdi := Metin(v))
    case Durum => d.(durum := Metin(v))
    case Notlar => d.(notlar := Metin(v))
  }

  /** Taking one more cell into account changes at most the field its column
   *  feeds. */
  lemma SatirVerisiStep(satir: nat, cells: seq<CellValue>, m: map<nat, Alan>, o: TutarOkumasi)
    requires cells != []
    ensures var c := |cells|;
            SatirVerisiOf(satir, cells, m, o)
            == if !cells[c - 1].Empty? && c in m
               then Ata(SatirVerisiOf(satir, cells[..c - 1], m, o), m[c], cells[c - 1], o)
               else SatirVerisiOf(satir, cells[..c - 1], m, o)
  {
    var c := |cells|;
    var front := cells[..c - 1];
    if !cells[c - 1].Empty? && c in m {
      forall f: Alan
        ensures AlanHucresi(cells, m, f) == if f == m[c] then cells[c - 1] else AlanHucresi(front, m, f)
      {
      }
      AtaFarki(satir, cells, front, m, m[c], cells[c - 1], o);
    } else {
      forall f: Alan
        ensures AlanHucresi(cells, m, f) == AlanHucresi(front, m, f)
      {
      }
    }
  }

  /** Two rows whose cells differ only in the one of field `g` differ only
   *  in that field. */
  lemma AtaFarki(satir: nat, cells: seq<CellValue>, front: seq<CellValue>, m: map<nat, Alan>, g: Alan, v: CellValue,
                  o: TutarOkumasi)
    requires forall f: Alan :: AlanHucresi(cells, m, f) == if f == g then v else AlanHucresi(front, m, f)
    ensures SatirVerisiOf(satir, cells, m, o) == Ata(SatirVerisiOf(satir, front, m, o), g, v, o)
  {
    var d := SatirVerisiOf(satir, front, m, o);
    match g
    case EvrakTipi => assert SatirVerisiOf(satir, cells, m, o) == d.(evrakTipi := Metin(v));
    case EvrakNo => assert SatirVerisiOf(satir, cells, m, o) == d.(evrakNo := Metin(v));
    case Tutar => assert SatirVerisiOf(satir, cells, m, o) == d.(tutar := TutarHucresi(o, v));
    case ParaBirimi => assert SatirVerisiOf(satir, cells, m, o) == d.(paraBirimi := Metin(v));
    case DovizKuru => assert SatirVerisiOf(satir, cells, m, o) == d.(dovizKuru := TutarHucresi(o, v));
    case EvrakTarihi => assert SatirVerisiOf(satir, cells, m, o) == d.(evrakTarihi := v);
    case VadeTarihi => assert SatirVerisiOf(satir, cells, m, o) == d.(vadeTarihi := v);
    case BankaAdi => assert SatirVerisiOf(satir, cells, m, o) == d.(bankaAdi := Metin(v));
    case Kesideci => assert SatirVerisiOf(satir, cells, m, o) == d.(kesideci := Metin(v));
    case CariAdi => assert SatirVerisiOf(satir, cells, m, o) == d.(cariAdi := Metin(v));
    case Durum => assert SatirVerisiOf(satir, cells, m, o) == d.(durum := Metin(v));
    case Notlar => assert SatirVerisiOf(satir, cells, m, o) == d.(notlar := Metin(v));
  }

  /** Building `rowData` cell by cell: each field ends with its last mapped
   *  non-empty cell. `parseExcelFile` runs it with the reading as written. */
  method RowData(satir: nat, cells: seq<CellValue>, m: map<nat, Alan>, o: TutarOkumasi) returns (d: SatirVerisi)
    ensures d == SatirVerisiOf(satir, cells, m, o)
  {
    d := SatirVerisiOf(satir, [], m, o);
    var i := 0;
    while i < |cells|
      invariant 0 <= i <= |cells|
      invariant d == SatirVerisiOf(satir, cells[..i], m, o)
    {
      assert cells[..i + 1][..i] == cells[..i];
      SatirVerisiStep(satir, cells[..i + 1], m, o);
      if !cells[i].Empty? && i + 1 in m {
        d := Ata(d, m[i + 1], cells[i], o);
      }
      i := i + 1;
    }
    assert cells[..i] == cells;
  }

  /** A cell that reaches `parseAmount` as a number under the intended
   *  reading: a number, directly or as a formula's result. */
  predicate SayiHucresi(v: CellValue)
  {
    v.Number? || (v.Formula? && v.result.Some? && v.result.value.Number?)
  }

  /** The two readings build the same row unless an amount column holds a
   *  number cell. */
  lemma OkumalarYalnizSayidaAyrilir(satir: nat, cells: seq<CellValue>, m: map<nat, Alan>)
    requires !SayiHucresi(AlanHucresi(cells, m, Tutar)) && !SayiHucresi(AlanHucresi(cells, m, DovizKuru))
    ensures SatirVerisiOf(satir, cells, m, YazildigiGibi) == SatirVerisiOf(satir, cells, m, Amaclanan)
  {
  }

  // ---------------------------------------------------------------------
  // Validation

  /** The errors `validateRow` records; each makes the row invalid. */
  datatype Hata =
    | EvrakTipiZorunlu
    | GecersizEvrakTipi(deger: string)
    | EvrakNoZorunlu
    | EvrakNoCokUzun
    | TutarGecersiz
    | VadeTarihiGecersiz
    | GecersizParaBirimi(deger: string)
    | DovizKuruZorunlu(paraBirimi: string)

  /** The warnings `validateRow` records; none affects validity. */
  datatype Uyari =
    | EvrakNoMevcut(evrakNo: string)
    | EvrakTarihiAtlandi
    | DurumDuzeltildi(deger: string)
    | BankaAdiKisaltildi
    | KesideciKisaltildi
    | CariBulunamadi(cariAdi: string)
    | NotlarKisaltildi

  function HataMesaji(h: Hata): string
  {
    match h
    case EvrakTipiZorunlu => "Evrak tipi zorunludur"
    case GecersizEvrakTipi(d) => "Geçersiz evrak tipi: \"" + d + "\". Geçerli değerler: " + Join(EvrakTipleri, ", ")
    case EvrakNoZorunlu => "Evrak no zorunludur"
    case EvrakNoCokUzun => "Evrak no en fazla 50 karakter olabilir"
    case TutarGecersiz => "Tutar zorunludur ve pozitif bir sayı olmalıdır"
    case VadeTarihiGecersiz => "Vade tarihi zorunludur (GG.AA.YYYY veya YYYY-MM-DD formatında)"
    case GecersizParaBirimi(d) =>
      "Geçersiz para birimi: \"" + d + "\". Geçerli değerler: " + Join(Krediler.ParaBirimleri, ", ")
    case DovizKuruZorunlu(p) => p + " para birimi için döviz kuru zorunludur"
  }

  function UyariMesaji(u: Uyari): string
  {
    match u
    case EvrakNoMevcut(no) => "Evrak no \"" + no + "\" sistemde zaten mevcut"
    case EvrakTarihiAtlandi => "Evrak tarihi geçersiz format, atlandı"
    case DurumDuzeltildi(d) => "Geçersiz durum: \"" + d + "\". \"portfoy\" olarak ayarlandı"
    case BankaAdiKisaltildi => "Banka adı 100 karaktere kısaltıldı"
    case KesideciKisaltildi => "Keşideci 200 karaktere kısaltıldı"
    case CariBulunamadi(c) => "Cari \"" + c + "\" sistemde bulunamadı, cariye bağlanmayacak"
    case NotlarKisaltildi => "Notlar 1000 karaktere kısaltıldı"
  }

  /** An amount after validation: null, the number read, or the value left
   *  as it came when it could not be read. */
  datatype Miktar = Yok | Okunan(n: JsNumber) | Okunamayan(ham: AmountInput)

  /** The due date after validation: the date read, or the cell as it came. */
  datatype Vade = VadeOkunan(tarih: Date) | VadeOkunamayan(ham: CellValue)

  /** A row as `parseExcelFile` returns it: the fields as `validateRow` left
   *  them, with its errors, warnings and verdict. */
  datatype Satir = Satir(
    satir: nat,
    evrakTipi: Option<string>,
    evrakNo: Option<string>,
    tutar: Miktar,
    paraBirimi: string,
    dovizKuru: Miktar,
    evrakTarihi: Option<Date>,
    vadeTarihi: Vade,
    bankaAdi: Option<string>,
    kesideci: Option<string>,
    cariAdi: Option<string>,
    cariId: Option<int>,
    durum: string,
    notlar: Option<string>,
    hatalar: seq<Hata>,
    uyarilar: seq<Uyari>,
    gecerli: bool)

  function KucukNormal(s: string): string
  {
    Trim(ToLower(s))
  }

  function BuyukNormal(s: string): string
  {
    Trim(ToUpper(s))
  }

  /** `isEvrakNoExists` */
  predicate EvrakNoKayitli(no: string, env: Ortam)
  {
    no != "" && env.evrakNoKayitli(Trim(no))
  }

  /** `findCariByName` */
  function CariBul(ad: string, env: Ortam): Option<int>
  {
    if ad == "" then None else env.cariBul(Trim(ad))
  }

  /** The currency a row ends with: TRY when none is given, the normalised
   *  code when it is one of the five, and the text as given otherwise. */
  function ParaSonucu(ham: Option<string>): (r: string)
    ensures r in Krediler.ParaBirimleri
            || (Js.TruthyStr(ham) && r == ham.value && BuyukNormal(ham.value) !in Krediler.ParaBirimleri)
    ensures !Js.TruthyStr(ham) ==> r == "TRY"
    ensures r != ""
  {
    if !Js.TruthyStr(ham) then "TRY"
    else if BuyukNormal(ham.value) in Krediler.ParaBirimleri then BuyukNormal(ham.value)
    else ham.value
  }

  /** The counterparty id a row ends with: the one found under the trimmed
   *  name, or null. */
  function CariIdSonucu(ham: Option<string>, env: Ortam): (r: Option<int>)
    ensures r.Some? ==> Js.TruthyStr(ham) && r == CariBul(Trim(ham.value), env) && r.value != 0
  {
    if Js.TruthyStr(ham) then Js.OrNullInt(CariBul(Trim(ham.value), env)) else None
  }

  /** The status a row ends with: always one of the five known ones, the
   *  given one when it is known, `portfoy` otherwise. */
  function DurumSonucu(ham: Option<string>): (r: string)
    ensures r in Evraklar.GecerliDurumlar
    ensures Js.TruthyStr(ham) && KucukNormal(ham.value) in Evraklar.GecerliDurumlar ==> r == KucukNormal(ham.value)
    ensures !(Js.TruthyStr(ham) && KucukNormal(ham.value) in Evraklar.GecerliDurumlar) ==> r == "portfoy"
  {
    if Js.TruthyStr(ham) && KucukNormal(ham.value) in Evraklar.GecerliDurumlar then KucukNormal(ham.value)
    else "portfoy"
  }

  /** A free-text field after validation: null when not given, otherwise
   *  the trimmed text cut to its first `n` characters. */
  function Kisalt(ham: Option<string>, n: nat): (r: Option<string>)
    ensures r.None? <==> !Js.TruthyStr(ham)
    ensures r.Some? ==> |r.value| <= n && StartsWith(Trim(ham.value), r.value)
    ensures r.Some? && |Trim(ham.value)| <= n ==> r.value == Trim(ham.value)
  {
    if !Js.TruthyStr(ham) then None
    else
      var t := Trim(ham.value);
      if |t| > n then Some(t[..n]) else Some(t)
  }

  /** The errors a row gets, each with the condition that records it. */
  predicate HataBeklenir(h: Hata, ham: SatirVerisi, env: Ortam)
  {
    match h
    case EvrakTipiZorunlu => !Js.TruthyStr(ham.evrakTipi)
    case GecersizEvrakTipi(d) =>
      Js.TruthyStr(ham.evrakTipi) && d == ham.evrakTipi.value && KucukNormal(d) !in EvrakTipleri
    case EvrakNoZorunlu => !Js.TruthyStr(ham.evrakNo)
    case EvrakNoCokUzun => Js.TruthyStr(ham.evrakNo) && |Trim(ham.evrakNo.value)| > 50
    case TutarGecersiz => ParseAmount(ham.tutar).None?
    case VadeTarihiGecersiz => ParseDate(ham.vadeTarihi, env).None?
    case GecersizParaBirimi(d) =>
      Js.TruthyStr(ham.paraBirimi) && d == ham.paraBirimi.value && BuyukNormal(d) !in Krediler.ParaBirimleri
    case DovizKuruZorunlu(p) =>
      p == ParaSonucu(ham.paraBirimi) && p != "TRY" && ParseAmount(ham.dovizKuru).None?
  }

  /** The warnings a row gets, each with the condition that records it. */
  predicate UyariBeklenir(u: Uyari, ham: SatirVerisi, env: Ortam)
  {
    match u
    case EvrakNoMevcut(no) =>
      Js.TruthyStr(ham.evrakNo) && no == Trim(ham.evrakNo.value) && EvrakNoKayitli(no, env)
    case EvrakTarihiAtlandi => CellTruthy(ham.evrakTarihi) && ParseDate(ham.evrakTarihi, env).None?
    case DurumDuzeltildi(d) =>
      Js.TruthyStr(ham.durum) && d == ham.durum.value && KucukNormal(d) !in Evraklar.GecerliDurumlar
    case BankaAdiKisaltildi => Js.TruthyStr(ham.bankaAdi) && |Trim(ham.bankaAdi.value)| > 100
    case KesideciKisaltildi => Js.TruthyStr(ham.kesideci) && |Trim(ham.kesideci.value)| > 200
    case CariBulunamadi(c) =>
      Js.TruthyStr(ham.cariAdi) && c == Trim(ham.cariAdi.value) && !Js.TruthyInt(CariBul(c, env))
    case NotlarKisaltildi => Js.TruthyStr(ham.notlar) && |Trim(ham.notlar.value)| > 1000
  }

  /** The order in which `validateRow` checks what an error is about. */
  function HataSirasi(h: Hata): nat
  {
    match h
    case EvrakTipiZorunlu => 0
    case GecersizEvrakTipi(_) => 0
    case EvrakNoZorunlu => 1
    case EvrakNoCokUzun => 1
    case TutarGecersiz => 2
    case VadeTarihiGecersiz => 3
    case GecersizParaBirimi(_) => 4
    case DovizKuruZorunlu(_) => 5
  }

  function UyariSirasi(u: Uyari): nat
  {
    match u
    case EvrakNoMevcut(_) => 0
    case EvrakTarihiAtlandi => 1
    case DurumDuzeltildi(_) => 2
    case BankaAdiKisaltildi => 3
    case KesideciKisaltildi => 4
    case CariBulunamadi(_) => 5
    case NotlarKisaltildi => 6
  }

  /** The errors of the first `k` checks, and only those. */
  ghost predicate HatalarKadar(hatalar: seq<Hata>, ham: SatirVerisi, env: Ortam, k: nat)
  {
    forall h :: h in hatalar <==> HataBeklenir(h, ham, env) && HataSirasi(h) < k
  }

  ghost predicate UyarilarKadar(uyarilar: seq<Uyari>, ham: SatirVerisi, env: Ortam, k: nat)
  {
    forall u :: u in uyarilar <==> UyariBeklenir(u, ham, env) && UyariSirasi(u) < k
  }

  /** The fields `validateRow` leaves in a row. */
  predicate AlanlarDogru(s: Satir, ham: SatirVerisi, env: Ortam)
  {
    var tutar := ParseAmount(ham.tutar);
    var kur := ParseAmount(ham.dovizKuru);
    var vade := ParseDate(ham.vadeTarihi, env);
    && s.satir == ham.satir
    && s.evrakTipi == (if Js.TruthyStr(ham.evrakTipi) && KucukNormal(ham.evrakTipi.value) in EvrakTipleri
                       then Some(KucukNormal(ham.evrakTipi.value)) else ham.evrakTipi)
    && s.evrakNo == (if Js.TruthyStr(ham.evrakNo) then Some(Trim(ham.evrakNo.value)) else ham.evrakNo)
    && s.tutar == (if tutar.Some? then Okunan(tutar.value) else Okunamayan(ham.tutar))
    && s.paraBirimi == ParaSonucu(ham.paraBirimi)
    && s.dovizKuru == (if s.paraBirimi == "TRY" then Yok
                       else if kur.Some? then Okunan(kur.value) else Okunamayan(ham.dovizKuru))
    && s.evrakTarihi == ParseDate(ham.evrakTarihi, env)
    && s.vadeTarihi == (if vade.Some? then VadeOkunan(vade.value) else VadeOkunamayan(ham.vadeTarihi))
    && s.durum == DurumSonucu(ham.durum)
    && s.bankaAdi == Kisalt(ham.bankaAdi, 100)
    && s.kesideci == Kisalt(ham.kesideci, 200)
    && s.cariAdi == (if Js.TruthyStr(ham.cariAdi) then Some(Trim(ham.cariAdi.value)) else ham.cariAdi)
    && s.cariId == CariIdSonucu(ham.cariAdi, env)
    && s.notlar == Kisalt(ham.notlar, 1000)
  }

  /** A check's finding as the list it pushes: nothing or one entry. */
  function Tek<T(!new)>(w: Option<T>): (r: seq<T>)
    ensures |r| <= 1
    ensures forall x :: x in r <==> w == Some(x)
  {
    if w.Some? then [w.value] else []
  }

  /** The error of the evrak type check, when there is one. */
  function TipHatasi(ham: SatirVerisi): Option<Hata>
  {
    if !Js.TruthyStr(ham.evrakTipi) then Some(EvrakTipiZorunlu)
    else if KucukNormal(ham.evrakTipi.value) !in EvrakTipleri then Some(GecersizEvrakTipi(ham.evrakTipi.value))
    else None
  }

  /** The error of the evrak number check, when there is one. */
  function NoHatasi(ham: SatirVerisi): Option<Hata>
  {
    if !Js.TruthyStr(ham.evrakNo) then Some(EvrakNoZorunlu)
    else if |Trim(ham.evrakNo.value)| > 50 then Some(EvrakNoCokUzun)
    else None
  }

  function TutarHatasi(ham: SatirVerisi): Option<Hata>
  {
    if ParseAmount(ham.tutar).None? then Some(TutarGecersiz) else None
  }

  function VadeHatasi(ham: SatirVerisi, env: Ortam): Option<Hata>
  {
    if ParseDate(ham.vadeTarihi, env).None? then Some(VadeTarihiGecersiz) else None
  }

  /** The errors `validateRow` pushes, in the order it checks: type, number,
   *  amount, due date, currency, rate. */
  function BeklenenHatalar(ham: SatirVerisi, env: Ortam): seq<Hata>
  {
    Tek(TipHatasi(ham)) + Tek(NoHatasi(ham)) + Tek(TutarHatasi(ham)) + Tek(VadeHatasi(ham, env))
      + Tek(ParaHatasi(ham)) + Tek(KurHatasi(ham))
  }

  /** The warning of the issue date check, when there is one. */
  function EvrakTarihiUyarisi(ham: SatirVerisi, env: Ortam): Option<Uyari>
  {
    if CellTruthy(ham.evrakTarihi) && ParseDate(ham.evrakTarihi, env).None? then Some(EvrakTarihiAtlandi) else None
  }

  /** The warning of the status check, when there is one. */
  function DurumUyarisiOf(ham: SatirVerisi): Option<Uyari>
  {
    if Js.TruthyStr(ham.durum) && KucukNormal(ham.durum.value) !in Evraklar.GecerliDurumlar
    then Some(DurumDuzeltildi(ham.durum.value)) else None
  }

  /** The warnings `validateRow` pushes, in the order it checks: number
   *  already recorded, issue date, status, bank, drawer, counterparty,
   *  notes. */
  function BeklenenUyarilar(ham: SatirVerisi, env: Ortam): seq<Uyari>
  {
    Tek(MevcutUyarisi(ham, env)) + Tek(EvrakTarihiUyarisi(ham, env)) + Tek(DurumUyarisiOf(ham))
      + Tek(KisaltmaUyarisi(ham.bankaAdi, 100, BankaAdiKisaltildi))
      + Tek(KisaltmaUyarisi(ham.kesideci, 200, KesideciKisaltildi))
      + Tek(CariUyarisi(ham.cariAdi, env))
      + Tek(KisaltmaUyarisi(ham.notlar, 1000, NotlarKisaltildi))
  }

  /** What `validateRow` makes of a row's data: its fields, its errors and
   *  warnings as the lists the checks push in order -- exactly those whose
   *  conditions hold -- and validity as the absence of errors. */
  ghost predicate Dogrulanmis(s: Satir, ham: SatirVerisi, env: Ortam)
  {
    && AlanlarDogru(s, ham, env)
    && s.hatalar == BeklenenHatalar(ham, env)
    && s.uyarilar == BeklenenUyarilar(ham, env)
    && (forall h :: h in s.hatalar <==> HataBeklenir(h, ham, env))
    && (forall u :: u in s.uyarilar <==> UyariBeklenir(u, ham, env))
    && (s.gecerli <==> s.hatalar == [])
  }

  /** `hatalar2` is `hatalar` with the errors of check `k` pushed. */
  ghost predicate HataEklendi(hatalar2: seq<Hata>, hatalar: seq<Hata>, ham: SatirVerisi, env: Ortam, k: nat)
  {
    forall h :: h in hatalar2 <==> h in hatalar || (HataBeklenir(h, ham, env) && HataSirasi(h) == k)
  }

  ghost predicate UyariEklendi(uyarilar2: seq<Uyari>, uyarilar: seq<Uyari>, ham: SatirVerisi, env: Ortam, k: nat)
  {
    forall u :: u in uyarilar2 <==> u in uyarilar || (UyariBeklenir(u, ham, env) && UyariSirasi(u) == k)
  }

  /** The evrak type check: required, and normalised to `cek` or `senet`. */
  method EvrakTipiKontrol(ham: SatirVerisi, env: Ortam, hatalar: seq<Hata>)
    returns (hatalar2: seq<Hata>, evrakTipi: Option<string>)
    ensures HataEklendi(hatalar2, hatalar, ham, env, 0) && |hatalar2| <= |hatalar| + 1
    ensures hatalar2 == hatalar + Tek(TipHatasi(ham))
    ensures evrakTipi == if Js.TruthyStr(ham.evrakTipi) && KucukNormal(ham.evrakTipi.value) in EvrakTipleri
                         then Some(KucukNormal(ham.evrakTipi.value)) else ham.evrakTipi
  {
    hatalar2, evrakTipi := hatalar, ham.evrakTipi;
    if !Js.TruthyStr(ham.evrakTipi) {
      hatalar2 := hatalar2 + [EvrakTipiZorunlu];
    } else {
      var tip := KucukNormal(ham.evrakTipi.value);
      if tip !in EvrakTipleri {
        hatalar2 := hatalar2 + [GecersizEvrakTipi(ham.evrakTipi.value)];
      } else {
        evrakTipi := Some(tip);
      }
    }
    TipHatasiTek(ham, env);
    TekHata(hatalar2, hatalar, ham, env, 0, TipHatasi(ham));
  }

  lemma TipHatasiTek(ham: SatirVerisi, env: Ortam)
    ensures forall h :: HataBeklenir(h, ham, env) && HataSirasi(h) == 0 <==> Some(h) == TipHatasi(ham)
  {
    forall h ensures HataBeklenir(h, ham, env) && HataSirasi(h) == 0 <==> Some(h) == TipHatasi(ham) {
      if h.EvrakTipiZorunlu? || h.GecersizEvrakTipi? {
        assert HataSirasi(h) == 0;
      } else {
        assert HataSirasi(h) != 0;
      }
    }
  }

  /** The evrak number check: required, trimmed, at most 50 characters. */
  method EvrakNoKontrol(ham: SatirVerisi, env: Ortam, hatalar: seq<Hata>)
    returns (hatalar2: seq<Hata>, evrakNo: Option<string>)
    ensures HataEklendi(hatalar2, hatalar, ham, env, 1) && |hatalar2| <= |hatalar| + 1
    ensures hatalar2 == hatalar + Tek(NoHatasi(ham))
    ensures evrakNo == if Js.TruthyStr(ham.evrakNo) then Some(Trim(ham.evrakNo.value)) else ham.evrakNo
  {
    hatalar2, evrakNo := hatalar, ham.evrakNo;
    if !Js.TruthyStr(ham.evrakNo) {
      hatalar2 := hatalar2 + [EvrakNoZorunlu];
    } else {
      var no := Trim(ham.evrakNo.value);
      evrakNo := Some(no);
      if |no| > 50 {
        hatalar2 := hatalar2 + [EvrakNoCokUzun];
      }
    }
    NoHatasiTek(ham, env);
    TekHata(hatalar2, hatalar, ham, env, 1, NoHatasi(ham));
  }

  lemma NoHatasiTek(ham: SatirVerisi, env: Ortam)
    ensures forall h :: HataBeklenir(h, ham, env) && HataSirasi(h) == 1 <==> Some(h) == NoHatasi(ham)
  {
    forall h ensures HataBeklenir(h, ham, env) && HataSirasi(h) == 1 <==> Some(h) == NoHatasi(ham) {
      if h.EvrakNoZorunlu? || h.EvrakNoCokUzun? {
        assert HataSirasi(h) == 1;
      } else {
        assert HataSirasi(h) != 1;
      }
    }
  }

  /** A warning when the evrak number is already recorded. */
  method EvrakNoMevcutKontrol(ham: SatirVerisi, env: Ortam, uyarilar: seq<Uyari>)
    returns (uyarilar2: seq<Uyari>)
    ensures UyariEklendi(uyarilar2, uyarilar, ham, env, 0) && |uyarilar2| <= |uyarilar| + 1
    ensures uyarilar2 == uyarilar + Tek(MevcutUyarisi(ham, env))
  {
    uyarilar2 := uyarilar;
    if Js.TruthyStr(ham.evrakNo) {
      var no := Trim(ham.evrakNo.value);
      if EvrakNoKayitli(no, env) {
        uyarilar2 := uyarilar2 + [EvrakNoMevcut(no)];
      }
    }
    MevcutTek(ham, env);
    TekUyari(uyarilar2, uyarilar, ham, env, 0, MevcutUyarisi(ham, env));
  }

  /** The warning about a number already recorded, when there is one. */
  function MevcutUyarisi(ham: SatirVerisi, env: Ortam): Option<Uyari>
  {
    if Js.TruthyStr(ham.evrakNo) && EvrakNoKayitli(Trim(ham.evrakNo.value), env)
    then Some(EvrakNoMevcut(Trim(ham.evrakNo.value))) else None
  }

  lemma MevcutTek(ham: SatirVerisi, env: Ortam)
    ensures forall u :: UyariBeklenir(u, ham, env) && UyariSirasi(u) == 0 <==> Some(u) == MevcutUyarisi(ham, env)
  {
    forall u ensures UyariBeklenir(u, ham, env) && UyariSirasi(u) == 0 <==> Some(u) == MevcutUyarisi(ham, env) {
      if u.EvrakNoMevcut? {
        assert UyariSirasi(u) == 0;
      } else {
        assert UyariSirasi(u) != 0;
      }
    }
  }

  /** The amount check: a positive amount is required. */
  method TutarKontrol(ham: SatirVerisi, env: Ortam, hatalar: seq<Hata>)
    returns (hatalar2: seq<Hata>, tutar: Miktar)
    ensures HataEklendi(hatalar2, hatalar, ham, env, 2) && |hatalar2| <= |hatalar| + 1
    ensures hatalar2 == hatalar + Tek(TutarHatasi(ham))
    ensures tutar == if ParseAmount(ham.tutar).Some? then Okunan(ParseAmount(ham.tutar).value) else Okunamayan(ham.tutar)
  {
    hatalar2, tutar := hatalar, Okunamayan(ham.tutar);
    var okunan := ParseAmount(ham.tutar);
    if okunan.None? {
      hatalar2 := hatalar2 + [TutarGecersiz];
    } else {
      tutar := Okunan(okunan.value);
    }
    TutarHatasiTek(ham, env);
    TekHata(hatalar2, hatalar, ham, env, 2, TutarHatasi(ham));
  }

  lemma TutarHatasiTek(ham: SatirVerisi, env: Ortam)
    ensures forall h :: HataBeklenir(h, ham, env) && HataSirasi(h) == 2 <==> Some(h) == TutarHatasi(ham)
  {
    forall h ensures HataBeklenir(h, ham, env) && HataSirasi(h) == 2 <==> Some(h) == TutarHatasi(ham) {
      if h.TutarGecersiz? {
        assert HataSirasi(h) == 2;
      } else {
        assert HataSirasi(h) != 2;
      }
    }
  }

  /** The due date check: a date is required. */
  method VadeKontrol(ham: SatirVerisi, env: Ortam, hatalar: seq<Hata>)
    returns (hatalar2: seq<Hata>, vade: Vade)
    ensures HataEklendi(hatalar2, hatalar, ham, env, 3) && |hatalar2| <= |hatalar| + 1
    ensures hatalar2 == hatalar + Tek(VadeHatasi(ham, env))
    ensures vade == if ParseDate(ham.vadeTarihi, env).Some? then VadeOkunan(ParseDate(ham.vadeTarihi, env).value)
                    else VadeOkunamayan(ham.vadeTarihi)
  {
    hatalar2, vade := hatalar, VadeOkunamayan(ham.vadeTarihi);
    var okunan := ParseDate(ham.vadeTarihi, env);
    if okunan.None? {
      hatalar2 := hatalar2 + [VadeTarihiGecersiz];
    } else {
      vade := VadeOkunan(okunan.value);
    }
    VadeHatasiTek(ham, env);
    TekHata(hatalar2, hatalar, ham, env, 3, VadeHatasi(ham, env));
  }

  lemma VadeHatasiTek(ham: SatirVerisi, env: Ortam)
    ensures forall h :: HataBeklenir(h, ham, env) && HataSirasi(h) == 3 <==> Some(h) == VadeHatasi(ham, env)
  {
    forall h ensures HataBeklenir(h, ham, env) && HataSirasi(h) == 3 <==> Some(h) == VadeHatasi(ham, env) {
      if h.VadeTarihiGecersiz? {
        assert HataSirasi(h) == 3;
      } else {
        assert HataSirasi(h) != 3;
      }
    }
  }

  /** The currency check: TRY by default, one of the five codes, or an error
   *  that leaves the text as given. */
  method ParaBirimiKontrol(ham: SatirVerisi, env: Ortam, hatalar: seq<Hata>)
    returns (hatalar2: seq<Hata>, paraBirimi: string)
    ensures HataEklendi(hatalar2, hatalar, ham, env, 4) && |hatalar2| <= |hatalar| + 1
    ensures hatalar2 == hatalar + Tek(ParaHatasi(ham))
    ensures paraBirimi == ParaSonucu(ham.paraBirimi)
  {
    hatalar2 := hatalar;
    if Js.TruthyStr(ham.paraBirimi) {
      var pb := BuyukNormal(ham.paraBirimi.value);
      if pb !in Krediler.ParaBirimleri {
        hatalar2 := hatalar2 + [GecersizParaBirimi(ham.paraBirimi.value)];
        paraBirimi := ham.paraBirimi.value;
      } else {
        paraBirimi := pb;
      }
    } else {
      paraBirimi := "TRY";
    }
    ParaHatasiTek(ham, env);
    TekHata(hatalar2, hatalar, ham, env, 4, ParaHatasi(ham));
  }

  /** The error of the currency check, when there is one. */
  function ParaHatasi(ham: SatirVerisi): Option<Hata>
  {
    if Js.TruthyStr(ham.paraBirimi) && BuyukNormal(ham.paraBirimi.value) !in Krediler.ParaBirimleri
    then Some(GecersizParaBirimi(ham.paraBirimi.value)) else None
  }

  lemma ParaHatasiTek(ham: SatirVerisi, env: Ortam)
    ensures forall h :: HataBeklenir(h, ham, env) && HataSirasi(h) == 4 <==> Some(h) == ParaHatasi(ham)
  {
    forall h ensures HataBeklenir(h, ham, env) && HataSirasi(h) == 4 <==> Some(h) == ParaHatasi(ham) {
      if h.GecersizParaBirimi? {
        assert HataSirasi(h) == 4;
      } else {
        assert HataSirasi(h) != 4;
      }
    }
  }

  /** The error of the exchange rate check, when there is one. */
  function KurHatasi(ham: SatirVerisi): Option<Hata>
  {
    var p := ParaSonucu(ham.paraBirimi);
    if p != "TRY" && ParseAmount(ham.dovizKuru).None? then Some(DovizKuruZorunlu(p)) else None
  }

  lemma KurHatasiTek(ham: SatirVerisi, env: Ortam)
    ensures forall h :: HataBeklenir(h, ham, env) && HataSirasi(h) == 5 <==> Some(h) == KurHatasi(ham)
  {
    forall h ensures HataBeklenir(h, ham, env) && HataSirasi(h) == 5 <==> Some(h) == KurHatasi(ham) {
      if h.DovizKuruZorunlu? {
        assert HataSirasi(h) == 5;
      } else {
        assert HataSirasi(h) != 5;
      }
    }
  }

  lemma TekHata(h2: seq<Hata>, h1: seq<Hata>, ham: SatirVerisi, env: Ortam, k: nat, w: Option<Hata>)
    requires forall h :: HataBeklenir(h, ham, env) && HataSirasi(h) == k <==> Some(h) == w
    requires h2 == h1 + (if w.Some? then [w.value] else [])
    ensures HataEklendi(h2, h1, ham, env, k)
  {
  }

  /** The exchange rate check: null for TRY, otherwise a positive rate is
   *  required. */
  method DovizKuruKontrol(ham: SatirVerisi, env: Ortam, paraBirimi: string, hatalar: seq<Hata>)
    returns (hatalar2: seq<Hata>, dovizKuru: Miktar)
    requires paraBirimi == ParaSonucu(ham.paraBirimi)
    ensures HataEklendi(hatalar2, hatalar, ham, env, 5) && |hatalar2| <= |hatalar| + 1
    ensures hatalar2 == hatalar + Tek(KurHatasi(ham))
    ensures dovizKuru == if paraBirimi == "TRY" then Yok
                         else if ParseAmount(ham.dovizKuru).Some? then Okunan(ParseAmount(ham.dovizKuru).value)
                         else Okunamayan(ham.dovizKuru)
  {
    hatalar2, dovizKuru := hatalar, Yok;
    if paraBirimi != "" && paraBirimi != "TRY" {
      var kur := ParseAmount(ham.dovizKuru);
      if kur.None? {
        hatalar2 := hatalar2 + [DovizKuruZorunlu(paraBirimi)];
        dovizKuru := Okunamayan(ham.dovizKuru);
      } else {
        dovizKuru := Okunan(kur.value);
      }
    }
    KurHatasiTek(ham, env);
    TekHata(hatalar2, hatalar, ham, env, 5, KurHatasi(ham));
  }

  /** An issue date that cannot be read is dropped with a warning. */
  method EvrakTarihiKontrol(ham: SatirVerisi, env: Ortam, uyarilar: seq<Uyari>)
    returns (uyarilar2: seq<Uyari>, evrakTarihi: Option<Date>)
    ensures UyariEklendi(uyarilar2, uyarilar, ham, env, 1) && |uyarilar2| <= |uyarilar| + 1
    ensures uyarilar2 == uyarilar + Tek(EvrakTarihiUyarisi(ham, env))
    ensures evrakTarihi == ParseDate(ham.evrakTarihi, env)
  {
    uyarilar2, evrakTarihi := uyarilar, None;
    if CellTruthy(ham.evrakTarihi) {
      evrakTarihi := ParseDate(ham.evrakTarihi, env);
      if evrakTarihi.None? {
        uyarilar2 := uyarilar2 + [EvrakTarihiAtlandi];
      }
    }
    EvrakTarihiTek(ham, env);
    TekUyari(uyarilar2, uyarilar, ham, env, 1, EvrakTarihiUyarisi(ham, env));
  }

  lemma EvrakTarihiTek(ham: SatirVerisi, env: Ortam)
    ensures forall u :: UyariBeklenir(u, ham, env) && UyariSirasi(u) == 1 <==> Some(u) == EvrakTarihiUyarisi(ham, env)
  {
    forall u ensures UyariBeklenir(u, ham, env) && UyariSirasi(u) == 1 <==> Some(u) == EvrakTarihiUyarisi(ham, env) {
      if u.EvrakTarihiAtlandi? {
        assert UyariSirasi(u) == 1;
      } else {
        assert UyariSirasi(u) != 1;
      }
    }
  }

  /** An unknown status becomes `portfoy` with a warning. */
  method DurumKontrol(ham: SatirVerisi, env: Ortam, uyarilar: seq<Uyari>)
    returns (uyarilar2: seq<Uyari>, durum: string)
    ensures UyariEklendi(uyarilar2, uyarilar, ham, env, 2) && |uyarilar2| <= |uyarilar| + 1
    ensures uyarilar2 == uyarilar + Tek(DurumUyarisiOf(ham))
    ensures durum == DurumSonucu(ham.durum)
  {
    uyarilar2, durum := uyarilar, "portfoy";
    if Js.TruthyStr(ham.durum) {
      var d := KucukNormal(ham.durum.value);
      if d !in Evraklar.GecerliDurumlar {
        uyarilar2 := uyarilar2 + [DurumDuzeltildi(ham.durum.value)];
      } else {
        durum := d;
      }
    }
    DurumTek(ham, env);
    TekUyari(uyarilar2, uyarilar, ham, env, 2, DurumUyarisiOf(ham));
  }

  lemma DurumTek(ham: SatirVerisi, env: Ortam)
    ensures forall u :: UyariBeklenir(u, ham, env) && UyariSirasi(u) == 2 <==> Some(u) == DurumUyarisiOf(ham)
  {
    forall u ensures UyariBeklenir(u, ham, env) && UyariSirasi(u) == 2 <==> Some(u) == DurumUyarisiOf(ham) {
      if u.DurumDuzeltildi? {
        assert UyariSirasi(u) == 2;
      } else {
        assert UyariSirasi(u) != 2;
      }
    }
  }

  /** The warning of a truncation check: `w` when the trimmed text is longer
   *  than `n` characters. */
  function KisaltmaUyarisi(alan: Option<string>, n: nat, w: Uyari): Option<Uyari>
  {
    if Js.TruthyStr(alan) && |Trim(alan.value)| > n then Some(w) else None
  }

  lemma BankaAdiTek(ham: SatirVerisi, env: Ortam)
    ensures forall u :: UyariBeklenir(u, ham, env) && UyariSirasi(u) == 3
                    <==> Some(u) == KisaltmaUyarisi(ham.bankaAdi, 100, BankaAdiKisaltildi)
  {
    forall u ensures UyariBeklenir(u, ham, env) && UyariSirasi(u) == 3
                <==> Some(u) == KisaltmaUyarisi(ham.bankaAdi, 100, BankaAdiKisaltildi) {
      if u.BankaAdiKisaltildi? {
        assert UyariSirasi(u) == 3;
      } else {
        assert UyariSirasi(u) != 3;
      }
    }
  }

  lemma KesideciTek(ham: SatirVerisi, env: Ortam)
    ensures forall u :: UyariBeklenir(u, ham, env) && UyariSirasi(u) == 4
                    <==> Some(u) == KisaltmaUyarisi(ham.kesideci, 200, KesideciKisaltildi)
  {
    forall u ensures UyariBeklenir(u, ham, env) && UyariSirasi(u) == 4
                <==> Some(u) == KisaltmaUyarisi(ham.kesideci, 200, KesideciKisaltildi) {
      if u.KesideciKisaltildi? {
        assert UyariSirasi(u) == 4;
      } else {
        assert UyariSirasi(u) != 4;
      }
    }
  }

  lemma NotlarTek(ham: SatirVerisi, env: Ortam)
    ensures forall u :: UyariBeklenir(u, ham, env) && UyariSirasi(u) == 6
                    <==> Some(u) == KisaltmaUyarisi(ham.notlar, 1000, NotlarKisaltildi)
  {
    forall u ensures UyariBeklenir(u, ham, env) && UyariSirasi(u) == 6
                <==> Some(u) == KisaltmaUyarisi(ham.notlar, 1000, NotlarKisaltildi) {
      if u.NotlarKisaltildi? {
        assert UyariSirasi(u) == 6;
      } else {
        assert UyariSirasi(u) != 6;
      }
    }
  }

  /** The bank name is cut to 100 characters with a warning. */
  method BankaAdiKontrol(ham: SatirVerisi, env: Ortam, uyarilar: seq<Uyari>)
    returns (uyarilar2: seq<Uyari>, bankaAdi: Option<string>)
    ensures UyariEklendi(uyarilar2, uyarilar, ham, env, 3) && |uyarilar2| <= |uyarilar| + 1
    ensures uyarilar2 == uyarilar + Tek(KisaltmaUyarisi(ham.bankaAdi, 100, BankaAdiKisaltildi))
    ensures bankaAdi == Kisalt(ham.bankaAdi, 100)
  {
    uyarilar2, bankaAdi := uyarilar, Kisalt(ham.bankaAdi, 100);
    if Js.TruthyStr(ham.bankaAdi) && |Trim(ham.bankaAdi.value)| > 100 {
      uyarilar2 := uyarilar2 + [BankaAdiKisaltildi];
    }
    BankaAdiTek(ham, env);
    TekUyari(uyarilar2, uyarilar, ham, env, 3, KisaltmaUyarisi(ham.bankaAdi, 100, BankaAdiKisaltildi));
  }

  /** The drawer is cut to 200 characters with a warning. */
  method KesideciKontrol(ham: SatirVerisi, env: Ortam, uyarilar: seq<Uyari>)
    returns (uyarilar2: seq<Uyari>, kesideci: Option<string>)
    ensures UyariEklendi(uyarilar2, uyarilar, ham, env, 4) && |uyarilar2| <= |uyarilar| + 1
    ensures uyarilar2 == uyarilar + Tek(KisaltmaUyarisi(ham.kesideci, 200, KesideciKisaltildi))
    ensures kesideci == Kisalt(ham.kesideci, 200)
  {
    uyarilar2, kesideci := uyarilar, Kisalt(ham.kesideci, 200);
    if Js.TruthyStr(ham.kesideci) && |Trim(ham.kesideci.value)| > 200 {
      uyarilar2 := uyarilar2 + [KesideciKisaltildi];
    }
    KesideciTek(ham, env);
    TekUyari(uyarilar2, uyarilar, ham, env, 4, KisaltmaUyarisi(ham.kesideci, 200, KesideciKisaltildi));
  }

  /** The warning about the counterparty, when there is one. */
  function CariUyarisi(ham: Option<string>, env: Ortam): Option<Uyari>
  {
    if Js.TruthyStr(ham) && !Js.TruthyInt(CariBul(Trim(ham.value), env))
    then Some(CariBulunamadi(Trim(ham.value))) else None
  }

  lemma CariUyarisiTek(ham: SatirVerisi, env: Ortam)
    ensures forall u :: UyariBeklenir(u, ham, env) && UyariSirasi(u) == 5 <==> Some(u) == CariUyarisi(ham.cariAdi, env)
  {
    forall u ensures UyariBeklenir(u, ham, env) && UyariSirasi(u) == 5 <==> Some(u) == CariUyarisi(ham.cariAdi, env) {
      if u.CariBulunamadi? {
        assert UyariSirasi(u) == 5;
      } else {
        assert UyariSirasi(u) != 5;
      }
    }
  }

  lemma TekUyari(u2: seq<Uyari>, u1: seq<Uyari>, ham: SatirVerisi, env: Ortam, k: nat, w: Option<Uyari>)
    requires forall u :: UyariBeklenir(u, ham, env) && UyariSirasi(u) == k <==> Some(u) == w
    requires u2 == u1 + (if w.Some? then [w.value] else [])
    ensures UyariEklendi(u2, u1, ham, env, k)
  {
  }

  /** The counterparty is looked up by its trimmed name; one not found is a
   *  warning and leaves the row without a counterparty id. */
  method CariKontrol(ham: SatirVerisi, env: Ortam, uyarilar: seq<Uyari>)
    returns (uyarilar2: seq<Uyari>, cariAdi: Option<string>, cariId: Option<int>)
    ensures UyariEklendi(uyarilar2, uyarilar, ham, env, 5) && |uyarilar2| <= |uyarilar| + 1
    ensures uyarilar2 == uyarilar + Tek(CariUyarisi(ham.cariAdi, env))
    ensures cariAdi == if Js.TruthyStr(ham.cariAdi) then Some(Trim(ham.cariAdi.value)) else ham.cariAdi
    ensures cariId == CariIdSonucu(ham.cariAdi, env)
  {
    uyarilar2, cariAdi, cariId := uyarilar, ham.cariAdi, None;
    if Js.TruthyStr(ham.cariAdi) {
      var ad := Trim(ham.cariAdi.value);
      cariAdi := Some(ad);
      var bulunan := CariBul(ad, env);
      if Js.TruthyInt(bulunan) {
        cariId := bulunan;
      } else {
        uyarilar2 := uyarilar2 + [CariBulunamadi(ad)];
      }
    }
    CariUyarisiTek(ham, env);
    TekUyari(uyarilar2, uyarilar, ham, env, 5, CariUyarisi(ham.cariAdi, env));
  }

  /** The notes are cut to 1000 characters with a warning. */
  method NotlarKontrol(ham: SatirVerisi, env: Ortam, uyarilar: seq<Uyari>)
    returns (uyarilar2: seq<Uyari>, notlar: Option<string>)
    ensures UyariEklendi(uyarilar2, uyarilar, ham, env, 6) && |uyarilar2| <= |uyarilar| + 1
    ensures uyarilar2 == uyarilar + Tek(KisaltmaUyarisi(ham.notlar, 1000, NotlarKisaltildi))
    ensures notlar == Kisalt(ham.notlar, 1000)
  {
    uyarilar2, notlar := uyarilar, Kisalt(ham.notlar, 1000);
    if Js.TruthyStr(ham.notlar) && |Trim(ham.notlar.value)| > 1000 {
      uyarilar2 := uyarilar2 + [NotlarKisaltildi];
    }
    NotlarTek(ham, env);
    TekUyari(uyarilar2, uyarilar, ham, env, 6, KisaltmaUyarisi(ham.notlar, 1000, NotlarKisaltildi));
  }

  lemma HataAdimi(h2: seq<Hata>, h1: seq<Hata>, ham: SatirVerisi, env: Ortam, k: nat)
    requires HatalarKadar(h1, ham, env, k) && HataEklendi(h2, h1, ham, env, k)
    ensures HatalarKadar(h2, ham, env, k + 1)
  {
  }

  lemma UyariAdimi(u2: seq<Uyari>, u1: seq<Uyari>, ham: SatirVerisi, env: Ortam, k: nat)
    requires UyarilarKadar(u1, ham, env, k) && UyariEklendi(u2, u1, ham, env, k)
    ensures UyarilarKadar(u2, ham, env, k + 1)
  {
  }

  /** After the last check, the errors are exactly the expected ones. */
  lemma HatalarTamam(hatalar: seq<Hata>, ham: SatirVerisi, env: Ortam)
    requires HatalarKadar(hatalar, ham, env, 6)
    ensures forall h :: h in hatalar <==> HataBeklenir(h, ham, env)
  {
    forall h ensures h in hatalar <==> HataBeklenir(h, ham, env) {
      assert HataSirasi(h) < 6;
    }
  }

  lemma UyarilarTamam(uyarilar: seq<Uyari>, ham: SatirVerisi, env: Ortam)
    requires UyarilarKadar(uyarilar, ham, env, 7)
    ensures forall u :: u in uyarilar <==> UyariBeklenir(u, ham, env)
  {
    forall u ensures u in uyarilar <==> UyariBeklenir(u, ham, env) {
      assert UyariSirasi(u) < 7;
    }
  }

  /** The checks' pushes, one after another, make the expected errors. */
  lemma HatalarSirayla(ham: SatirVerisi, env: Ortam, h1: seq<Hata>, h2: seq<Hata>, h3: seq<Hata>,
                       h4: seq<Hata>, h5: seq<Hata>, h6: seq<Hata>)
    requires h1 == [] + Tek(TipHatasi(ham)) && h2 == h1 + Tek(NoHatasi(ham))
    requires h3 == h2 + Tek(TutarHatasi(ham)) && h4 == h3 + Tek(VadeHatasi(ham, env))
    requires h5 == h4 + Tek(ParaHatasi(ham)) && h6 == h5 + Tek(KurHatasi(ham))
    ensures h6 == BeklenenHatalar(ham, env)
  {
    assert h1 == Tek(TipHatasi(ham));
  }

  /** The checks' pushes, one after another, make the expected warnings. */
  lemma UyarilarSirayla(ham: SatirVerisi, env: Ortam, u1: seq<Uyari>, u2: seq<Uyari>, u3: seq<Uyari>,
                        u4: seq<Uyari>, u5: seq<Uyari>, u6: seq<Uyari>, u7: seq<Uyari>)
    requires u1 == [] + Tek(MevcutUyarisi(ham, env)) && u2 == u1 + Tek(EvrakTarihiUyarisi(ham, env))
    requires u3 == u2 + Tek(DurumUyarisiOf(ham))
    requires u4 == u3 + Tek(KisaltmaUyarisi(ham.bankaAdi, 100, BankaAdiKisaltildi))
    requires u5 == u4 + Tek(KisaltmaUyarisi(ham.kesideci, 200, KesideciKisaltildi))
    requires u6 == u5 + Tek(CariUyarisi(ham.cariAdi, env))
    requires u7 == u6 + Tek(KisaltmaUyarisi(ham.notlar, 1000, NotlarKisaltildi))
    ensures u7 == BeklenenUyarilar(ham, env)
  {
    assert u1 == Tek(MevcutUyarisi(ham, env));
  }

  /** `validateRow`: the checks in order, pushing errors and warnings, and
   *  the verdict. */
  method ValidateRow(ham: SatirVerisi, env: Ortam) returns (s: Satir)
    ensures Dogrulanmis(s, ham, env)
    ensures |s.hatalar| <= 6 && |s.uyarilar| <= 7
  {
    var h0: seq<Hata>, u0: seq<Uyari> := [], [];
    var h1, evrakTipi := EvrakTipiKontrol(ham, env, h0);
    HataAdimi(h1, h0, ham, env, 0);
    var h2, evrakNo := EvrakNoKontrol(ham, env, h1);
    HataAdimi(h2, h1, ham, env, 1);
    var u1 := EvrakNoMevcutKontrol(ham, env, u0);
    UyariAdimi(u1, u0, ham, env, 0);
    var h3, tutar := TutarKontrol(ham, env, h2);
    HataAdimi(h3, h2, ham, env, 2);
    var h4, vade := VadeKontrol(ham, env, h3);
    HataAdimi(h4, h3, ham, env, 3);
    var h5, paraBirimi := ParaBirimiKontrol(ham, env, h4);
    HataAdimi(h5, h4, ham, env, 4);
    var h6, dovizKuru := DovizKuruKontrol(ham, env, paraBirimi, h5);
    HataAdimi(h6, h5, ham, env, 5);
    HatalarTamam(h6, ham, env);

    var u2, evrakTarihi := EvrakTarihiKontrol(ham, env, u1);
    UyariAdimi(u2, u1, ham, env, 1);
    var u3, durum := DurumKontrol(ham, env, u2);
    UyariAdimi(u3, u2, ham, env, 2);
    var u4, bankaAdi := BankaAdiKontrol(ham, env, u3);
    UyariAdimi(u4, u3, ham, env, 3);
    var u5, kesideci := KesideciKontrol(ham, env, u4);
    UyariAdimi(u5, u4, ham, env, 4);
    var u6, cariAdi, cariId := CariKontrol(ham, env, u5);
    UyariAdimi(u6, u5, ham, env, 5);
    var u7, notlar := NotlarKontrol(ham, env, u6);
    UyariAdimi(u7, u6, ham, env, 6);
    UyarilarTamam(u7, ham, env);

    HatalarSirayla(ham, env, h1, h2, h3, h4, h5, h6);
    UyarilarSirayla(ham, env, u1, u2, u3, u4, u5, u6, u7);
    s := Satir(ham.satir, evrakTipi, evrakNo, tutar, paraBirimi, dovizKuru, evrakTarihi, vade,
               bankaAdi, kesideci, cariAdi, cariId, durum, notlar, h6, u7, h6 == []);
  }

  /** The conditions under which `validateRow` records no error. */
  predicate GecerliOlur(ham: SatirVerisi, env: Ortam)
  {
    && Js.TruthyStr(ham.evrakTipi) && KucukNormal(ham.evrakTipi.value) in EvrakTipleri
    && Js.TruthyStr(ham.evrakNo) && |Trim(ham.evrakNo.value)| <= 50
    && ParseAmount(ham.tutar).Some?
    && ParseDate(ham.vadeTarihi, env).Some?
    && ParaSonucu(ham.paraBirimi) in Krediler.ParaBirimleri
    && (ParaSonucu(ham.paraBirimi) == "TRY" || ParseAmount(ham.dovizKuru).Some?)
  }

  /** A validated row is valid exactly when its type is one of the two, its
   *  number is given and short enough, its amount and due date are read,
   *  its currency is known and a foreign currency comes with a rate. */
  lemma GecerliKosullari(s: Satir, ham: SatirVerisi, env: Ortam)
    requires Dogrulanmis(s, ham, env)
    ensures s.gecerli <==> GecerliOlur(ham, env)
  {
    if GecerliOlur(ham, env) {
      HataYokGecerli(s.hatalar, ham, env);
    } else {
      var h := BeklenenHata(ham, env);
      assert h in s.hatalar;
    }
  }

  /** A failed condition names an error that must be recorded. */
  lemma BeklenenHata(ham: SatirVerisi, env: Ortam) returns (h: Hata)
    requires !GecerliOlur(ham, env)
    ensures HataBeklenir(h, ham, env)
  {
    var p := ParaSonucu(ham.paraBirimi);
    if !Js.TruthyStr(ham.evrakTipi) {
      h := EvrakTipiZorunlu;
    } else if KucukNormal(ham.evrakTipi.value) !in EvrakTipleri {
      h := GecersizEvrakTipi(ham.evrakTipi.value);
    } else if !Js.TruthyStr(ham.evrakNo) {
      h := EvrakNoZorunlu;
    } else if |Trim(ham.evrakNo.value)| > 50 {
      h := EvrakNoCokUzun;
    } else if ParseAmount(ham.tutar).None? {
      h := TutarGecersiz;
    } else if ParseDate(ham.vadeTarihi, env).None? {
      h := VadeTarihiGecersiz;
    } else if p !in Krediler.ParaBirimleri {
      h := GecersizParaBirimi(ham.paraBirimi.value);
    } else {
      h := DovizKuruZorunlu(p);
    }
  }

  /** When every condition holds no error is expected. */
  lemma HataYokGecerli(hatalar: seq<Hata>, ham: SatirVerisi, env: Ortam)
    requires forall h :: h in hatalar ==> HataBeklenir(h, ham, env)
    requires GecerliOlur(ham, env)
    ensures hatalar == []
  {
    if hatalar != [] {
      var h := hatalar[0];
      assert HataBeklenir(h, ham, env);
      match h
      case EvrakTipiZorunlu =>
      case GecersizEvrakTipi(_) =>
      case EvrakNoZorunlu =>
      case EvrakNoCokUzun =>
      case TutarGecersiz =>
      case VadeTarihiGecersiz =>
      case GecersizParaBirimi(d) =>
        ParaKoduNormal(ParaSonucu(ham.paraBirimi));
      case DovizKuruZorunlu(_) =>
    }
  }

  /** A known currency code is its own upper-cased, trimmed form. */
  lemma ParaKoduNormal(v: string)
    requires v in Krediler.ParaBirimleri
    ensures BuyukNormal(v) == v
  {
    assert |v| == 3 && forall i :: 0 <= i < |v| ==> 'A' <= v[i] <= 'Z';
    BuyukHarfliNormal(v);
  }

  /** Capital letters alone are their own upper-cased, trimmed form. */
  lemma BuyukHarfliNormal(v: string)
    requires forall i :: 0 <= i < |v| ==> 'A' <= v[i] <= 'Z'
    ensures BuyukNormal(v) == v
  {
    assert ToUpper(v) == v;
    TrimOfUntrimmed(v);
  }

  /** Warnings never decide validity: two rows that differ only in the
   *  issue date, status, bank, drawer, counterparty and notes are both valid
   *  or both invalid. */
  lemma UyarilarGecerliligiEtkilemez(s1: Satir, ham1: SatirVerisi, s2: Satir, ham2: SatirVerisi, env: Ortam)
    requires Dogrulanmis(s1, ham1, env) && Dogrulanmis(s2, ham2, env)
    requires ham1.evrakTipi == ham2.evrakTipi && ham1.evrakNo == ham2.evrakNo && ham1.tutar == ham2.tutar
    requires ham1.vadeTarihi == ham2.vadeTarihi && ham1.paraBirimi == ham2.paraBirimi
    requires ham1.dovizKuru == ham2.dovizKuru
    ensures s1.gecerli == s2.gecerli
  {
    GecerliKosullari(s1, ham1, env);
    GecerliKosullari(s2, ham2, env);
  }

  /** The status values the import template offers in its drop-down. */
  const SablonDurumlari: seq<string> := ["portfoy", "bankada", "tahsilde", "odendi", "protestolu", "iade"]

  predicate KucukHarfler(s: string)
  {
    forall i :: 0 <= i < |s| ==> 'a' <= s[i] <= 'z'
  }

  /** A status written in lower-case letters is read as written. */
  lemma DurumOlduguGibi(d: string)
    requires d != [] && KucukHarfler(d)
    ensures KucukNormal(d) == d
    ensures DurumSonucu(Some(d)) == if d in Evraklar.GecerliDurumlar then d else "portfoy"
  {
    assert ToLower(d) == d;
    TrimOfUntrimmed(d);
  }

  lemma SablonDurumuKucuk(d: string)
    requires d in SablonDurumlari
    ensures d != [] && KucukHarfler(d)
  {
  }

  /** Four of the six status values the template offers are not statuses
   *  the parser knows. */
  lemma SablonDurumlariBilinmez()
    ensures forall i :: 0 <= i < 2 ==> SablonDurumlari[i] in Evraklar.GecerliDurumlar
    ensures forall i :: 2 <= i < |SablonDurumlari| ==> SablonDurumlari[i] !in Evraklar.GecerliDurumlar
  {
  }

  /** The template's values are lower-case words; its known values are kept
   *  and its unknown ones are read as `portfoy`. */
  lemma SablonDurumlariDusurulur()
    ensures forall d :: d in SablonDurumlari ==> d != [] && KucukHarfler(d)
    ensures forall d :: d in SablonDurumlari ==>
              DurumSonucu(Some(d)) == if d in Evraklar.GecerliDurumlar then d else "portfoy"
  {
    forall d | d in SablonDurumlari
      ensures d != [] && KucukHarfler(d)
      ensures DurumSonucu(Some(d)) == if d in Evraklar.GecerliDurumlar then d else "portfoy"
    {
      SablonDurumuKucuk(d);
      DurumOlduguGibi(d);
    }
  }

  /** A row whose status is written in lower-case letters and is not a
   *  known one, as four of the template's values are, gets the warning that
   *  its status was replaced. */
  lemma KucukDurumUyarisi(d: string, ham: SatirVerisi, env: Ortam)
    requires d != [] && KucukHarfler(d) && d !in Evraklar.GecerliDurumlar
    requires ham.durum.Some? && d == ham.durum.value
    ensures UyariBeklenir(DurumDuzeltildi(d), ham, env)
  {
    DurumOlduguGibi(d);
    DurumUyarisi(d, ham, env);
  }

  /** A status that is not known after normalisation draws a warning. */
  lemma DurumUyarisi(d: string, ham: SatirVerisi, env: Ortam)
    requires Js.TruthyStr(ham.durum) && d == ham.durum.value && KucukNormal(d) !in Evraklar.GecerliDurumlar
    ensures UyariBeklenir(DurumDuzeltildi(d), ham, env)
  {
  }
}
