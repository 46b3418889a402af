/** `parseExcelFile` in `backend/src/utils/excelParser.js`: the walk over
 *  the first sheet's rows, with the header row read first, blank rows
 *  skipped, every other row validated, and the summary of the result. */
module ExcelParse {
  import opened Wrappers
  import opened ExcelParser
  import opened ExcelRows

  /** A row as the sheet hands it over: its number and its cells. */
  datatype SheetRow = SheetRow(number: nat, cells: seq<CellValue>)

  /** What reading the workbook gives: a failure with its message, or the
   *  first sheet when there is one. */
  datatype Kitap = Okunamadi(neden: string) | Okundu(sayfa: Option<seq<SheetRow>>)

  datatype Ozet = Ozet(toplam: nat, gecerli: nat, hatali: nat, uyarili: nat)

  datatype ParseSonucu = Ayristi(data: seq<Satir>, ozet: Ozet) | AyristirmaHatasi(mesaj: string)

  /** The sheet walks its rows in increasing order, numbered from 1. */
  predicate SiraliSatirlar(rows: seq<SheetRow>)
  {
    && (forall i :: 0 <= i < |rows| ==> rows[i].number >= 1)
    && (forall i, j :: 0 <= i < j < |rows| ==> rows[i].number < rows[j].number)
  }

  /** Whether the sheet has a header row. */
  predicate BaslikVar(rows: seq<SheetRow>)
  {
    |rows| > 0 && rows[0].number == 1
  }

  /** The column mapping of the sheet: the header row's, or none at all when
   *  there is no first row. */
  function BaslikHaritasi(rows: seq<SheetRow>): map<nat, Alan>
  {
    if BaslikVar(rows) then Basliklar(rows[0].cells) else map[]
  }

  /** A row that carries data: not the header and not blank. */
  predicate VeriSatiri(r: SheetRow)
  {
    r.number != 1 && !BosSatir(r.cells)
  }

  /** The rows `p` keeps, in sheet order. */
  function Suz(rows: seq<SheetRow>, p: SheetRow -> bool): (r: seq<SheetRow>)
    ensures |r| <= |rows|
    ensures forall x :: x in r <==> x in rows && p(x)
  {
    if rows == [] then []
    else
      var son := rows[|rows| - 1];
      Suz(rows[..|rows| - 1], p) + (if p(son) then [son] else [])
  }

  /** Keeping some of the rows keeps their order. */
  lemma {:induction false} SuzSirali(rows: seq<SheetRow>, p: SheetRow -> bool)
    requires SiraliSatirlar(rows)
    ensures SiraliSatirlar(Suz(rows, p))
  {
    if rows != [] {
      var onceki := rows[..|rows| - 1];
      assert SiraliSatirlar(onceki);
      SuzSirali(onceki, p);
      var v := Suz(onceki, p);
      var son := rows[|rows| - 1];
      var r := Suz(rows, p);
      assert r == v + (if p(son) then [son] else []);
      forall i | 0 <= i < |r| ensures r[i].number >= 1 {
        assert r[i] in rows;
      }
      forall i, j | 0 <= i < j < |r| ensures r[i].number < r[j].number {
        assert r[i] == v[i];
        if j == |v| {
          assert v[i] in onceki;
          var a :| 0 <= a < |onceki| && onceki[a] == v[i];
          assert rows[a] == v[i];
        } else {
          assert r[j] == v[j];
        }
      }
    }
  }

  /** The rows that are validated, in sheet order. */
  function VeriSatirlari(rows: seq<SheetRow>): (r: seq<SheetRow>)
    ensures |r| <= |rows|
    ensures forall x :: x in r <==> x in rows && VeriSatiri(x)
  {
    Suz(rows, VeriSatiri)
  }

  /** The data rows keep the sheet's order. */
  lemma VeriSatirlariSirali(rows: seq<SheetRow>)
    requires SiraliSatirlar(rows)
    ensures SiraliSatirlar(VeriSatirlari(rows))
  {
    SuzSirali(rows, VeriSatiri);
  }

  lemma VeriSatirlariAdimi(rows: seq<SheetRow>, i: nat)
    requires i < |rows|
    ensures VeriSatirlari(rows[..i + 1]) == VeriSatirlari(rows[..i]) + (if VeriSatiri(rows[i]) then [rows[i]] else [])
  {
    assert rows[..i + 1][..i] == rows[..i];
  }

  /** Each row of `data` is the validation of the matching data row under
   *  the column mapping `m`. */
  ghost predicate HepsiDogrulanmis(data: seq<Satir>, veri: seq<SheetRow>, m: map<nat, Alan>, env: Ortam, o: TutarOkumasi)
  {
    && |data| == |veri|
    && forall k :: 0 <= k < |data| ==> Dogrulanmis(data[k], SatirVerisiOf(veri[k].number, veri[k].cells, m, o), env)
  }

  lemma HepsiDogrulanmisEkle(data: seq<Satir>, veri: seq<SheetRow>, m: map<nat, Alan>, env: Ortam, o: TutarOkumasi,
                             s: Satir, v: SheetRow)
    requires HepsiDogrulanmis(data, veri, m, env, o)
    requires Dogrulanmis(s, SatirVerisiOf(v.number, v.cells, m, o), env)
    ensures HepsiDogrulanmis(data + [s], veri + [v], m, env, o)
  {
    forall k | 0 <= k < |data| + 1
      ensures Dogrulanmis((data + [s])[k], SatirVerisiOf((veri + [v])[k].number, (veri + [v])[k].cells, m, o), env)
    {
      if k < |data| {
        assert (data + [s])[k] == data[k] && (veri + [v])[k] == veri[k];
      }
    }
  }

  function GecerliSayisi(data: seq<Satir>): nat
  {
    if data == [] then 0 else GecerliSayisi(data[..|data| - 1]) + (if data[|data| - 1].gecerli then 1 else 0)
  }

  function HataliSayisi(data: seq<Satir>): nat
  {
    if data == [] then 0 else HataliSayisi(data[..|data| - 1]) + (if data[|data| - 1].gecerli then 0 else 1)
  }

  function UyariliSayisi(data: seq<Satir>): nat
  {
    if data == [] then 0 else UyariliSayisi(data[..|data| - 1]) + (if |data[|data| - 1].uyarilar| > 0 then 1 else 0)
  }

  /** The summary: how many rows, how many valid, invalid and warned. */
  function Ozetle(data: seq<Satir>): Ozet
  {
    Ozet(|data|, GecerliSayisi(data), HataliSayisi(data), UyariliSayisi(data))
  }

  /** Every row is either valid or invalid, and at most every row has a
   *  warning. */
  lemma {:induction false} OzetDengesi(data: seq<Satir>)
    ensures Ozetle(data).gecerli + Ozetle(data).hatali == Ozetle(data).toplam
    ensures Ozetle(data).uyarili <= Ozetle(data).toplam
  {
    if data != [] {
      OzetDengesi(data[..|data| - 1]);
    }
  }

  /** All rows valid: nothing is counted as invalid. */
  lemma {:induction false} OzetHepsiGecerli(data: seq<Satir>)
    requires forall k :: 0 <= k < |data| ==> data[k].gecerli
    ensures Ozetle(data).gecerli == |data| && Ozetle(data).hatali == 0
  {
    if data != [] {
      OzetHepsiGecerli(data[..|data| - 1]);
    }
  }

  const SayfaYok := "Excel dosyasında sayfa bulunamadı"
  const VeriYok := "Excel dosyasında veri bulunamadı (sadece başlık satırı var)"

  /** The message of a failed read. */
  function OkumaHatasi(neden: string): string
  {
    "Excel dosyası okunamadı: " + neden
  }

  /** What `parseExcelFile` yields for a sheet: the missing-columns error
   *  when the header lacks a required column, the no-data error when no row
   *  carries data, and otherwise every data row validated in order, with
   *  the summary of the rows, amount cells read as `o` says. */
  ghost predicate SayfaSonucu(r: ParseSonucu, rows: seq<SheetRow>, env: Ortam, o: TutarOkumasi)
  {
    var m := BaslikHaritasi(rows);
    var veri := VeriSatirlari(rows);
    if BaslikVar(rows) && Eksik(m) != [] then r == AyristirmaHatasi(EksikMesaji(Eksik(m)))
    else if veri == [] then r == AyristirmaHatasi(VeriYok)
    else
      && r.Ayristi?
      && HepsiDogrulanmis(r.data, veri, m, env, o)
      && r.ozet == Ozetle(r.data)
  }

  /** `parseExcelFile`, with the amount reading a parameter: the code as
   *  written is `YazildigiGibi`, under which a number cell such as 35.5 is
   *  read as 355; `Amaclanan` is the corrected reading. */
  method ParseExcelFile(kitap: Kitap, env: Ortam, o: TutarOkumasi) returns (r: ParseSonucu)
    requires kitap.Okundu? && kitap.sayfa.Some? ==> SiraliSatirlar(kitap.sayfa.value)
    ensures kitap.Okunamadi? ==> r == AyristirmaHatasi(OkumaHatasi(kitap.neden))
    ensures kitap.Okundu? && kitap.sayfa.None? ==> r == AyristirmaHatasi(SayfaYok)
    ensures kitap.Okundu? && kitap.sayfa.Some? ==> SayfaSonucu(r, kitap.sayfa.value, env, o)
  {
    if kitap.Okunamadi? {
      return AyristirmaHatasi(OkumaHatasi(kitap.neden));
    }
    if kitap.sayfa.None? {
      return AyristirmaHatasi(SayfaYok);
    }
    var rows := kitap.sayfa.value;
    var m: map<nat, Alan> := map[];
    var data: seq<Satir> := [];
    var i := 0;
    while i < |rows|
      invariant 0 <= i <= |rows|
      invariant m == if i > 0 then BaslikHaritasi(rows) else map[]
      invariant i > 0 && BaslikVar(rows) ==> Eksik(m) == []
      invariant HepsiDogrulanmis(data, VeriSatirlari(rows[..i]), BaslikHaritasi(rows), env, o)
    {
      var row := rows[i];
      VeriSatirlariAdimi(rows, i);
      if row.number == 1 {
        assert i == 0 && !VeriSatiri(row);
        assert VeriSatirlari(rows[..i + 1]) == VeriSatirlari(rows[..i]);
        m := HeaderMapping(row.cells);
        var eksik := Eksik(m);
        if eksik != [] {
          return AyristirmaHatasi(EksikMesaji(eksik));
        }
      } else {
        var bos := IsEmptyRow(row.cells);
        if !bos {
          assert VeriSatirlari(rows[..i + 1]) == VeriSatirlari(rows[..i]) + [row];
          var ham := RowData(row.number, row.cells, m, o);
          var s := ValidateRow(ham, env);
          HepsiDogrulanmisEkle(data, VeriSatirlari(rows[..i]), m, env, o, s, row);
          data := data + [s];
        } else {
          assert VeriSatirlari(rows[..i + 1]) == VeriSatirlari(rows[..i]);
        }
      }
      i := i + 1;
    }
    assert rows[..i] == rows;
    if data == [] {
      return AyristirmaHatasi(VeriYok);
    }
    r := Ayristi(data, Ozetle(data));
  }
}
