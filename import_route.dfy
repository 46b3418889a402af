/** `POST /evraklar/import` in `backend/src/routes/import.js`: the rows the
 *  client confirmed are filtered to the valid ones and created one by one,
 *  a failing row not stopping the rest. */
module ImportRoute {
  import opened Wrappers
  import opened Js
  import Evraklar

  /** A row of the request body. `gecerli` is `None` when the key is absent
   *  or not a boolean; `satir` is the sheet row number the client echoes. */
  datatype GelenSatir = GelenSatir(
    satir: Option<int>,
    gecerli: Option<bool>,
    evrakTipi: string,
    evrakNo: string,
    tutar: int,
    paraBirimi: Option<string>,
    dovizKuru: Option<int>,
    evrakTarihi: Option<string>,
    vadeTarihi: string,
    bankaAdi: Option<string>,
    kesideci: Option<string>,
    cariId: Option<int>,
    durum: Option<string>,
    notlar: Option<string>)

  /** How `Evraklar.create` fails for a row: it returns nothing, or it throws
   *  with a message (possibly empty). The database is not part of this
   *  model, so the failures come in as a parameter. */
  datatype Ariza = BosDondu | Istisna(mesaj: string)

  /** A failure as the response lists it. */
  datatype ImportHatasi = ImportHatasi(satir: Option<int>, evrakNo: string, hata: string)

  datatype ImportYaniti =
    | Reddedildi(status: int, error: string)
    | Tamamlandi(success: bool, basarili: nat, basarisiz: nat, hatalar: seq<ImportHatasi>)

  const SatirYok := "Import edilecek satır bulunamadı"
  const GecerliSatirYok := "Geçerli satır bulunamadı. Lütfen hatalı satırları düzeltin."

  /** Only rows whose `gecerli` is exactly `true` are imported. */
  predicate Gecerli(s: GelenSatir)
  {
    s.gecerli == Some(true)
  }

  function GecerliSatirlar(xs: seq<GelenSatir>): (r: seq<GelenSatir>)
    ensures |r| <= |xs|
    ensures forall s :: s in r <==> s in xs && Gecerli(s)
  {
    if xs == [] then []
    else GecerliSatirlar(xs[..|xs| - 1]) + (if Gecerli(xs[|xs| - 1]) then [xs[|xs| - 1]] else [])
  }

  /** A list of rows that are all marked valid passes the filter whole. */
  lemma {:induction false} AllKept(ys: seq<GelenSatir>)
    requires forall k :: 0 <= k < |ys| ==> Gecerli(ys[k])
    ensures GecerliSatirlar(ys) == ys
  {
    if ys != [] {
      var n := |ys| - 1;
      AllKept(ys[..n]);
      assert ys == ys[..n] + [ys[n]];
    }
  }

  /** The fields handed to `create`: a falsy currency becomes TRY, a falsy
   *  status `portfoy`, the other optional fields null; the bank id is not
   *  sent at all. */
  function ImportVerisi(s: GelenSatir): (d: Evraklar.EvrakData)
    ensures d.durum.Some? && d.paraBirimi.Some?
  {
    Evraklar.EvrakData(s.evrakTipi, s.evrakNo, s.tutar, s.vadeTarihi, OrNullStr(s.evrakTarihi),
                       OrNullStr(s.bankaAdi), None, OrNullStr(s.kesideci), OrNullInt(s.cariId),
                       Some(OrStr(s.durum, "portfoy")), OrNullStr(s.notlar),
                       Some(OrStr(s.paraBirimi, "TRY")), OrNullInt(s.dovizKuru))
  }

  /** What an imported row becomes in the table: its own values where it
   *  gives them, TRY, `portfoy` and null where it does not. */
  lemma ImportVarsayilanlari(id: int, s: GelenSatir, userId: int)
    ensures var e := Evraklar.NewEvrak(id, ImportVerisi(s), userId);
      && e.id == id && e.evrakNo == s.evrakNo && e.tutar == s.tutar && e.vadeTarihi == s.vadeTarihi
      && e.paraBirimi == (if TruthyStr(s.paraBirimi) then s.paraBirimi.value else "TRY")
      && e.durum == (if TruthyStr(s.durum) then s.durum.value else "portfoy")
      && e.bankaId.None?
      && (e.cariId.Some? <==> TruthyInt(s.cariId))
      && (e.dovizKuru.Some? <==> TruthyInt(s.dovizKuru))
      && (e.notlar.Some? <==> TruthyStr(s.notlar))
      && (e.evrakTarihi.Some? <==> TruthyStr(s.evrakTarihi))
  {
  }

  /** The response entry for a failed row. */
  function HataKaydi(s: GelenSatir, a: Ariza): (h: ImportHatasi)
    ensures h.satir == s.satir && h.evrakNo == s.evrakNo && h.hata != ""
  {
    ImportHatasi(s.satir, s.evrakNo,
                 match a
                 case BosDondu => "Evrak oluşturulamadı"
                 case Istisna(m) => if m != "" then m else "Bilinmeyen hata")
  }

  /** The failures of a run, in row order. */
  function Basarisizlar(xs: seq<GelenSatir>, ariza: Evraklar.EvrakData -> Option<Ariza>): seq<ImportHatasi>
  {
    if xs == [] then []
    else
      var s := xs[|xs| - 1];
      Basarisizlar(xs[..|xs| - 1], ariza)
        + (if ariza(ImportVerisi(s)).Some? then [HataKaydi(s, ariza(ImportVerisi(s)).value)] else [])
  }

  /** The rows that are created, in row order. */
  function Olusanlar(xs: seq<GelenSatir>, ariza: Evraklar.EvrakData -> Option<Ariza>): seq<GelenSatir>
  {
    if xs == [] then []
    else
      var s := xs[|xs| - 1];
      Olusanlar(xs[..|xs| - 1], ariza) + (if ariza(ImportVerisi(s)).None? then [s] else [])
  }

  lemma SonEklenen(xs: seq<GelenSatir>, i: nat, ariza: Evraklar.EvrakData -> Option<Ariza>)
    requires i < |xs|
    ensures var s := xs[i];
      && Olusanlar(xs[..i + 1], ariza) == Olusanlar(xs[..i], ariza) + (if ariza(ImportVerisi(s)).None? then [s] else [])
      && Basarisizlar(xs[..i + 1], ariza) == Basarisizlar(xs[..i], ariza)
           + (if ariza(ImportVerisi(s)).Some? then [HataKaydi(s, ariza(ImportVerisi(s)).value)] else [])
  {
    assert xs[..i + 1][..i] == xs[..i];
  }

  /** Every valid row is either created or listed as a failure. */
  lemma {:induction false} BasariliArtiBasarisiz(xs: seq<GelenSatir>, ariza: Evraklar.EvrakData -> Option<Ariza>)
    ensures |Olusanlar(xs, ariza)| + |Basarisizlar(xs, ariza)| == |xs|
  {
    if xs != [] {
      BasariliArtiBasarisiz(xs[..|xs| - 1], ariza);
    }
  }

  /** The ids of a list of rows. */
  function Kimlikler(es: seq<Evraklar.Evrak>): (r: set<int>)
    ensures forall k :: 0 <= k < |es| ==> es[k].id in r
  {
    if es == [] then {} else Kimlikler(es[..|es| - 1]) + {es[|es| - 1].id}
  }

  /** A completed run over the valid rows `gecerli`: one success per row
   *  created, the failures listed in order, and success meaning at least
   *  one row was created. */
  predicate Tamamlanan(r: ImportYaniti, gecerli: seq<GelenSatir>, olusan: seq<Evraklar.Evrak>,
                       ariza: Evraklar.EvrakData -> Option<Ariza>)
  {
    && r.Tamamlandi?
    && gecerli != []
    && r.basarili == |olusan|
    && r.hatalar == Basarisizlar(gecerli, ariza)
    && r.basarisiz == |r.hatalar|
    && (r.success <==> r.basarili > 0)
  }

  /** One row of the loop: created, or the failure recorded. */
  method SatirAktar(store: Evraklar.EvrakStore, s: GelenSatir,
                    ariza: Evraklar.EvrakData -> Option<Ariza>, userId: int)
    returns (e: Option<Evraklar.Evrak>, h: Option<ImportHatasi>)
    requires store.Valid()
    modifies store
    ensures store.Valid()
    ensures e.Some? <==> ariza(ImportVerisi(s)).None?
    ensures e.Some? ==> && e.value == Evraklar.NewEvrak(e.value.id, ImportVerisi(s), userId)
                        && e.value.id !in old(store.evraklar)
                        && store.evraklar == old(store.evraklar)[e.value.id := e.value]
    ensures e.None? ==> store.evraklar == old(store.evraklar)
                        && h == Some(HataKaydi(s, ariza(ImportVerisi(s)).value))
  {
    var d := ImportVerisi(s);
    var a := ariza(d);
    if a.None? {
      var yeni := store.Create(d, userId);
      e, h := Some(yeni), None;
    } else {
      e, h := None, Some(HataKaydi(s, a.value));
    }
  }

  /** `olusan` are the rows created for `ok`, in order, each with a fresh id
   *  and the import defaults, and the table is the old one plus those. */
  ghost predicate Aktarilmis(olusan: seq<Evraklar.Evrak>, ok: seq<GelenSatir>,
                             eski: map<int, Evraklar.Evrak>, simdi: map<int, Evraklar.Evrak>, userId: int)
  {
    && |olusan| == |ok|
    && (forall k :: 0 <= k < |olusan| ==>
          && olusan[k].id !in eski && olusan[k].id in simdi && simdi[olusan[k].id] == olusan[k]
          && olusan[k] == Evraklar.NewEvrak(olusan[k].id, ImportVerisi(ok[k]), userId))
    && simdi.Keys == eski.Keys + Kimlikler(olusan)
    && (forall id :: id in eski ==> simdi[id] == eski[id])
  }

  lemma AktarilmisEkle(olusan: seq<Evraklar.Evrak>, ok: seq<GelenSatir>, eski: map<int, Evraklar.Evrak>,
                       simdi: map<int, Evraklar.Evrak>, userId: int, e: Evraklar.Evrak, s: GelenSatir)
    requires Aktarilmis(olusan, ok, eski, simdi, userId)
    requires e.id !in simdi && e == Evraklar.NewEvrak(e.id, ImportVerisi(s), userId)
    ensures Aktarilmis(olusan + [e], ok + [s], eski, simdi[e.id := e], userId)
  {
    assert (olusan + [e])[..|olusan|] == olusan;
  }

  /** The loop over the valid rows: each is created in turn, and a failure
   *  is listed and does not stop the rest. */
  method SatirlariIsle(store: Evraklar.EvrakStore, gecerli: seq<GelenSatir>,
                       ariza: Evraklar.EvrakData -> Option<Ariza>, userId: int)
    returns (basarili: nat, hatalar: seq<ImportHatasi>, olusan: seq<Evraklar.Evrak>)
    requires store.Valid()
    modifies store
    ensures store.Valid()
    ensures hatalar == Basarisizlar(gecerli, ariza)
    ensures basarili == |olusan|
    ensures Aktarilmis(olusan, Olusanlar(gecerli, ariza), old(store.evraklar), store.evraklar, userId)
  {
    basarili, hatalar, olusan := 0, [], [];
    ghost var ok: seq<GelenSatir> := [];
    var i := 0;
    while i < |gecerli|
      invariant 0 <= i <= |gecerli| && store.Valid()
      invariant ok == Olusanlar(gecerli[..i], ariza)
      invariant hatalar == Basarisizlar(gecerli[..i], ariza)
      invariant basarili == |olusan|
      invariant Aktarilmis(olusan, ok, old(store.evraklar), store.evraklar, userId)
    {
      var s := gecerli[i];
      SonEklenen(gecerli, i, ariza);
      ghost var onceki := store.evraklar;
      var e, h := SatirAktar(store, s, ariza, userId);
      if e.Some? {
        AktarilmisEkle(olusan, ok, old(store.evraklar), onceki, userId, e.value, s);
        olusan := olusan + [e.value];
        ok := ok + [s];
        basarili := basarili + 1;
      } else {
        hatalar := hatalar + [h.value];
      }
      i := i + 1;
    }
    assert gecerli[..i] == gecerli;
  }

  /** The import: 400 without rows or without a valid row; otherwise each
   *  valid row is created in order, successes are counted, failures listed,
   *  and the run succeeds when at least one row was created. */
  method Import(store: Evraklar.EvrakStore, satirlar: Option<seq<GelenSatir>>,
                ariza: Evraklar.EvrakData -> Option<Ariza>, userId: int)
    returns (r: ImportYaniti, olusan: seq<Evraklar.Evrak>)
    requires store.Valid()
    modifies store
    ensures store.Valid()
    ensures satirlar.None? || satirlar == Some([]) ==> r == Reddedildi(400, SatirYok)
    ensures satirlar.Some? && satirlar.value != [] && GecerliSatirlar(satirlar.value) == [] ==>
              r == Reddedildi(400, GecerliSatirYok)
    ensures r.Reddedildi? ==> olusan == [] && store.evraklar == old(store.evraklar)
    ensures r.Tamamlandi? ==> satirlar.Some? && Tamamlanan(r, GecerliSatirlar(satirlar.value), olusan, ariza)
    ensures r.Tamamlandi? ==>
              Aktarilmis(olusan, Olusanlar(GecerliSatirlar(satirlar.value), ariza), old(store.evraklar), store.evraklar, userId)
  {
    olusan := [];
    if satirlar.None? || |satirlar.value| == 0 {
      return Reddedildi(400, SatirYok), olusan;
    }
    var gecerli := GecerliSatirlar(satirlar.value);
    if |gecerli| == 0 {
      return Reddedildi(400, GecerliSatirYok), olusan;
    }
    var basarili, hatalar;
    basarili, hatalar, olusan := SatirlariIsle(store, gecerli, ariza, userId);
    r := Tamamlandi(basarili > 0, basarili, |hatalar|, hatalar);
  }
}
