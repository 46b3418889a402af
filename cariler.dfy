/** `backend/src/models/cariler.js`: the customer/supplier ("cari") table.
 *  A cari that documents still point to cannot be deleted, and the read
 *  operations answer null for a missing id. */
module Cariler {
  import opened Wrappers
  import opened Strings
  import opened Js
  import Pagination

  /** The fields a create or update request carries; the optional ones may
   *  be absent or empty. */
  datatype CariData = CariData(
    adSoyad: string, tip: string,
    telefon: Option<string>, email: Option<string>, adres: Option<string>,
    vergiNo: Option<string>, notlar: Option<string>)

  /** A row of `cariler`; `updatedAt` is the `CURRENT_TIMESTAMP` of the last
   *  write, passed in as a number. */
  datatype Cari = Cari(
    id: nat, adSoyad: string, tip: string,
    telefon: Option<string>, email: Option<string>, adres: Option<string>,
    vergiNo: Option<string>, notlar: Option<string>, updatedAt: int)

  /** A row of `evraklar` as the cari queries see it: the cari it points
   *  to, its status and its amount in kuruş. */
  datatype EvrakSatiri = EvrakSatiri(cariId: Option<nat>, durum: string, tutar: int)

  /** The row `create` and `update` write: the two required fields as given,
   *  each optional field through `|| null`. */
  function Kayit(id: nat, d: CariData, now: int): (c: Cari)
    ensures c.id == id && c.adSoyad == d.adSoyad && c.tip == d.tip && c.updatedAt == now
    ensures c.telefon.None? <==> !TruthyStr(d.telefon)
    ensures c.email.None? <==> !TruthyStr(d.email)
    ensures c.adres.None? <==> !TruthyStr(d.adres)
    ensures c.vergiNo.None? <==> !TruthyStr(d.vergiNo)
    ensures c.notlar.None? <==> !TruthyStr(d.notlar)
    ensures c.telefon.Some? ==> c.telefon == d.telefon
    ensures c.email.Some? ==> c.email == d.email
    ensures c.adres.Some? ==> c.adres == d.adres
    ensures c.vergiNo.Some? ==> c.vergiNo == d.vergiNo
    ensures c.notlar.Some? ==> c.notlar == d.notlar
  {
    Cari(id, d.adSoyad, d.tip, OrNullStr(d.telefon), OrNullStr(d.email), OrNullStr(d.adres),
         OrNullStr(d.vergiNo), OrNullStr(d.notlar), now)
  }

  // ------------------------------------------------- linked documents

  /** `WHERE cari_id = ?`: the documents of one cari, in table order. */
  function Bagliler(evraklar: seq<EvrakSatiri>, id: nat): (r: seq<EvrakSatiri>)
    ensures |r| <= |evraklar|
    ensures forall e :: e in r <==> e in evraklar && e.cariId == Some(id)
  {
    if evraklar == [] then []
    else
      var son := evraklar[|evraklar| - 1];
      var onceki := Bagliler(evraklar[..|evraklar| - 1], id);
      assert forall e :: e in evraklar <==> e in evraklar[..|evraklar| - 1] || e == son;
      if son.cariId == Some(id) then onceki + [son] else onceki
  }

  /** `COUNT(CASE WHEN durum = ? THEN 1 END)`. */
  function Adet(rs: seq<EvrakSatiri>, durum: string): nat
  {
    if rs == [] then 0
    else Adet(rs[..|rs| - 1], durum) + (if rs[|rs| - 1].durum == durum then 1 else 0)
  }

  /** `COALESCE(SUM(CASE WHEN durum = ? THEN tutar END), 0)`. */
  function Tutar(rs: seq<EvrakSatiri>, durum: string): int
  {
    if rs == [] then 0
    else Tutar(rs[..|rs| - 1], durum) + (if rs[|rs| - 1].durum == durum then rs[|rs| - 1].tutar else 0)
  }

  /** `COALESCE(SUM(tutar), 0)`. */
  function ToplamTutar(rs: seq<EvrakSatiri>): int
  {
    if rs == [] then 0 else ToplamTutar(rs[..|rs| - 1]) + rs[|rs| - 1].tutar
  }

  /** The count and amount of one status. */
  datatype Ozet = Ozet(adet: nat, tutar: int)

  /** The `istatistikler` object of `getWithStats`. */
  datatype Istatistik = Istatistik(
    toplamEvrak: nat, toplamTutar: int,
    portfoy: Ozet, bankada: Ozet, ciro: Ozet, tahsil: Ozet, karsiliksiz: Ozet)

  function OzetOf(rs: seq<EvrakSatiri>, durum: string): Ozet
  {
    Ozet(Adet(rs, durum), Tutar(rs, durum))
  }

  function Istatistikler(rs: seq<EvrakSatiri>): Istatistik
  {
    Istatistik(|rs|, ToplamTutar(rs),
      OzetOf(rs, "portfoy"), OzetOf(rs, "bankada"), OzetOf(rs, "ciro"),
      OzetOf(rs, "tahsil"), OzetOf(rs, "karsiliksiz"))
  }

  /** The statuses the document table admits. */
  predicate BilinenDurum(d: string)
  {
    d == "portfoy" || d == "bankada" || d == "ciro" || d == "tahsil" || d == "karsiliksiz"
  }

  /** When every document has one of the five statuses, the five status
   *  counts add up to the document count and the five amounts to the total. */
  lemma {:induction false} IstatistikBolunur(rs: seq<EvrakSatiri>)
    requires forall i :: 0 <= i < |rs| ==> BilinenDurum(rs[i].durum)
    ensures var s := Istatistikler(rs);
      s.portfoy.adet + s.bankada.adet + s.ciro.adet + s.tahsil.adet + s.karsiliksiz.adet == s.toplamEvrak
    ensures var s := Istatistikler(rs);
      s.portfoy.tutar + s.bankada.tutar + s.ciro.tutar + s.tahsil.tutar + s.karsiliksiz.tutar == s.toplamTutar
  {
    if rs != [] {
      IstatistikBolunur(rs[..|rs| - 1]);
    }
  }

  /** Without the precondition the counts may fall short: a document in a
   *  status outside the five is counted in the total only. */
  lemma UnknownStatusOnlyInTotal()
    ensures var s := Istatistikler([EvrakSatiri(Some(1), "iade", 500)]);
      s.toplamEvrak == 1 && s.toplamTutar == 500
      && s.portfoy.adet + s.bankada.adet + s.ciro.adet + s.tahsil.adet + s.karsiliksiz.adet == 0
  {
    var rs := [EvrakSatiri(Some(1), "iade", 500)];
    assert rs[..0] == [];
  }

  // --------------------------------------------------------- deletion

  /** The outcome of `delete`. */
  datatype Silme =
    | Bulunamadi(message: string)
    | BagliEvrakVar(message: string, evrakSayisi: nat)
    | Silindi(message: string)

  function BagliMesaji(n: nat): string
  {
    "Bu cariye bağlı " + NatToString(n)
    + " adet evrak bulunmaktadır. Önce evrakları silmeniz veya başka bir cariye atamanız gerekir."
  }

  /** `delete` as a function of the table: a missing id fails, a cari with
   *  documents is refused with their count, any other is removed. */
  function Sil(cariler: map<nat, Cari>, evraklar: seq<EvrakSatiri>, id: nat): (r: (Silme, map<nat, Cari>))
    ensures r.0.Bulunamadi? <==> id !in cariler
    ensures r.0.Bulunamadi? ==> r.0.message == "Cari bulunamadı"
    ensures r.0.BagliEvrakVar? <==> id in cariler && (exists e :: e in evraklar && e.cariId == Some(id))
    ensures r.0.BagliEvrakVar? ==>
      r.0.evrakSayisi == |Bagliler(evraklar, id)| > 0 && r.0.message == BagliMesaji(r.0.evrakSayisi)
    ensures r.0.Silindi? ==> r.0.message == "Cari başarıyla silindi" && r.1 == cariler - {id}
    ensures !r.0.Silindi? ==> r.1 == cariler
  {
    if id !in cariler then (Bulunamadi("Cari bulunamadı"), cariler)
    else
      var n := |Bagliler(evraklar, id)|;
      if n > 0 then
        assert Bagliler(evraklar, id)[0] in Bagliler(evraklar, id);
        (BagliEvrakVar(BagliMesaji(n), n), cariler)
      else
        assert forall e :: e in evraklar && e.cariId == Some(id) ==> e in Bagliler(evraklar, id);
        (Silindi("Cari başarıyla silindi"), cariler - {id})
  }

  /** Every document that names a cari names one in the table. */
  predicate Baglantilar(cariler: map<nat, Cari>, evraklar: seq<EvrakSatiri>)
  {
    forall i :: 0 <= i < |evraklar| && evraklar[i].cariId.Some? ==> evraklar[i].cariId.value in cariler
  }

  /** Deleting never leaves a document pointing at a missing cari. */
  lemma SilBaglantilariKorur(cariler: map<nat, Cari>, evraklar: seq<EvrakSatiri>, id: nat)
    requires Baglantilar(cariler, evraklar)
    ensures Baglantilar(Sil(cariler, evraklar, id).1, evraklar)
  {
    var r := Sil(cariler, evraklar, id);
    if r.0.Silindi? {
      forall i | 0 <= i < |evraklar| && evraklar[i].cariId.Some?
        ensures evraklar[i].cariId.value in r.1
      {
        assert evraklar[i] in evraklar;
      }
    }
  }

  /** The detail page warns that deleting a cari with documents leaves them
   *  without a cari; the model deletes nothing then, and the documents keep
   *  pointing at the cari. */
  lemma LinkedDeleteKeepsLinks(cariler: map<nat, Cari>, evraklar: seq<EvrakSatiri>, id: nat, i: nat)
    requires id in cariler && i < |evraklar| && evraklar[i].cariId == Some(id)
    ensures Sil(cariler, evraklar, id).0.BagliEvrakVar?
    ensures id in Sil(cariler, evraklar, id).1
  {
    assert evraklar[i] in evraklar;
  }

  /** The status code of `DELETE /api/cariler/:id`: 200 on success, 400 when
   *  the answer carries a (non-zero) `evrakSayisi`, 404 otherwise. */
  function SilmeKodu(r: Silme): (kod: int)
    ensures r.Silindi? ==> kod == 200
    ensures r.Bulunamadi? ==> kod == 404
    ensures r.BagliEvrakVar? ==> kod == (if r.evrakSayisi > 0 then 400 else 404)
  {
    match r
    case Silindi(_) => 200
    case BagliEvrakVar(_, n) => if n != 0 then 400 else 404
    case Bulunamadi(_) => 404
  }

  /** A refusal because of documents is answered with 400, a missing cari
   *  with 404. */
  lemma RefusalIs400(cariler: map<nat, Cari>, evraklar: seq<EvrakSatiri>, id: nat)
    ensures var r := Sil(cariler, evraklar, id).0;
      (SilmeKodu(r) == 400 <==> r.BagliEvrakVar?) && (SilmeKodu(r) == 404 <==> id !in cariler)
  {
  }

  // ------------------------------------------------------------- lists

  /** SQLite's `LIKE '%s%'` for a search text without `%` or `_`: a
   *  case-insensitive (ASCII) substring test; a null column never matches.
   *  A `%` or `_` inside the text, a wildcard to SQLite, is taken literally. */
  predicate Benzer(v: Option<string>, search: string)
  {
    v.Some? && Contains(ToLower(v.value), ToLower(search))
  }

  /** The WHERE clause of `getAll` on one row. */
  predicate Eslesir(c: Cari, tip: Option<string>, search: Option<string>)
  {
    (!TruthyStr(tip) || c.tip == tip.value)
    && (!TruthyStr(search) || Benzer(Some(c.adSoyad), search.value) || Benzer(c.telefon, search.value))
  }

  /** A term `getAll` adds to its WHERE clause: ` AND c.tip = ?` with the
   *  type, or ` AND (c.ad_soyad LIKE ? OR c.telefon LIKE ?)` with the pattern
   *  bound to both placeholders. */
  datatype Kosul = TipEsit(tip: string) | AdVeyaTelefon(pattern: string)

  /** The parameters the placeholders of the terms take, in order. */
  function Parametreler(ks: seq<Kosul>): seq<string>
  {
    if ks == [] then []
    else Parametreler(ks[..|ks| - 1]) + (match ks[|ks| - 1]
      case TipEsit(t) => [t]
      case AdVeyaTelefon(p) => [p, p])
  }

  /** SQLite's `LIKE` with a `%text%` pattern. */
  predicate Like(v: Option<string>, pattern: string)
  {
    |pattern| >= 2 && Benzer(v, pattern[1..|pattern| - 1])
  }

  /** A row satisfies one term. */
  predicate KosulSaglar(c: Cari, k: Kosul)
  {
    match k
    case TipEsit(t) => c.tip == t
    case AdVeyaTelefon(p) => Like(Some(c.adSoyad), p) || Like(c.telefon, p)
  }

  /** A row satisfies every term of the clause. */
  predicate Saglar(c: Cari, ks: seq<Kosul>)
  {
    forall k :: k in ks ==> KosulSaglar(c, k)
  }

  lemma SaglarEkle(c: Cari, ks: seq<Kosul>, k: Kosul)
    ensures Saglar(c, ks + [k]) <==> Saglar(c, ks) && KosulSaglar(c, k)
  {
    assert k in ks + [k];
    assert forall x :: x in ks ==> x in ks + [k];
  }

  /** The pattern `%text%` matches as a substring test for `text` (for a text
   *  without `%` or `_`, which SQLite would read as wildcards). */
  lemma AramaDeseni(c: Cari, search: string)
    ensures KosulSaglar(c, AdVeyaTelefon("%" + search + "%"))
            <==> Benzer(Some(c.adSoyad), search) || Benzer(c.telefon, search)
  {
    var p := "%" + search + "%";
    assert p[1..|p| - 1] == search;
  }

  /** Builds `getAll`'s WHERE clause and its parameters one filter at a time,
   *  as the source does: the clause keeps exactly the rows `Eslesir` keeps. */
  method WhereOlustur(tip: Option<string>, search: Option<string>) returns (kosullar: seq<Kosul>, params: seq<string>)
    ensures params == Parametreler(kosullar)
    ensures |params| == (if TruthyStr(tip) then 1 else 0) + (if TruthyStr(search) then 2 else 0)
    ensures forall t :: TipEsit(t) in kosullar <==> TruthyStr(tip) && t == tip.value
    ensures forall p :: AdVeyaTelefon(p) in kosullar <==> TruthyStr(search) && p == "%" + search.value + "%"
    ensures forall c :: Saglar(c, kosullar) <==> Eslesir(c, tip, search)
  {
    kosullar := [];
    params := [];
    if TruthyStr(tip) {
      TipAdimi(tip.value);
      kosullar := kosullar + [TipEsit(tip.value)];
      params := params + [tip.value];
    }
    assert forall c :: Saglar(c, kosullar) <==> !TruthyStr(tip) || c.tip == tip.value;
    if TruthyStr(search) {
      AramaAdimi(kosullar, search.value);
      kosullar := kosullar + [AdVeyaTelefon("%" + search.value + "%")];
      params := params + ["%" + search.value + "%", "%" + search.value + "%"];
    }
  }

  /** The type term alone: its parameter is the type and it keeps exactly
   *  the rows of that type. */
  lemma TipAdimi(t: string)
    ensures Parametreler([TipEsit(t)]) == [t]
    ensures forall c :: Saglar(c, [TipEsit(t)]) <==> c.tip == t
  {
    var bos: seq<Kosul> := [];
    assert [TipEsit(t)][..0] == bos;
    forall c ensures Saglar(c, [TipEsit(t)]) <==> c.tip == t {
      SaglarEkle(c, bos, TipEsit(t));
      assert bos + [TipEsit(t)] == [TipEsit(t)];
    }
  }

  /** The search term after the earlier terms: its pattern fills two
   *  placeholders and it keeps the rows whose name or phone holds the text. */
  lemma AramaAdimi(ks: seq<Kosul>, search: string)
    ensures var p := "%" + search + "%";
      Parametreler(ks + [AdVeyaTelefon(p)]) == Parametreler(ks) + [p, p]
    ensures var p := "%" + search + "%";
      forall c :: Saglar(c, ks + [AdVeyaTelefon(p)])
        <==> Saglar(c, ks) && (Benzer(Some(c.adSoyad), search) || Benzer(c.telefon, search))
  {
    var p := "%" + search + "%";
    assert (ks + [AdVeyaTelefon(p)])[..|ks|] == ks;
    forall c ensures Saglar(c, ks + [AdVeyaTelefon(p)])
        <==> Saglar(c, ks) && (Benzer(Some(c.adSoyad), search) || Benzer(c.telefon, search)) {
      SaglarEkle(c, ks, AdVeyaTelefon(p));
      AramaDeseni(c, search);
    }
  }

  /** One row of `getAll`: the cari with `evrak_sayisi` and `toplam_tutar`
   *  from the LEFT JOIN. */
  datatype ListeSatiri = ListeSatiri(cari: Cari, evrakSayisi: nat, toplamTutar: int)

  function ListeSatiriOf(c: Cari, evraklar: seq<EvrakSatiri>): (s: ListeSatiri)
    ensures s.evrakSayisi == |Bagliler(evraklar, c.id)|
  {
    var rs := Bagliler(evraklar, c.id);
    ListeSatiri(c, |rs|, ToplamTutar(rs))
  }

  /** The `pagination` object of a list answer. */
  datatype SayfaBilgisi = SayfaBilgisi(page: int, limit: int, total: nat, totalPages: nat)

  /** `offset = (page-1)*limit`, `totalPages = ceil(total/limit)`; the
   *  route admits `page >= 1` and `limit` in 1..100. */
  function Sayfala(total: nat, page: int, limit: int): (p: SayfaBilgisi)
    requires page >= 1 && limit >= 1
    ensures p.page == page && p.limit == limit && p.total == total
    ensures p.totalPages * limit >= total && (p.totalPages == 0 || (p.totalPages - 1) * limit < total)
    ensures p.totalPages == 0 <==> total == 0
  {
    Pagination.NoPagesIffEmpty(total, limit);
    SayfaBilgisi(page, limit, total, Pagination.TotalPages(total, limit))
  }

  /** The answer of `getEvraklar`. */
  datatype EvrakSayfasi = EvrakSayfasi(cari: Cari, data: seq<EvrakSatiri>, pagination: SayfaBilgisi)

  // ------------------------------------------------------------- table

  class CariStore {
    var cariler: map<nat, Cari>
    var evraklar: seq<EvrakSatiri>
    var nextId: nat

    /** Ids are the rows' keys and below the next one to hand out, and no
     *  document points at a missing cari. */
    ghost predicate Valid()
      reads this
    {
      nextId >= 1
      && (forall id :: id in cariler ==> 1 <= id < nextId && cariler[id].id == id)
      && Baglantilar(cariler, evraklar)
    }

    constructor ()
      ensures Valid() && cariler == map[] && evraklar == []
    {
      cariler := map[];
      evraklar := [];
      nextId := 1;
    }

    /** `getById`: the row, or null. */
    function GetById(id: nat): (r: Option<Cari>)
      reads this
      ensures r.Some? <==> id in cariler
      ensures r.Some? ==> r.value == cariler[id]
    {
      if id in cariler then Some(cariler[id]) else None
    }

    /** `getWithStats`: null for a missing cari, otherwise the row with the
     *  statistics of its documents. */
    function GetWithStats(id: nat): (r: Option<(Cari, Istatistik)>)
      reads this
      ensures r.None? <==> id !in cariler
      ensures r.Some? ==> r.value.0 == cariler[id]
      ensures r.Some? ==> r.value.1.toplamEvrak == |Bagliler(evraklar, id)|
      ensures r.Some? ==> r.value.1 == Istatistikler(Bagliler(evraklar, id))
    {
      match GetById(id)
      case None => None
      case Some(c) => Some((c, Istatistikler(Bagliler(evraklar, id))))
    }

    /** `getEvraklar`: null for a missing cari, otherwise one page of its
     *  documents and the page arithmetic over their count. */
    function GetEvraklar(id: nat, page: int, limit: int): (r: Option<EvrakSayfasi>)
      requires page >= 1 && limit >= 1
      reads this
      ensures r.None? <==> id !in cariler
      ensures r.Some? ==> r.value.cari == cariler[id]
      ensures r.Some? ==> r.value.pagination.total == |Bagliler(evraklar, id)|
      ensures r.Some? ==> |r.value.data| <= limit
      ensures r.Some? ==> forall e :: e in r.value.data ==> e in evraklar && e.cariId == Some(id)
    {
      match GetById(id)
      case None => None
      case Some(c) =>
        var rs := Bagliler(evraklar, id);
        var data := Pagination.PageRows(rs, page, limit);
        assert forall k :: 0 <= k < |data| ==> data[k] in rs;
        Some(EvrakSayfasi(c, data, Sayfala(|rs|, page, limit)))
    }

    /** `getAll`'s count and page arithmetic: the cari matching the filters. */
    function GetAllTotal(tip: Option<string>, search: Option<string>): (ids: set<nat>)
      reads this
      ensures forall id :: id in ids <==> id in cariler && Eslesir(cariler[id], tip, search)
    {
      set id | id in cariler && Eslesir(cariler[id], tip, search)
    }

    /** `create`: a new row under a fresh id. */
    method Create(d: CariData, now: int) returns (c: Cari)
      requires Valid()
      modifies this
      ensures Valid()
      ensures c.id !in old(cariler) && c == Kayit(c.id, d, now)
      ensures cariler == old(cariler)[c.id := c] && evraklar == old(evraklar)
    {
      c := Kayit(nextId, d, now);
      cariler := cariler[nextId := c];
      nextId := nextId + 1;
    }

    /** `update`: null for a missing id; otherwise every field is
     *  overwritten, empty optional fields becoming null. */
    method Update(id: nat, d: CariData, now: int) returns (r: Option<Cari>)
      requires Valid()
      modifies this
      ensures Valid()
      ensures r.None? <==> id !in old(cariler)
      ensures r.None? ==> cariler == old(cariler)
      ensures r.Some? ==> r.value == Kayit(id, d, now) && cariler == old(cariler)[id := r.value]
      ensures evraklar == old(evraklar)
    {
      if id !in cariler {
        return None;
      }
      var c := Kayit(id, d, now);
      cariler := cariler[id := c];
      return Some(c);
    }

    /** `delete`: see `Sil`; the document table is never touched. */
    method Remove(id: nat) returns (r: Silme)
      requires Valid()
      modifies this
      ensures Valid()
      ensures (r, cariler) == Sil(old(cariler), old(evraklar), id)
      ensures evraklar == old(evraklar)
    {
      if id !in cariler {
        return Bulunamadi("Cari bulunamadı");
      }
      var n := |Bagliler(evraklar, id)|;
      if n > 0 {
        return BagliEvrakVar(BagliMesaji(n), n);
      }
      SilBaglantilariKorur(cariler, evraklar, id);
      cariler := cariler - {id};
      r := Silindi("Cari başarıyla silindi");
    }
  }
}
