/** The `krediler` and `kredi_taksitler` tables, with the operations of
 *  `backend/src/models/krediler.js` (`create`, `update`, `remove`) and
 *  `backend/src/models/krediTaksitler.js` (`odemeYap`, `odemeIptal`,
 *  `erkenOdeme`, `guncelleGecikenler`) that change them. Each transaction is
 *  one method; "today" is a parameter. */
module KrediDb {
  import opened Wrappers
  import opened Js
  import opened Dates
  import opened Krediler
  import opened KrediTaksitler

  datatype Sonuc = Basarili(message: string, taksit: Taksit) | Basarisiz(message: string)

  datatype ErkenSonuc = ErkenTamam(message: string, odenenTaksitSayisi: nat, odenenTutar: int)
                      | ErkenHata(message: string)

  /** The row with that id, if any. */
  function RowById(ts: seq<Taksit>, id: int): Option<Taksit>
  {
    match Find(ts, id)
    case None => None
    case Some(i) => Some(ts[i])
  }

  /** `odemeYap` may pay a row exactly when it exists, is unpaid and its loan
   *  is active. */
  predicate Payable(krediler: map<int, Kredi>, ts: seq<Taksit>, id: int)
  {
    RowById(ts, id).Some? && RowById(ts, id).value.durum != Odendi
    && RowById(ts, id).value.krediId in krediler
    && krediler[RowById(ts, id).value.krediId].durum == Aktif
  }

  class KrediTablolari {
    var krediler: map<int, Kredi>
    var taksitler: seq<Taksit>
    var nextKrediId: int
    var nextTaksitId: int

    /** Keys are the loans' ids, ids lie below the next one to hand out, the
     *  installment ids are a key, and every installment's loan exists. */
    ghost predicate Valid()
      reads this
    {
      nextKrediId >= 1 && nextTaksitId >= 1
      && (forall id :: id in krediler ==> 1 <= id < nextKrediId && krediler[id].id == id)
      && (forall i :: 0 <= i < |taksitler| ==> 1 <= taksitler[i].id < nextTaksitId)
      && (forall i :: 0 <= i < |taksitler| ==> taksitler[i].krediId in krediler)
      && UniqueIds(taksitler)
    }

    constructor ()
      ensures Valid()
      ensures krediler == map[] && taksitler == []
    {
      krediler, taksitler := map[], [];
      nextKrediId, nextTaksitId := 1, 1;
    }

    /** `create`: the loan, active, with its start stored as written, and one
     *  waiting installment per month counted from the start `new Date`
     *  reads. */
    method Create(d: KrediData, aylikTaksit: int, userId: int) returns (k: Kredi)
      requires Valid() && IsoDay(d.baslangic)
      modifies this
      ensures Valid()
      ensures k.id !in old(krediler) && k == NewKredi(k.id, d, aylikTaksit, userId)
      ensures krediler == old(krediler)[k.id := k]
      ensures |taksitler| == |old(taksitler)| + d.vadeAy
      ensures taksitler[..|old(taksitler)|] == old(taksitler)
      ensures forall i :: |old(taksitler)| <= i < |taksitler| ==>
        taksitler[i].krediId == k.id
        && taksitler[i].taksitNo == i - |old(taksitler)| + 1
        && taksitler[i].vadeTarihi == AddMonths(FromIso(d.baslangic), i - |old(taksitler)| + 1)
        && taksitler[i].tutar == aylikTaksit
        && taksitler[i].durum == Bekliyor
        && taksitler[i].odenenTutar.None?
    {
      var id := nextKrediId;
      k := NewKredi(id, d, aylikTaksit, userId);
      krediler := krediler[id := k];
      nextKrediId := nextKrediId + 1;
      var plan := TaksitListesiOlustur(id, aylikTaksit, d.vadeAy, d.baslangic);
      InsertPlan(plan);
    }

    /** The `for` loop of `create` inserting the schedule, one row at a time,
     *  each with the next installment id and no payment yet. */
    method InsertPlan(plan: seq<TaksitSatiri>)
      requires Valid()
      requires forall j :: 0 <= j < |plan| ==> plan[j].krediId in krediler
      modifies this`taksitler, this`nextTaksitId
      ensures Valid()
      ensures |taksitler| == |old(taksitler)| + |plan| && taksitler[..|old(taksitler)|] == old(taksitler)
      ensures forall j :: |old(taksitler)| <= j < |taksitler| ==>
        var p := plan[j - |old(taksitler)|];
        taksitler[j] == Taksit(old(nextTaksitId) + j - |old(taksitler)|, p.krediId, p.taksitNo,
                               p.vadeTarihi, p.tutar, p.durum, None, None, None)
    {
      var n := |taksitler|;
      var i := 0;
      while i < |plan|
        invariant 0 <= i <= |plan|
        invariant nextTaksitId == old(nextTaksitId) + i
        invariant |taksitler| == n + i && taksitler[..n] == old(taksitler)
        invariant forall j :: n <= j < n + i ==>
          taksitler[j] == Taksit(old(nextTaksitId) + j - n, plan[j - n].krediId, plan[j - n].taksitNo,
                                 plan[j - n].vadeTarihi, plan[j - n].tutar, plan[j - n].durum, None, None, None)
        invariant forall j :: 0 <= j < |taksitler| ==> 1 <= taksitler[j].id < nextTaksitId
        invariant forall j :: 0 <= j < |taksitler| ==> taksitler[j].krediId in krediler
        invariant UniqueIds(taksitler)
      {
        var p := plan[i];
        var t := Taksit(nextTaksitId, p.krediId, p.taksitNo, p.vadeTarihi, p.tutar, p.durum, None, None, None);
        AppendFresh(taksitler, t, nextTaksitId);
        taksitler := taksitler + [t];
        nextTaksitId := nextTaksitId + 1;
        i := i + 1;
      }
    }

    /** `update`: null for a missing loan; otherwise only the bank and the
     *  notes change, never principal, rate, term, status or installments. */
    method Update(id: int, bankaId: Option<int>, notlar: Option<string>) returns (r: Option<Kredi>)
      requires Valid()
      modifies this
      ensures Valid()
      ensures id !in old(krediler) ==> r.None? && krediler == old(krediler)
      ensures id in old(krediler) ==> r == Some(UpdatedKredi(old(krediler)[id], bankaId, notlar))
                                      && krediler == old(krediler)[id := r.value]
      ensures taksitler == old(taksitler)
    {
      if id !in krediler {
        return None;
      }
      var k := UpdatedKredi(krediler[id], bankaId, notlar);
      krediler := krediler[id := k];
      r := Some(k);
    }

    /** `remove`: a missing loan, or one with any paid installment, is left
     *  alone; otherwise the loan goes and its installments cascade. */
    method Remove(id: int, bugun: Date) returns (success: bool, message: string)
      requires Valid()
      modifies this
      ensures Valid()
      ensures success <==> id in old(krediler) && !AnyPaid(old(taksitler), id)
      ensures id !in old(krediler) ==> message == "Kredi bulunamadı"
      ensures id in old(krediler) && AnyPaid(old(taksitler), id) ==>
        message == "Ödemesi yapılmış kredi silinemez. Önce tüm ödemeleri iptal edin."
      ensures !success ==> krediler == old(krediler) && taksitler == old(taksitler)
      ensures success ==> krediler == old(krediler) - {id} && taksitler == Without(old(taksitler), id)
    {
      if id !in krediler {
        return false, "Kredi bulunamadı";
      }
      var satirlar := RowsOf(taksitler, id);
      var ozet := HesaplaOzet(satirlar, bugun);
      OdenenAnyPaid(taksitler, id, bugun);
      if ozet.odenenTaksit > 0 {
        return false, "Ödemesi yapılmış kredi silinemez. Önce tüm ödemeleri iptal edin.";
      }
      Sil(id);
      success, message := true, "Kredi başarıyla silindi";
    }

    /** The `DELETE` with its cascade: the loan and its installments go. */
    method Sil(id: int)
      requires Valid()
      modifies this
      ensures Valid()
      ensures krediler == old(krediler) - {id} && taksitler == Without(old(taksitler), id)
    {
      WithoutKeepsUnique(taksitler, id);
      KalanSatirlar(krediler, taksitler, id, nextTaksitId);
      krediler := krediler - {id};
      taksitler := Without(taksitler, id);
    }

    /** `odemeYap`: pay one installment (date defaults to today, amount to
     *  the installment's own), then close the loan if nothing is left unpaid. */
    method OdemeYap(taksitId: int, odemeTarihi: Option<Date>, odenenTutar: Option<int>,
                    notlar: Option<string>, bugun: Date) returns (r: Sonuc)
      requires Valid()
      modifies this
      ensures Valid()
      ensures r.Basarili? <==> Payable(old(krediler), old(taksitler), taksitId)
      ensures RowById(old(taksitler), taksitId).None? ==> r == Basarisiz("Taksit bulunamadı")
      ensures RowById(old(taksitler), taksitId).Some? && RowById(old(taksitler), taksitId).value.durum == Odendi
              ==> r == Basarisiz("Bu taksit zaten ödenmiş")
      ensures r.Basarisiz? ==> krediler == old(krediler) && taksitler == old(taksitler)
      ensures r.Basarili? ==>
        var t := RowById(old(taksitler), taksitId).value;
        taksitler == PayRows(old(taksitler), taksitId,
                             if odemeTarihi.Some? then odemeTarihi.value else bugun,
                             if odenenTutar.Some? then odenenTutar.value else t.tutar,
                             OrNullStr(notlar))
        && krediler == old(krediler)[t.krediId := old(krediler)[t.krediId].(
             durum := if |UnpaidOf(taksitler, t.krediId)| == 0 then Kapandi else Aktif)]
        && r.taksit.id == taksitId && r.taksit.durum == Odendi
    {
      var f := Find(taksitler, taksitId);
      if f.None? {
        return Basarisiz("Taksit bulunamadı");
      }
      var t := taksitler[f.value];
      if t.durum == Odendi {
        return Basarisiz("Bu taksit zaten ödenmiş");
      }
      if t.krediId !in krediler || krediler[t.krediId].durum != Aktif {
        return Basarisiz("Kredi aktif değil, ödeme yapılamaz");
      }
      var tarih := if odemeTarihi.Some? then odemeTarihi.value else bugun;
      var tutar := if odenenTutar.Some? then odenenTutar.value else t.tutar;
      taksitler := PayRows(taksitler, taksitId, tarih, tutar, OrNullStr(notlar));
      var kalan := |UnpaidOf(taksitler, t.krediId)|;
      if kalan == 0 {
        krediler := krediler[t.krediId := krediler[t.krediId].(durum := Kapandi)];
      }
      r := Basarili("Taksit ödemesi kaydedildi", taksitler[f.value]);
    }

    /** `odemeIptal`: undo a payment; a `kapandi` loan reopens, an
     *  `erken_kapandi` one keeps its status. */
    method OdemeIptal(taksitId: int, bugun: Date) returns (r: Sonuc)
      requires Valid()
      modifies this
      ensures Valid()
      ensures r.Basarili? <==> RowById(old(taksitler), taksitId).Some?
                               && RowById(old(taksitler), taksitId).value.durum == Odendi
      ensures RowById(old(taksitler), taksitId).None? ==> r == Basarisiz("Taksit bulunamadı")
      ensures RowById(old(taksitler), taksitId).Some? && RowById(old(taksitler), taksitId).value.durum != Odendi
              ==> r == Basarisiz("Bu taksit zaten ödenmemiş durumda")
      ensures r.Basarisiz? ==> krediler == old(krediler) && taksitler == old(taksitler)
      ensures r.Basarili? ==>
        var t := RowById(old(taksitler), taksitId).value;
        taksitler == CancelRows(old(taksitler), taksitId, bugun)
        && krediler == (if old(krediler)[t.krediId].durum == Kapandi
                        then old(krediler)[t.krediId := old(krediler)[t.krediId].(durum := Aktif)]
                        else old(krediler))
        && r.taksit.durum == (if Before(t.vadeTarihi, bugun) then Gecikti else Bekliyor)
        && r.taksit.odemeTarihi.None? && r.taksit.odenenTutar.None?
    {
      var f := Find(taksitler, taksitId);
      if f.None? {
        return Basarisiz("Taksit bulunamadı");
      }
      var t := taksitler[f.value];
      if t.durum != Odendi {
        return Basarisiz("Bu taksit zaten ödenmemiş durumda");
      }
      taksitler := CancelRows(taksitler, taksitId, bugun);
      if krediler[t.krediId].durum == Kapandi {
        krediler := krediler[t.krediId := krediler[t.krediId].(durum := Aktif)];
      }
      r := Basarili("Taksit ödemesi iptal edildi", taksitler[f.value]);
    }

    /** `erkenOdeme`: pay every unpaid installment of an active loan and mark
     *  the loan closed early; the count and the total are of those rows. */
    method ErkenOdeme(krediId: int, odemeTarihi: Option<Date>, notlar: Option<string>, bugun: Date)
      returns (r: ErkenSonuc)
      requires Valid()
      modifies this
      ensures Valid()
      ensures r.ErkenTamam? <==> krediId in old(krediler) && old(krediler)[krediId].durum == Aktif
                                 && |UnpaidOf(old(taksitler), krediId)| > 0
      ensures krediId !in old(krediler) ==> r == ErkenHata("Kredi bulunamadı")
      ensures krediId in old(krediler) && old(krediler)[krediId].durum != Aktif
              ==> r == ErkenHata("Kredi aktif değil, erken ödeme yapılamaz")
      ensures r.ErkenHata? ==> krediler == old(krediler) && taksitler == old(taksitler)
      ensures r.ErkenTamam? ==>
        r.odenenTaksitSayisi == |UnpaidOf(old(taksitler), krediId)|
        && r.odenenTutar == SumTutar(UnpaidOf(old(taksitler), krediId))
        && taksitler == PayAllRows(old(taksitler), krediId,
                                   if odemeTarihi.Some? then odemeTarihi.value else bugun,
                                   if notlar.Some? then notlar.value else "Erken ödeme")
        && krediler == old(krediler)[krediId := old(krediler)[krediId].(durum := ErkenKapandi)]
        && |UnpaidOf(taksitler, krediId)| == 0
    {
      if krediId !in krediler {
        return ErkenHata("Kredi bulunamadı");
      }
      if krediler[krediId].durum != Aktif {
        return ErkenHata("Kredi aktif değil, erken ödeme yapılamaz");
      }
      var tarih := if odemeTarihi.Some? then odemeTarihi.value else bugun;
      var not := if notlar.Some? then notlar.value else "Erken ödeme";
      var bekleyenler := UnpaidOf(taksitler, krediId);
      if |bekleyenler| == 0 {
        return ErkenHata("Ödenmemiş taksit bulunamadı");
      }
      var toplamKalan := SumTutar(bekleyenler);
      taksitler := PayAllRows(taksitler, krediId, tarih, not);
      krediler := krediler[krediId := krediler[krediId].(durum := ErkenKapandi)];
      PayAllClears(old(taksitler), krediId, tarih, not);
      r := ErkenTamam("Erken ödeme tamamlandı, kredi kapatıldı", |bekleyenler|, toplamKalan);
    }

    /** `guncelleGecikenler`: flag overdue waiting installments of active
     *  loans as late, reporting how many rows changed. */
    method GuncelleGecikenler(bugun: Date) returns (updatedCount: nat)
      requires Valid()
      modifies this
      ensures Valid()
      ensures taksitler == MarkLateRows(old(taksitler), old(krediler), bugun)
      ensures updatedCount == CountLate(old(taksitler), old(krediler), bugun)
      ensures krediler == old(krediler)
      ensures CountLate(taksitler, krediler, bugun) == 0
    {
      updatedCount := CountLate(taksitler, krediler, bugun);
      MarkLateOnlyCandidates(taksitler, krediler, bugun);
      taksitler := MarkLateRows(taksitler, krediler, bugun);
    }
  }

  /** A row with a fresh id keeps the key unique. */
  lemma AppendFresh(ts: seq<Taksit>, t: Taksit, next: int)
    requires UniqueIds(ts) && t.id == next
    requires forall j :: 0 <= j < |ts| ==> ts[j].id < next
    ensures UniqueIds(ts + [t])
  {
    var r := ts + [t];
    forall i, j | 0 <= i < j < |r|
      ensures r[i].id != r[j].id
    {
      assert r[i] == ts[i];
    }
  }

  /** A paid row of the loan's own rows is a paid row of the loan. */
  /** The rows left after a loan's installments go still point at loans
   *  that remain, with ids below the next one. */
  lemma KalanSatirlar(krediler: map<int, Kredi>, ts: seq<Taksit>, id: int, nextTaksitId: int)
    requires forall i :: 0 <= i < |ts| ==> 1 <= ts[i].id < nextTaksitId && ts[i].krediId in krediler
    ensures var w := Without(ts, id);
      forall i :: 0 <= i < |w| ==> 1 <= w[i].id < nextTaksitId && w[i].krediId in krediler - {id}
  {
    var w := Without(ts, id);
    forall i | 0 <= i < |w|
      ensures 1 <= w[i].id < nextTaksitId && w[i].krediId in krediler - {id}
    {
      assert w[i] in ts;
      var j :| 0 <= j < |ts| && ts[j] == w[i];
    }
  }

  /** The loan's summary counts a paid installment exactly when the table
   *  holds a paid row of the loan. */
  lemma OdenenAnyPaid(ts: seq<Taksit>, krediId: int, bugun: Date)
    ensures OzetOf(RowsOf(ts, krediId), bugun).odenenTaksit > 0 <==> AnyPaid(ts, krediId)
  {
    OdenenPositiveIff(RowsOf(ts, krediId), bugun);
    PaidRowsOf(ts, krediId);
  }

  lemma PaidRowsOf(ts: seq<Taksit>, krediId: int)
    ensures (exists i :: 0 <= i < |RowsOf(ts, krediId)| && RowsOf(ts, krediId)[i].durum == Odendi)
            <==> AnyPaid(ts, krediId)
  {
    var rows := RowsOf(ts, krediId);
    if AnyPaid(ts, krediId) {
      var i :| 0 <= i < |ts| && ts[i].krediId == krediId && ts[i].durum == Odendi;
      assert ts[i] in rows;
      var j :| 0 <= j < |rows| && rows[j] == ts[i];
    } else {
      forall i | 0 <= i < |rows|
        ensures rows[i].durum != Odendi
      {
        assert rows[i] in rows;
        assert rows[i] in ts && rows[i].krediId == krediId;
        var j :| 0 <= j < |ts| && ts[j] == rows[i];
      }
    }
  }
}
