/** `backend/src/models/krediler.js`: loans (krediler), their installment
 *  schedule, the paid/late/remaining summary of an installment list and the
 *  list-filter normalisation. The tables themselves, with `create`, `update`
 *  and `remove`, are in module KrediDb. Money is in integer kuruş. */
module Krediler {
  import opened Wrappers
  import opened Strings
  import opened Js
  import opened Dates

  const KrediTurleri: seq<string> := ["tuketici", "konut", "tasit", "ticari", "isletme", "diger"]
  const KrediDurumlari: seq<string> := ["aktif", "kapandi", "erken_kapandi"]
  const ParaBirimleri: seq<string> := ["TRY", "USD", "EUR", "GBP", "CHF"]

  datatype KrediDurum = Aktif | Kapandi | ErkenKapandi

  datatype TaksitDurum = Bekliyor | Odendi | Gecikti

  /** A row of `krediler`; `faizOrani` is in hundredths of a percent. */
  datatype Kredi = Kredi(id: int, bankaId: Option<int>, krediTuru: string, anapara: int,
                         faizOrani: int, vadeAy: nat, baslangic: Date, aylikTaksit: int,
                         toplamOdeme: int, paraBirimi: string, notlar: Option<string>,
                         durum: KrediDurum, createdBy: int)

  /** A row of `kredi_taksitler`. */
  datatype Taksit = Taksit(id: int, krediId: int, taksitNo: int, vadeTarihi: Date, tutar: int,
                           durum: TaksitDurum, odemeTarihi: Option<Date>,
                           odenenTutar: Option<int>, notlar: Option<string>)

  /** One element of the array `taksitListesiOlustur` builds, before insertion. */
  datatype TaksitSatiri = TaksitSatiri(krediId: int, taksitNo: int, vadeTarihi: Date,
                                       tutar: int, durum: TaksitDurum)

  // ---------------------------------------------------------------------------
  // The schedule

  /** `taksitListesiOlustur`: the start text is read by `new Date`, which
   *  carries a day the month lacks into the next month; installment `i`
   *  (from 1) is then due `i` months after that start, each computed afresh
   *  from it. */
  method TaksitListesiOlustur(krediId: int, aylikTaksit: int, vadeAy: nat, baslangic: Date)
    returns (taksitler: seq<TaksitSatiri>)
    requires IsoDay(baslangic)
    ensures |taksitler| == vadeAy
    ensures forall i :: 0 <= i < vadeAy ==>
      taksitler[i] == TaksitSatiri(krediId, i + 1, AddMonths(FromIso(baslangic), i + 1), aylikTaksit, Bekliyor)
    ensures forall i :: 0 <= i < vadeAy ==> ValidDate(taksitler[i].vadeTarihi)
    ensures forall i, j :: 0 <= i < j < vadeAy ==> Before(taksitler[i].vadeTarihi, taksitler[j].vadeTarihi)
  {
    var start := FromIso(baslangic);
    taksitler := [];
    var i := 1;
    while i <= vadeAy
      invariant 1 <= i <= vadeAy + 1
      invariant |taksitler| == i - 1
      invariant forall k :: 0 <= k < i - 1 ==>
        taksitler[k] == TaksitSatiri(krediId, k + 1, AddMonths(start, k + 1), aylikTaksit, Bekliyor)
    {
      var vadeTarihi := AddMonths(start, i);
      taksitler := taksitler + [TaksitSatiri(krediId, i, vadeTarihi, aylikTaksit, Bekliyor)];
      i := i + 1;
    }
    forall i | 0 <= i < vadeAy
      ensures ValidDate(taksitler[i].vadeTarihi)
    {
      AddMonthsShape(start, i + 1);
    }
    forall i, j | 0 <= i < j < vadeAy
      ensures Before(taksitler[i].vadeTarihi, taksitler[j].vadeTarihi)
    {
      AddMonthsMonotone(start, i + 1, j + 1);
    }
  }

  // ---------------------------------------------------------------------------
  // The summary of an installment list

  datatype Ozet = Ozet(toplamTaksit: nat, odenenTaksit: nat, kalanTaksit: nat, gecikenTaksit: nat,
                       odenenTutar: int, kalanBorc: int, gecikenTutar: int)

  /** Which counter of `hesaplaOzet` an installment feeds. */
  datatype Sinif = Odenmis | Geciken | Kalan

  function SinifOf(t: Taksit, bugun: Date): Sinif
  {
    if t.durum == Odendi then Odenmis
    else if t.durum == Gecikti || (t.durum == Bekliyor && Before(t.vadeTarihi, bugun)) then Geciken
    else Kalan
  }

  /** `odenen_tutar || tutar`: a missing or zero paid amount counts as the
   *  installment's own amount. */
  function OdenenKatki(t: Taksit): int
  {
    if t.odenenTutar.Some? && t.odenenTutar.value != 0 then t.odenenTutar.value else t.tutar
  }

  /** One pass of the loop body of `hesaplaOzet`. */
  function Ekle(o: Ozet, t: Taksit, bugun: Date): Ozet
  {
    match SinifOf(t, bugun)
    case Odenmis =>
      o.(odenenTaksit := o.odenenTaksit + 1, odenenTutar := o.odenenTutar + OdenenKatki(t))
    case Geciken =>
      o.(gecikenTaksit := o.gecikenTaksit + 1, gecikenTutar := o.gecikenTutar + t.tutar,
         kalanBorc := o.kalanBorc + t.tutar)
    case Kalan =>
      o.(kalanTaksit := o.kalanTaksit + 1, kalanBorc := o.kalanBorc + t.tutar)
  }

  /** The counters after the loop has seen `ts`, starting from `toplam` and zeros. */
  function Tally(ts: seq<Taksit>, bugun: Date, toplam: nat): Ozet
  {
    if |ts| == 0 then Ozet(toplam, 0, 0, 0, 0, 0, 0)
    else Ekle(Tally(ts[..|ts| - 1], bugun, toplam), ts[|ts| - 1], bugun)
  }

  function OzetOf(ts: seq<Taksit>, bugun: Date): Ozet
  {
    Tally(ts, bugun, |ts|)
  }

  /** `hesaplaOzet(taksitler)`, with "today" passed in. */
  method HesaplaOzet(taksitler: seq<Taksit>, bugun: Date) returns (ozet: Ozet)
    ensures ozet == OzetOf(taksitler, bugun)
    ensures ozet.odenenTaksit + ozet.gecikenTaksit + ozet.kalanTaksit == ozet.toplamTaksit == |taksitler|
  {
    ozet := Ozet(|taksitler|, 0, 0, 0, 0, 0, 0);
    for i := 0 to |taksitler|
      invariant ozet == Tally(taksitler[..i], bugun, |taksitler|)
    {
      assert taksitler[..i + 1][..i] == taksitler[..i];
      ozet := Ekle(ozet, taksitler[i], bugun);
    }
    assert taksitler[..|taksitler|] == taksitler;
    OzetPartition(taksitler, bugun, |taksitler|);
  }

  /** Independent reference: the installments of one class, in order. */
  function OfClass(ts: seq<Taksit>, bugun: Date, c: Sinif): seq<Taksit>
  {
    if |ts| == 0 then []
    else (if SinifOf(ts[0], bugun) == c then [ts[0]] else []) + OfClass(ts[1..], bugun, c)
  }

  function SumTutar(ts: seq<Taksit>): int
  {
    if |ts| == 0 then 0 else ts[0].tutar + SumTutar(ts[1..])
  }

  function SumOdenen(ts: seq<Taksit>): int
  {
    if |ts| == 0 then 0 else OdenenKatki(ts[0]) + SumOdenen(ts[1..])
  }

  lemma {:induction false} OfClassAppend(a: seq<Taksit>, b: seq<Taksit>, bugun: Date, c: Sinif)
    ensures OfClass(a + b, bugun, c) == OfClass(a, bugun, c) + OfClass(b, bugun, c)
  {
    if |a| == 0 {
      assert a + b == b;
    } else {
      assert (a + b)[1..] == a[1..] + b;
      OfClassAppend(a[1..], b, bugun, c);
    }
  }

  lemma {:induction false} SumsAppend(a: seq<Taksit>, b: seq<Taksit>)
    ensures SumTutar(a + b) == SumTutar(a) + SumTutar(b)
    ensures SumOdenen(a + b) == SumOdenen(a) + SumOdenen(b)
  {
    if |a| == 0 {
      assert a + b == b;
    } else {
      assert (a + b)[1..] == a[1..] + b;
      SumsAppend(a[1..], b);
    }
  }

  /** `hesaplaOzet` counts every installment in exactly one class: the three
   *  counters are the sizes of the three classes and add up to the length. */
  lemma {:induction false} OzetPartition(ts: seq<Taksit>, bugun: Date, toplam: nat)
    ensures Tally(ts, bugun, toplam).toplamTaksit == toplam
    ensures Tally(ts, bugun, toplam).odenenTaksit == |OfClass(ts, bugun, Odenmis)|
    ensures Tally(ts, bugun, toplam).gecikenTaksit == |OfClass(ts, bugun, Geciken)|
    ensures Tally(ts, bugun, toplam).kalanTaksit == |OfClass(ts, bugun, Kalan)|
    ensures Tally(ts, bugun, toplam).odenenTaksit + Tally(ts, bugun, toplam).gecikenTaksit
            + Tally(ts, bugun, toplam).kalanTaksit == |ts|
  {
    if |ts| > 0 {
      var init := ts[..|ts| - 1];
      var last := ts[|ts| - 1];
      OzetPartition(init, bugun, toplam);
      assert ts == init + [last];
      OfClassAppend(init, [last], bugun, Odenmis);
      OfClassAppend(init, [last], bugun, Geciken);
      OfClassAppend(init, [last], bugun, Kalan);
    }
  }

  /** The amounts: the paid total sums each paid installment's contribution,
   *  the late total sums the late installments, and the outstanding debt sums
   *  every unpaid one, late or not. */
  lemma OzetAmounts(ts: seq<Taksit>, bugun: Date, toplam: nat)
    ensures Tally(ts, bugun, toplam).odenenTutar == SumOdenen(OfClass(ts, bugun, Odenmis))
    ensures Tally(ts, bugun, toplam).gecikenTutar == SumTutar(OfClass(ts, bugun, Geciken))
    ensures Tally(ts, bugun, toplam).kalanBorc
            == SumTutar(OfClass(ts, bugun, Geciken)) + SumTutar(OfClass(ts, bugun, Kalan))
  {
    OdenenTutarSum(ts, bugun, toplam);
    GecikenTutarSum(ts, bugun, toplam);
    KalanBorcSum(ts, bugun, toplam);
  }

  /** Splitting off the last installment of a class reference. */
  lemma OfClassSnoc(ts: seq<Taksit>, bugun: Date, c: Sinif)
    requires |ts| > 0
    ensures OfClass(ts, bugun, c) == OfClass(ts[..|ts| - 1], bugun, c)
            + (if SinifOf(ts[|ts| - 1], bugun) == c then [ts[|ts| - 1]] else [])
  {
    assert ts == ts[..|ts| - 1] + [ts[|ts| - 1]];
    OfClassAppend(ts[..|ts| - 1], [ts[|ts| - 1]], bugun, c);
    assert [ts[|ts| - 1]][1..] == [];
  }

  lemma {:induction false} OdenenTutarSum(ts: seq<Taksit>, bugun: Date, toplam: nat)
    ensures Tally(ts, bugun, toplam).odenenTutar == SumOdenen(OfClass(ts, bugun, Odenmis))
  {
    if |ts| > 0 {
      var init := ts[..|ts| - 1];
      OdenenTutarSum(init, bugun, toplam);
      OfClassSnoc(ts, bugun, Odenmis);
      SumsAppend(OfClass(init, bugun, Odenmis), if SinifOf(ts[|ts| - 1], bugun) == Odenmis then [ts[|ts| - 1]] else []);
    }
  }

  lemma {:induction false} GecikenTutarSum(ts: seq<Taksit>, bugun: Date, toplam: nat)
    ensures Tally(ts, bugun, toplam).gecikenTutar == SumTutar(OfClass(ts, bugun, Geciken))
  {
    if |ts| > 0 {
      var init := ts[..|ts| - 1];
      GecikenTutarSum(init, bugun, toplam);
      OfClassSnoc(ts, bugun, Geciken);
      SumsAppend(OfClass(init, bugun, Geciken), if SinifOf(ts[|ts| - 1], bugun) == Geciken then [ts[|ts| - 1]] else []);
    }
  }

  lemma {:induction false} KalanBorcSum(ts: seq<Taksit>, bugun: Date, toplam: nat)
    ensures Tally(ts, bugun, toplam).kalanBorc
            == SumTutar(OfClass(ts, bugun, Geciken)) + SumTutar(OfClass(ts, bugun, Kalan))
  {
    if |ts| > 0 {
      var init := ts[..|ts| - 1];
      KalanBorcSum(init, bugun, toplam);
      OfClassSnoc(ts, bugun, Geciken);
      OfClassSnoc(ts, bugun, Kalan);
      SumsAppend(OfClass(init, bugun, Geciken), if SinifOf(ts[|ts| - 1], bugun) == Geciken then [ts[|ts| - 1]] else []);
      SumsAppend(OfClass(init, bugun, Kalan), if SinifOf(ts[|ts| - 1], bugun) == Kalan then [ts[|ts| - 1]] else []);
    }
  }

  lemma {:induction false} SumTutarNonNegative(ts: seq<Taksit>)
    requires forall t :: t in ts ==> t.tutar >= 0
    ensures SumTutar(ts) >= 0
  {
    if |ts| > 0 {
      SumTutarNonNegative(ts[1..]);
    }
  }

  lemma {:induction false} OfClassKeeps(ts: seq<Taksit>, bugun: Date, c: Sinif)
    ensures forall t :: t in OfClass(ts, bugun, c) ==> t in ts && SinifOf(t, bugun) == c
  {
    if |ts| > 0 {
      OfClassKeeps(ts[1..], bugun, c);
    }
  }

  /** With non-negative amounts the late total never exceeds the debt. */
  lemma GecikenWithinKalanBorc(ts: seq<Taksit>, bugun: Date)
    requires forall t :: t in ts ==> t.tutar >= 0
    ensures OzetOf(ts, bugun).gecikenTutar <= OzetOf(ts, bugun).kalanBorc
  {
    OzetAmounts(ts, bugun, |ts|);
    var k := OfClass(ts, bugun, Kalan);
    OfClassKeeps(ts, bugun, Kalan);
    SumTutarNonNegative(k);
  }

  /** The paid counter is positive exactly when some installment is paid. */
  lemma {:induction false} OdenenPositiveIff(ts: seq<Taksit>, bugun: Date)
    ensures OzetOf(ts, bugun).odenenTaksit > 0 <==> exists i :: 0 <= i < |ts| && ts[i].durum == Odendi
  {
    OzetPartition(ts, bugun, |ts|);
    OdenmisIffPaid(ts, bugun);
  }

  lemma {:induction false} OdenmisIffPaid(ts: seq<Taksit>, bugun: Date)
    ensures |OfClass(ts, bugun, Odenmis)| > 0 <==> exists i :: 0 <= i < |ts| && ts[i].durum == Odendi
  {
    if |ts| > 0 {
      OdenmisIffPaid(ts[1..], bugun);
      if ts[0].durum != Odendi {
        assert forall i :: 1 <= i < |ts| ==> ts[i] == ts[1..][i - 1];
      }
    }
  }

  // ---------------------------------------------------------------------------
  // `create`

  /** The fields `create` reads; `paraBirimi` is None when it was not sent. */
  datatype KrediData = KrediData(bankaId: Option<int>, krediTuru: string, anapara: int,
                                 faizOrani: int, vadeAy: nat, baslangic: Date,
                                 paraBirimi: Option<string>, notlar: Option<string>)

  /** The row `create` inserts, given the monthly installment. */
  function NewKredi(id: int, d: KrediData, aylikTaksit: int, userId: int): (k: Kredi)
    ensures k.durum == Aktif && k.id == id
    ensures k.toplamOdeme == aylikTaksit * d.vadeAy
    ensures k.paraBirimi == (if d.paraBirimi.None? then "TRY" else d.paraBirimi.value)
    ensures k.bankaId == OrNullInt(d.bankaId) && k.notlar == OrNullStr(d.notlar)
  {
    Kredi(id, OrNullInt(d.bankaId), d.krediTuru, d.anapara, d.faizOrani, d.vadeAy, d.baslangic,
          aylikTaksit, aylikTaksit * d.vadeAy,
          if d.paraBirimi.None? then "TRY" else d.paraBirimi.value,
          OrNullStr(d.notlar), Aktif, userId)
  }

  /** `update`: only the bank and the notes change. */
  function UpdatedKredi(k: Kredi, bankaId: Option<int>, notlar: Option<string>): (r: Kredi)
    ensures r.bankaId == OrNullInt(bankaId) && r.notlar == OrNullStr(notlar)
    ensures r.(bankaId := k.bankaId, notlar := k.notlar) == k
  {
    k.(bankaId := OrNullInt(bankaId), notlar := OrNullStr(notlar))
  }

  // ---------------------------------------------------------------------------
  // `getAll` filter and order normalisation

  datatype KrediFilters = KrediFilters(durum: Option<string>, krediTuru: Option<string>,
                                       bankaId: Option<int>, sort: string, order: string)

  datatype KrediCond = DurumEq(durum: string) | TuruEq(tur: string) | BankaEq(banka: int)

  /** The conditions `getAll` adds: an unknown status or type is ignored. */
  function KrediWhere(f: KrediFilters): (r: seq<KrediCond>)
    ensures forall d :: DurumEq(d) in r <==> f.durum == Some(d) && d in KrediDurumlari
    ensures forall t :: TuruEq(t) in r <==> f.krediTuru == Some(t) && t in KrediTurleri
    ensures forall b :: BankaEq(b) in r <==> f.bankaId == Some(b)
  {
    (if TruthyStr(f.durum) && f.durum.value in KrediDurumlari then [DurumEq(f.durum.value)] else [])
    + (if TruthyStr(f.krediTuru) && f.krediTuru.value in KrediTurleri then [TuruEq(f.krediTuru.value)] else [])
    + (if f.bankaId.Some? then [BankaEq(f.bankaId.value)] else [])
  }

  const KrediSortFields: seq<string> := ["baslangic_tarihi", "anapara", "created_at", "aylik_taksit"]

  function KrediSortField(sort: string): (r: string)
    ensures r in KrediSortFields
    ensures sort in KrediSortFields ==> r == sort
    ensures sort !in KrediSortFields ==> r == "baslangic_tarihi"
  {
    if sort in KrediSortFields then sort else "baslangic_tarihi"
  }

  /** `order.toLowerCase() === 'asc' ? 'ASC' : 'DESC'`. */
  predicate KrediSortAscending(order: string)
  {
    ToLower(order) == "asc"
  }

  /** Descending is the default: only an order spelling "asc" sorts upwards. */
  lemma AscOnlyForAsc(order: string)
    ensures order == "asc" || order == "ASC" || order == "Asc" ==> KrediSortAscending(order)
    ensures |order| != 3 ==> !KrediSortAscending(order)
    ensures !KrediSortAscending("desc") && !KrediSortAscending("")
  {
    assert ToLower("desc")[0] == 'd';
  }
}
