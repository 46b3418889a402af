/** `backend/src/routes/krediler.js`: the body rules of loan creation and
 *  update, the installment-belongs-to-loan guards in front of pay and
 *  cancel, the early-payoff note default and the upcoming-installments
 *  window. Responses are reduced to their status and message. */
module KrediRoutes {
  import opened Wrappers
  import opened Strings
  import opened Js
  import opened Dates
  import opened Krediler
  import opened KrediTaksitler
  import opened KrediDb

  /** A numeric body field as express-validator sees it: falsy or empty, not
   *  a number of the required kind, or a number in the field's unit (kuruş
   *  for `anapara`, hundredths of a percent for `faiz_orani`, months for
   *  `vade_ay`). */
  datatype NumField = Empty | NotNumber | Number(v: int)

  /** A date body field: not sent (or, where the rule says `checkFalsy`,
   *  falsy), text that is not ISO 8601, or the numbers of a `YYYY-MM-DD`
   *  text. Those numbers pass `isISO8601()` only when `IsoDay` holds. */
  datatype DateField = NoDate | BadDate | IsoDate(date: Date)

  /** What the non-strict `isISO8601()` says of a field that is present. */
  predicate IsoAccepted(f: DateField)
  {
    f.IsoDate? && IsoDay(f.date)
  }

  datatype KrediBody = KrediBody(bankaId: NumField, krediTuru: string, anapara: NumField,
                                 faizOrani: NumField, vadeAy: NumField, baslangic: DateField,
                                 paraBirimi: Option<string>, notlar: Option<string>)

  /** `.optional({ checkFalsy: true }).isInt({ min: 1 })` on `banka_id`. */
  function BankaIdErrors(f: NumField): seq<string>
  {
    if f.NotNumber? || (f.Number? && f.v < 1) then ["Geçersiz banka ID"] else []
  }

  /** `.optional({ checkFalsy: true }).trim().isLength({ max })` on notes. */
  function NotlarErrors(n: Option<string>, max: nat): seq<string>
  {
    if TruthyStr(n) && |Trim(n.value)| > max then ["Notlar çok uzun"] else []
  }

  /** The messages of `krediValidationRules`, field by field; a rule chain
   *  without `bail` reports every validator that fails, so an empty required
   *  field reports both "gerekli" and the range message. */
  function CreateErrors(b: KrediBody): seq<string>
  {
    BankaIdErrors(b.bankaId)
    + (if b.krediTuru == "" then ["Kredi türü gerekli"] else [])
    + (if b.krediTuru !in KrediTurleri then ["Kredi türü " + Join(KrediTurleri, ", ") + " olmalı"] else [])
    + (if b.anapara.Empty? then ["Anapara gerekli"] else [])
    + (if !(b.anapara.Number? && b.anapara.v >= 1) then ["Anapara 0'dan büyük olmalı"] else [])
    + (if b.faizOrani.Empty? then ["Faiz oranı gerekli"] else [])
    + (if !(b.faizOrani.Number? && 0 <= b.faizOrani.v <= 20000) then ["Faiz oranı 0-200 arasında olmalı"] else [])
    + (if b.vadeAy.Empty? then ["Vade süresi gerekli"] else [])
    + (if !(b.vadeAy.Number? && 1 <= b.vadeAy.v <= 360) then ["Vade süresi 1-360 ay arasında olmalı"] else [])
    + (if b.baslangic.NoDate? then ["Başlangıç tarihi gerekli"] else [])
    + (if !IsoAccepted(b.baslangic) then ["Geçersiz tarih formatı (YYYY-MM-DD)"] else [])
    + (if TruthyStr(b.paraBirimi) && b.paraBirimi.value !in ParaBirimleri
       then ["Para birimi " + Join(ParaBirimleri, ", ") + " olmalı"] else [])
    + NotlarErrors(b.notlar, 1000)
  }

  /** The bounds a new loan must meet. */
  predicate CreateBodyOk(b: KrediBody)
  {
    b.anapara.Number? && b.anapara.v >= 1
    && b.faizOrani.Number? && 0 <= b.faizOrani.v <= 20000
    && b.vadeAy.Number? && 1 <= b.vadeAy.v <= 360
    && b.krediTuru in KrediTurleri
    && IsoAccepted(b.baslangic)
    && !(b.bankaId.NotNumber? || (b.bankaId.Number? && b.bankaId.v < 1))
    && !(TruthyStr(b.paraBirimi) && b.paraBirimi.value !in ParaBirimleri)
    && !(TruthyStr(b.notlar) && |Trim(b.notlar.value)| > 1000)
  }

  /** No message is reported exactly when every bound holds: a principal of
   *  at least 0.01, a rate in [0, 200], a term of 1 to 360 months and a known
   *  loan type. */
  lemma CreateErrorsIff(b: KrediBody)
    ensures CreateErrors(b) == [] <==> CreateBodyOk(b)
  {
    assert "" !in KrediTurleri by {
      assert forall t :: t in KrediTurleri ==> |t| > 0;
    }
  }

  /** The validator's `.trim()` on a truthy note, as the handler receives it. */
  function TrimmedNote(n: Option<string>): (r: Option<string>)
    ensures !TruthyStr(n) ==> r == n
    ensures TruthyStr(n) ==> r == Some(Trim(n.value))
  {
    if TruthyStr(n) then Some(Trim(n.value)) else n
  }

  /** The data `POST /` hands to `create`. */
  function CreateData(b: KrediBody): (d: KrediData)
    requires CreateBodyOk(b)
    ensures d.anapara == b.anapara.v && d.faizOrani == b.faizOrani.v && d.vadeAy == b.vadeAy.v
    ensures d.krediTuru == b.krediTuru && d.baslangic == b.baslangic.date
  {
    KrediData(if b.bankaId.Number? then Some(b.bankaId.v) else None, b.krediTuru, b.anapara.v,
              b.faizOrani.v, b.vadeAy.v, b.baslangic.date, b.paraBirimi, TrimmedNote(b.notlar))
  }

  /** `POST /`: 400 with the messages, or 201 with the new loan. A start such
   *  as `2025-02-30` passes the check and is stored as written, while the
   *  schedule counts from the day `new Date` makes of it. */
  method PostKredi(db: KrediTablolari, b: KrediBody, aylikTaksit: int, userId: int)
    returns (status: int, errors: seq<string>)
    requires db.Valid()
    modifies db
    ensures db.Valid()
    ensures status == 400 <==> !CreateBodyOk(b)
    ensures status == 400 ==> errors == CreateErrors(b) && errors != []
                              && db.krediler == old(db.krediler) && db.taksitler == old(db.taksitler)
    ensures status == 201 ==> |db.krediler| == |old(db.krediler)| + 1
                              && |db.taksitler| == |old(db.taksitler)| + b.vadeAy.v
                              && db.taksitler[..|old(db.taksitler)|] == old(db.taksitler)
                              && forall i :: |old(db.taksitler)| <= i < |db.taksitler| ==>
                                   db.taksitler[i].vadeTarihi
                                   == AddMonths(FromIso(b.baslangic.date), i - |old(db.taksitler)| + 1)
    ensures status == 400 || status == 201
  {
    CreateErrorsIff(b);
    errors := CreateErrors(b);
    if errors != [] {
      return 400, errors;
    }
    var k := db.Create(CreateData(b), aylikTaksit, userId);
    status := 201;
  }

  datatype PutBody = PutBody(bankaId: NumField, notlar: Option<string>,
                             anapara: Option<int>, faizOrani: Option<int>, vadeAy: Option<int>)

  /** `param('id').isInt({ min: 1 })`, on the path's loan id. */
  function IdErrors(id: int, message: string): seq<string>
  {
    if id < 1 then [message] else []
  }

  /** The messages of `krediUpdateValidationRules` and the path rule. */
  function PutErrors(id: int, b: PutBody): seq<string>
  {
    IdErrors(id, "Geçersiz kredi ID") + BankaIdErrors(b.bankaId) + NotlarErrors(b.notlar, 1000)
  }

  /** `PUT /:id`: only `banka_id` and `notlar` are read from the body, so
   *  principal, rate, term, status and installments never change. */
  method PutKredi(db: KrediTablolari, id: int, b: PutBody) returns (status: int)
    requires db.Valid()
    modifies db
    ensures db.Valid()
    ensures status == 400 <==> PutErrors(id, b) != []
    ensures status == 404 <==> status != 400 && id !in old(db.krediler)
    ensures db.taksitler == old(db.taksitler) && db.krediler.Keys == old(db.krediler).Keys
    ensures forall k :: k in db.krediler ==>
      db.krediler[k].anapara == old(db.krediler)[k].anapara
      && db.krediler[k].faizOrani == old(db.krediler)[k].faizOrani
      && db.krediler[k].vadeAy == old(db.krediler)[k].vadeAy
      && db.krediler[k].durum == old(db.krediler)[k].durum
      && db.krediler[k].toplamOdeme == old(db.krediler)[k].toplamOdeme
    ensures status == 200 ==> db.krediler[id].notlar == OrNullStr(TrimmedNote(b.notlar))
  {
    if PutErrors(id, b) != [] {
      return 400;
    }
    var bankaId := if b.bankaId.Number? then Some(b.bankaId.v) else None;
    var r := db.Update(id, bankaId, TrimmedNote(b.notlar));
    status := if r.None? then 404 else 200;
  }

  /** The guard in front of pay and cancel: the installment must exist (404)
   *  and belong to the loan in the path (400). */
  function OwnershipStatus(ts: seq<Taksit>, krediId: int, taksitId: int): (s: int)
    ensures s == 404 <==> RowById(ts, taksitId).None?
    ensures s == 400 <==> RowById(ts, taksitId).Some? && RowById(ts, taksitId).value.krediId != krediId
    ensures s == 0 <==> RowById(ts, taksitId).Some? && RowById(ts, taksitId).value.krediId == krediId
  {
    match RowById(ts, taksitId)
    case None => 404
    case Some(t) => if t.krediId != krediId then 400 else 0
  }

  /** The body of a payment. Its rules are `.optional()` without
   *  `checkFalsy`, so `Empty` and `NoDate` mean "not sent"; a sent empty or
   *  null value is `NotNumber` or `BadDate`. */
  datatype OdemeBody = OdemeBody(odemeTarihi: DateField, odenenTutar: NumField, notlar: Option<string>)

  /** An optional date rule: absent, or accepted by `isISO8601()`. */
  function OdemeTarihiErrors(f: DateField): seq<string>
  {
    if !f.NoDate? && !IsoAccepted(f) then ["Geçersiz tarih formatı (YYYY-MM-DD)"] else []
  }

  /** The path and body rules of `PATCH …/ode`, in their declared order:
   *  both ids at least 1, an ISO payment date, a paid amount of at least
   *  0.01 and a trimmed note of at most 500 characters. */
  function OdeErrors(krediId: int, taksitId: int, b: OdemeBody): seq<string>
  {
    IdErrors(krediId, "Geçersiz kredi ID") + IdErrors(taksitId, "Geçersiz taksit ID")
    + OdemeTarihiErrors(b.odemeTarihi)
    + (if b.odenenTutar.NotNumber? || (b.odenenTutar.Number? && b.odenenTutar.v < 1)
       then ["Ödenen tutar 0'dan büyük olmalı"] else [])
    + NotlarErrors(b.notlar, 500)
  }

  /** The date and amount `odemeYap` receives: the value sent, if any. */
  function SentDate(f: DateField): Option<Date>
  {
    if f.IsoDate? then Some(f.date) else None
  }

  function SentAmount(f: NumField): Option<int>
  {
    if f.Number? then Some(f.v) else None
  }

  /** `PATCH /:id/taksitler/:taksitId/ode`: the rules answer 400 before any
   *  lookup, then the installment must exist (404) and belong to the loan
   *  (400) before `odemeYap` runs. */
  method OdeRoute(db: KrediTablolari, krediId: int, taksitId: int, b: OdemeBody, bugun: Date)
    returns (status: int, message: string, details: seq<string>)
    requires db.Valid()
    modifies db
    ensures db.Valid()
    ensures OdeErrors(krediId, taksitId, b) != [] ==>
      status == 400 && message == "Validation hatası" && details == OdeErrors(krediId, taksitId, b)
    ensures status == 404 <==> OdeErrors(krediId, taksitId, b) == [] && RowById(old(db.taksitler), taksitId).None?
    ensures OdeErrors(krediId, taksitId, b) == [] && OwnershipStatus(old(db.taksitler), krediId, taksitId) == 400
            ==> status == 400 && message == "Bu taksit belirtilen krediye ait değil"
    ensures status == 200 <==> OdeErrors(krediId, taksitId, b) == []
                               && OwnershipStatus(old(db.taksitler), krediId, taksitId) == 0
                               && Payable(old(db.krediler), old(db.taksitler), taksitId)
    ensures status == 200 ==>
      db.taksitler == PayRows(old(db.taksitler), taksitId,
                              if b.odemeTarihi.IsoDate? then b.odemeTarihi.date else bugun,
                              if b.odenenTutar.Number? then b.odenenTutar.v
                              else RowById(old(db.taksitler), taksitId).value.tutar,
                              OrNullStr(TrimmedNote(b.notlar)))
    ensures status != 200 ==> db.krediler == old(db.krediler) && db.taksitler == old(db.taksitler)
  {
    details := OdeErrors(krediId, taksitId, b);
    if details != [] {
      return 400, "Validation hatası", details;
    }
    var guard := OwnershipStatus(db.taksitler, krediId, taksitId);
    if guard == 404 {
      return 404, "Taksit bulunamadı", [];
    }
    if guard == 400 {
      return 400, "Bu taksit belirtilen krediye ait değil", [];
    }
    var r := db.OdemeYap(taksitId, SentDate(b.odemeTarihi), SentAmount(b.odenenTutar), TrimmedNote(b.notlar), bugun);
    if r.Basarisiz? {
      return 400, r.message, [];
    }
    status, message := 200, r.message;
  }

  /** The path rules of `PATCH …/iptal`. */
  function IptalErrors(krediId: int, taksitId: int): seq<string>
  {
    IdErrors(krediId, "Geçersiz kredi ID") + IdErrors(taksitId, "Geçersiz taksit ID")
  }

  /** `PATCH /:id/taksitler/:taksitId/iptal`. */
  method IptalRoute(db: KrediTablolari, krediId: int, taksitId: int, bugun: Date)
    returns (status: int, message: string, details: seq<string>)
    requires db.Valid()
    modifies db
    ensures db.Valid()
    ensures IptalErrors(krediId, taksitId) != [] ==>
      status == 400 && message == "Validation hatası" && details == IptalErrors(krediId, taksitId)
    ensures status == 404 <==> IptalErrors(krediId, taksitId) == [] && RowById(old(db.taksitler), taksitId).None?
    ensures IptalErrors(krediId, taksitId) == [] && OwnershipStatus(old(db.taksitler), krediId, taksitId) == 400
            ==> status == 400 && message == "Bu taksit belirtilen krediye ait değil"
    ensures status == 200 <==> IptalErrors(krediId, taksitId) == []
                               && OwnershipStatus(old(db.taksitler), krediId, taksitId) == 0
                               && RowById(old(db.taksitler), taksitId).value.durum == Odendi
    ensures status == 200 ==> db.taksitler == CancelRows(old(db.taksitler), taksitId, bugun)
    ensures status != 200 ==> db.krediler == old(db.krediler) && db.taksitler == old(db.taksitler)
  {
    details := IptalErrors(krediId, taksitId);
    if details != [] {
      return 400, "Validation hatası", details;
    }
    var guard := OwnershipStatus(db.taksitler, krediId, taksitId);
    if guard == 404 {
      return 404, "Taksit bulunamadı", [];
    }
    if guard == 400 {
      return 400, "Bu taksit belirtilen krediye ait değil", [];
    }
    var r := db.OdemeIptal(taksitId, bugun);
    if r.Basarisiz? {
      return 400, r.message, [];
    }
    status, message := 200, r.message;
  }

  /** The path and body rules of `POST …/erken-odeme`. */
  function ErkenOdemeErrors(krediId: int, odemeTarihi: DateField, notlar: Option<string>): seq<string>
  {
    IdErrors(krediId, "Geçersiz kredi ID") + OdemeTarihiErrors(odemeTarihi) + NotlarErrors(notlar, 500)
  }

  /** `POST /:id/erken-odeme`: after the rules, a missing note becomes
   *  "Erken ödeme". */
  method ErkenOdemeRoute(db: KrediTablolari, krediId: int, odemeTarihi: DateField,
                         notlar: Option<string>, bugun: Date)
    returns (status: int, message: string, details: seq<string>)
    requires db.Valid()
    modifies db
    ensures db.Valid()
    ensures status == 200 || status == 400
    ensures ErkenOdemeErrors(krediId, odemeTarihi, notlar) != [] ==>
      status == 400 && message == "Validation hatası" && details == ErkenOdemeErrors(krediId, odemeTarihi, notlar)
    ensures status == 200 <==> ErkenOdemeErrors(krediId, odemeTarihi, notlar) == []
                               && krediId in old(db.krediler) && old(db.krediler)[krediId].durum == Aktif
                               && |UnpaidOf(old(db.taksitler), krediId)| > 0
    ensures status == 200 ==>
      db.taksitler == PayAllRows(old(db.taksitler), krediId,
                                 if odemeTarihi.IsoDate? then odemeTarihi.date else bugun,
                                 OrStr(TrimmedNote(notlar), "Erken ödeme"))
    ensures status == 400 ==> db.krediler == old(db.krediler) && db.taksitler == old(db.taksitler)
  {
    details := ErkenOdemeErrors(krediId, odemeTarihi, notlar);
    if details != [] {
      return 400, "Validation hatası", details;
    }
    var r := db.ErkenOdeme(krediId, SentDate(odemeTarihi), Some(OrStr(TrimmedNote(notlar), "Erken ödeme")), bugun);
    if r.ErkenHata? {
      return 400, r.message, [];
    }
    status, message := 200, r.message;
  }

  /** `getYaklasan(gun)`: waiting installments of active loans due from today
   *  up to `gun` days ahead. */
  predicate Upcoming(t: Taksit, krediler: map<int, Kredi>, bugun: Date, gun: nat)
  {
    t.krediId in krediler && krediler[t.krediId].durum == Aktif && t.durum == Bekliyor
    && !Before(t.vadeTarihi, bugun) && !Before(AddDays(bugun, gun), t.vadeTarihi)
  }

  function Yaklasan(ts: seq<Taksit>, krediler: map<int, Kredi>, bugun: Date, gun: nat): (r: seq<Taksit>)
    ensures forall t :: t in r <==> t in ts && Upcoming(t, krediler, bugun, gun)
  {
    if |ts| == 0 then []
    else (if Upcoming(ts[0], krediler, bugun, gun) then [ts[0]] else [])
         + Yaklasan(ts[1..], krediler, bugun, gun)
  }

  datatype YaklasanYanit = GunHatasi
                         | YaklasanListe(gunSayisi: nat, toplamAdet: nat, toplamTutar: int, taksitler: seq<Taksit>)

  /** `GET /taksitler/yaklasan`: `gun` defaults to 7 and must lie in 1..90. */
  function YaklasanRoute(gun: Option<int>, ts: seq<Taksit>, krediler: map<int, Kredi>, bugun: Date)
    : (r: YaklasanYanit)
    ensures r.GunHatasi? <==> gun.Some? && !(1 <= gun.value <= 90)
    ensures r.YaklasanListe? ==>
      r.gunSayisi == (if gun.Some? then gun.value else 7)
      && 1 <= r.gunSayisi <= 90
      && r.toplamAdet == |r.taksitler|
      && forall t :: t in r.taksitler <==> t in ts && Upcoming(t, krediler, bugun, r.gunSayisi)
  {
    if gun.Some? && !(1 <= gun.value <= 90) then GunHatasi
    else
      var n: nat := if gun.Some? then gun.value else 7;
      var liste := Yaklasan(ts, krediler, bugun, n);
      YaklasanListe(n, |liste|, SumTutar(liste), liste)
  }
}
