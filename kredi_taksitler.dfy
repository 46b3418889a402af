/** `backend/src/models/krediTaksitler.js`: what each payment operation's SQL
 *  `UPDATE` does to the installment table, as functions on the rows. The
 *  guards and the loan-status updates around them are the methods of
 *  KrediDb.KrediTablolari. */
module KrediTaksitler {
  import opened Wrappers
  import opened Dates
  import opened Krediler

  /** The position of the row with a given id (`getById`). */
  function Find(ts: seq<Taksit>, id: int): (r: Option<nat>)
    ensures r.Some? ==> r.value < |ts| && ts[r.value].id == id
    ensures r.None? ==> forall i :: 0 <= i < |ts| ==> ts[i].id != id
  {
    if |ts| == 0 then None
    else if ts[0].id == id then Some(0)
    else match Find(ts[1..], id)
      case None => None
      case Some(k) => Some(k + 1)
  }

  /** `odemeYap`'s update of one row: paid, with date and amount, and the note
   *  replaced only when one is given (`COALESCE(?, notlar)`). */
  function Pay(t: Taksit, tarih: Date, tutar: int, notlar: Option<string>): Taksit
  {
    t.(durum := Odendi, odemeTarihi := Some(tarih), odenenTutar := Some(tutar),
       notlar := if notlar.Some? then notlar else t.notlar)
  }

  function PayRows(ts: seq<Taksit>, id: int, tarih: Date, tutar: int, notlar: Option<string>): (r: seq<Taksit>)
    ensures |r| == |ts|
    ensures forall i :: 0 <= i < |ts| ==> r[i].id == ts[i].id && r[i].krediId == ts[i].krediId
    ensures forall i :: 0 <= i < |ts| && ts[i].id != id ==> r[i] == ts[i]
  {
    seq(|ts|, i requires 0 <= i < |ts| => if ts[i].id == id then Pay(ts[i], tarih, tutar, notlar) else ts[i])
  }

  /** `odemeIptal`'s update: late if the due date has passed, else waiting,
   *  with the payment date and amount cleared; the note stays. */
  function Unpay(t: Taksit, bugun: Date): Taksit
  {
    t.(durum := if Before(t.vadeTarihi, bugun) then Gecikti else Bekliyor,
       odemeTarihi := None, odenenTutar := None)
  }

  function CancelRows(ts: seq<Taksit>, id: int, bugun: Date): (r: seq<Taksit>)
    ensures |r| == |ts|
    ensures forall i :: 0 <= i < |ts| ==> r[i].id == ts[i].id && r[i].krediId == ts[i].krediId
    ensures forall i :: 0 <= i < |ts| && ts[i].id != id ==> r[i] == ts[i]
  {
    seq(|ts|, i requires 0 <= i < |ts| => if ts[i].id == id then Unpay(ts[i], bugun) else ts[i])
  }

  /** `erkenOdeme`'s update: every unpaid installment of the loan is paid in
   *  full on the given date with the given note. */
  function PayAllRows(ts: seq<Taksit>, krediId: int, tarih: Date, notlar: string): (r: seq<Taksit>)
    ensures |r| == |ts|
    ensures forall i :: 0 <= i < |ts| ==> r[i].id == ts[i].id && r[i].krediId == ts[i].krediId
    ensures forall i :: 0 <= i < |ts| && (ts[i].krediId != krediId || ts[i].durum == Odendi) ==> r[i] == ts[i]
  {
    seq(|ts|, i requires 0 <= i < |ts| =>
      if ts[i].krediId == krediId && ts[i].durum != Odendi
      then ts[i].(durum := Odendi, odemeTarihi := Some(tarih), odenenTutar := Some(ts[i].tutar), notlar := Some(notlar))
      else ts[i])
  }

  /** The rows `guncelleGecikenler` flips: waiting, overdue, of an active loan. */
  predicate LateCandidate(t: Taksit, krediler: map<int, Kredi>, bugun: Date)
  {
    t.durum == Bekliyor && Before(t.vadeTarihi, bugun)
    && t.krediId in krediler && krediler[t.krediId].durum == Aktif
  }

  function MarkLateRows(ts: seq<Taksit>, krediler: map<int, Kredi>, bugun: Date): (r: seq<Taksit>)
    ensures |r| == |ts|
    ensures forall i :: 0 <= i < |ts| ==> r[i].id == ts[i].id && r[i].krediId == ts[i].krediId
  {
    seq(|ts|, i requires 0 <= i < |ts| =>
      if LateCandidate(ts[i], krediler, bugun) then ts[i].(durum := Gecikti) else ts[i])
  }

  /** `result.changes` of that update. */
  function CountLate(ts: seq<Taksit>, krediler: map<int, Kredi>, bugun: Date): nat
  {
    if |ts| == 0 then 0
    else (if LateCandidate(ts[0], krediler, bugun) then 1 else 0) + CountLate(ts[1..], krediler, bugun)
  }

  /** The loan's installments not yet paid (`durum != 'odendi'`, which for
   *  the three statuses is `durum IN ('bekliyor', 'gecikti')`). */
  function UnpaidOf(ts: seq<Taksit>, krediId: int): seq<Taksit>
  {
    if |ts| == 0 then []
    else (if ts[0].krediId == krediId && ts[0].durum != Odendi then [ts[0]] else [])
         + UnpaidOf(ts[1..], krediId)
  }

  /** The rows of one loan (`WHERE kredi_id = ?`). */
  function RowsOf(ts: seq<Taksit>, krediId: int): (r: seq<Taksit>)
    ensures forall t :: t in r <==> t in ts && t.krediId == krediId
  {
    if |ts| == 0 then []
    else (if ts[0].krediId == krediId then [ts[0]] else []) + RowsOf(ts[1..], krediId)
  }

  /** The table after the loan's rows cascade away with it. */
  function Without(ts: seq<Taksit>, krediId: int): (r: seq<Taksit>)
    ensures forall t :: t in r <==> t in ts && t.krediId != krediId
    ensures |r| <= |ts|
  {
    if |ts| == 0 then []
    else (if ts[0].krediId != krediId then [ts[0]] else []) + Without(ts[1..], krediId)
  }

  /** The primary key: no two rows share an id. */
  predicate UniqueIds(ts: seq<Taksit>)
  {
    forall i, j :: 0 <= i < j < |ts| ==> ts[i].id != ts[j].id
  }

  lemma {:induction false} WithoutKeepsUnique(ts: seq<Taksit>, krediId: int)
    requires UniqueIds(ts)
    ensures UniqueIds(Without(ts, krediId))
  {
    if |ts| > 0 {
      var rest := Without(ts[1..], krediId);
      assert UniqueIds(ts[1..]) by {
        forall i, j | 0 <= i < j < |ts[1..]|
          ensures ts[1..][i].id != ts[1..][j].id
        {
          assert ts[1..][i] == ts[i + 1] && ts[1..][j] == ts[j + 1];
        }
      }
      WithoutKeepsUnique(ts[1..], krediId);
      if ts[0].krediId != krediId {
        forall j | 0 <= j < |rest|
          ensures rest[j].id != ts[0].id
        {
          assert rest[j] in ts[1..];
          var k :| 0 <= k < |ts[1..]| && ts[1..][k] == rest[j];
          assert ts[k + 1] == rest[j];
        }
        var r := [ts[0]] + rest;
        forall i, j | 0 <= i < j < |r|
          ensures r[i].id != r[j].id
        {
          assert r[j] == rest[j - 1];
          if i > 0 {
            assert r[i] == rest[i - 1];
          }
        }
      } else {
        assert Without(ts, krediId) == rest;
      }
    }
  }

  predicate AnyPaid(ts: seq<Taksit>, krediId: int)
  {
    exists i :: 0 <= i < |ts| && ts[i].krediId == krediId && ts[i].durum == Odendi
  }

  // ---------------------------------------------------------------------------
  // Properties

  lemma {:induction false} UnpaidOfEmptyIff(ts: seq<Taksit>, krediId: int)
    ensures |UnpaidOf(ts, krediId)| == 0 <==>
      forall i :: 0 <= i < |ts| && ts[i].krediId == krediId ==> ts[i].durum == Odendi
  {
    if |ts| > 0 {
      UnpaidOfEmptyIff(ts[1..], krediId);
      assert forall i :: 1 <= i < |ts| ==> ts[i] == ts[1..][i - 1];
    }
  }

  /** Paying and then cancelling a waiting, not yet due installment gives the
   *  table back, except that a note given with the payment stays. */
  lemma PayThenCancelRestores(ts: seq<Taksit>, id: int, tarih: Date, tutar: int,
                              notlar: Option<string>, bugun: Date)
    requires forall i :: 0 <= i < |ts| && ts[i].id == id ==>
      ts[i].durum == Bekliyor && !Before(ts[i].vadeTarihi, bugun)
      && ts[i].odemeTarihi.None? && ts[i].odenenTutar.None?
    ensures |CancelRows(PayRows(ts, id, tarih, tutar, notlar), id, bugun)| == |ts|
    ensures forall i :: 0 <= i < |ts| ==>
      CancelRows(PayRows(ts, id, tarih, tutar, notlar), id, bugun)[i]
      == ts[i].(notlar := PayRows(ts, id, tarih, tutar, notlar)[i].notlar)
    ensures notlar.None? ==> CancelRows(PayRows(ts, id, tarih, tutar, notlar), id, bugun) == ts
  {
    var r := CancelRows(PayRows(ts, id, tarih, tutar, notlar), id, bugun);
    if notlar.None? {
      assert forall i :: 0 <= i < |ts| ==> r[i] == ts[i];
    }
  }

  /** A cancelled payment leaves no paid installment that was not paid
   *  before, so a loan deletable before pay-then-cancel stays deletable. */
  lemma PayThenCancelAddsNoPaid(ts: seq<Taksit>, id: int, tarih: Date, tutar: int,
                                notlar: Option<string>, bugun: Date, krediId: int)
    ensures AnyPaid(CancelRows(PayRows(ts, id, tarih, tutar, notlar), id, bugun), krediId)
            ==> AnyPaid(ts, krediId)
  {
    var r := CancelRows(PayRows(ts, id, tarih, tutar, notlar), id, bugun);
    if AnyPaid(r, krediId) {
      var i :| 0 <= i < |r| && r[i].krediId == krediId && r[i].durum == Odendi;
      assert ts[i].id != id;
    }
  }

  /** After early payoff the loan has nothing left unpaid, and other loans'
   *  rows are untouched. */
  lemma PayAllClears(ts: seq<Taksit>, krediId: int, tarih: Date, notlar: string)
    ensures |UnpaidOf(PayAllRows(ts, krediId, tarih, notlar), krediId)| == 0
  {
    UnpaidOfEmptyIff(PayAllRows(ts, krediId, tarih, notlar), krediId);
  }

  /** Early payoff pays, for each row it changes, exactly that row's amount. */
  lemma PayAllPaysTutar(ts: seq<Taksit>, krediId: int, tarih: Date, notlar: string, i: int)
    requires 0 <= i < |ts| && ts[i].krediId == krediId && ts[i].durum != Odendi
    ensures PayAllRows(ts, krediId, tarih, notlar)[i].durum == Odendi
    ensures PayAllRows(ts, krediId, tarih, notlar)[i].odenenTutar == Some(ts[i].tutar)
    ensures OdenenKatki(PayAllRows(ts, krediId, tarih, notlar)[i]) == ts[i].tutar
  {
  }

  lemma {:induction false} CountLateZeroIff(ts: seq<Taksit>, krediler: map<int, Kredi>, bugun: Date)
    ensures CountLate(ts, krediler, bugun) == 0 <==>
      forall i :: 0 <= i < |ts| ==> !LateCandidate(ts[i], krediler, bugun)
  {
    if |ts| > 0 {
      CountLateZeroIff(ts[1..], krediler, bugun);
      assert forall i :: 1 <= i < |ts| ==> ts[i] == ts[1..][i - 1];
    }
  }

  /** Marking late rows only flips waiting, overdue rows of active loans, and
   *  a second run on the same day has nothing left to flip. */
  lemma MarkLateOnlyCandidates(ts: seq<Taksit>, krediler: map<int, Kredi>, bugun: Date)
    ensures forall i :: 0 <= i < |ts| ==>
      MarkLateRows(ts, krediler, bugun)[i]
      == (if LateCandidate(ts[i], krediler, bugun) then ts[i].(durum := Gecikti) else ts[i])
    ensures CountLate(MarkLateRows(ts, krediler, bugun), krediler, bugun) == 0
  {
    CountLateZeroIff(MarkLateRows(ts, krediler, bugun), krediler, bugun);
  }
}
