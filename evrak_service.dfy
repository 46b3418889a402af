/** `frontend/src/services/evraklar.ts`: the client's copy of the status
 *  table, its two helpers, and the request bodies of create/update. */
module EvrakService {
  import opened Wrappers
  import opened Js
  import Evraklar

  /** The client's own `DURUM_GECISLERI`; a status it does not list has no
   *  entry (`undefined`). */
  function Gecisler(d: string): Option<seq<string>>
  {
    if d == "portfoy" then Some(["bankada", "ciro"])
    else if d == "bankada" then Some(["tahsil", "karsiliksiz"])
    else if d == "ciro" then Some([])
    else if d == "tahsil" then Some([])
    else if d == "karsiliksiz" then Some(["tahsil"])
    else None
  }

  /** `getGecerliDurumlar`: the table row, or `[]` for an unknown status. */
  function GetGecerliDurumlar(mevcut: string): (r: seq<string>)
    ensures Gecisler(mevcut).Some? ==> r == Gecisler(mevcut).value
    ensures Gecisler(mevcut).None? ==> r == []
  {
    if Gecisler(mevcut).Some? then Gecisler(mevcut).value else []
  }

  /** `isDurumGecerli`: `?.includes(...) ?? false`. */
  function IsDurumGecerli(mevcut: string, yeni: string): (r: bool)
    ensures r <==> yeni in GetGecerliDurumlar(mevcut)
  {
    match Gecisler(mevcut)
    case Some(row) => yeni in row
    case None => false
  }

  /** `ciro` and `tahsil` offer no next status. */
  lemma TerminalRowsEmpty()
    ensures GetGecerliDurumlar("ciro") == [] && GetGecerliDurumlar("tahsil") == []
  {
  }

  /** No status may move to itself. */
  lemma NoSelfTransition(d: string)
    ensures !IsDurumGecerli(d, d)
  {
  }

  /** The client's table is the server's, row for row. */
  lemma TablesAgree(d: string)
    ensures GetGecerliDurumlar(d) == Evraklar.IzinliGecisler(d)
  {
  }

  /** So the client offers exactly the transitions the server accepts. */
  lemma ClientAgreesWithServer(mevcut: string, yeni: string)
    ensures IsDurumGecerli(mevcut, yeni) <==> Evraklar.ValidateDurumTransition(mevcut, yeni).Valid?
  {
    TablesAgree(mevcut);
    NoSelfTransition(mevcut);
  }

  /** The statuses `frontend/src/types/index.ts` declares, which are not
   *  the server's. */
  const TypesDurumlar: seq<string> := ["portfoy", "ciro", "tahsil", "odendi", "protestolu", "iade"]

  /** The shared type lists `odendi`, which the server refuses, and lacks
   *  `bankada` and `karsiliksiz`, which the server uses. */
  lemma TypesDisagreeWithServer()
    ensures "odendi" in TypesDurumlar && "odendi" !in Evraklar.GecerliDurumlar
    ensures "bankada" !in TypesDurumlar && "bankada" in Evraklar.GecerliDurumlar
    ensures Evraklar.ValidateDurumTransition("portfoy", "odendi") == Evraklar.Invalid("Geçersiz durum: odendi")
  {
    assert TypesDurumlar[3] == "odendi";
    assert Evraklar.GecerliDurumlar[1] == "bankada";
  }

  /** The form a page submits; `None` is an empty or absent field. */
  datatype FormData = FormData(
    evrakTipi: string, evrakNo: string, tutar: int, vadeTarihi: string,
    evrakTarihi: Option<string>, bankaAdi: Option<string>, bankaId: Option<int>,
    kesideci: Option<string>, cariId: Option<int>, durum: Option<string>,
    notlar: Option<string>, paraBirimi: Option<string>, dovizKuru: Option<int>)

  /** The body `createEvrak`/`updateEvrak` send: the form with falsy ids and
   *  rate made null and a missing currency made `TRY`. */
  function RequestBody(d: FormData): (b: Evraklar.EvrakData)
    ensures b.paraBirimi == Some(OrStr(d.paraBirimi, "TRY")) && b.paraBirimi.value != ""
    ensures b.cariId == OrNullInt(d.cariId) && b.bankaId == OrNullInt(d.bankaId)
    ensures b.dovizKuru == OrNullInt(d.dovizKuru)
    ensures b.evrakNo == d.evrakNo && b.tutar == d.tutar && b.durum == d.durum && b.kesideci == d.kesideci
  {
    Evraklar.EvrakData(d.evrakTipi, d.evrakNo, d.tutar, d.vadeTarihi, d.evrakTarihi, d.bankaAdi,
                       OrNullInt(d.bankaId), d.kesideci, OrNullInt(d.cariId), d.durum, d.notlar,
                       Some(OrStr(d.paraBirimi, "TRY")), OrNullInt(d.dovizKuru))
  }

  /** The form as the server would read it without the client's
   *  normalisation. */
  function Raw(d: FormData): Evraklar.EvrakData
  {
    Evraklar.EvrakData(d.evrakTipi, d.evrakNo, d.tutar, d.vadeTarihi, d.evrakTarihi, d.bankaAdi,
                       d.bankaId, d.kesideci, d.cariId, d.durum, d.notlar, d.paraBirimi, d.dovizKuru)
  }

  /** The client's defaults are the server's: the stored row is the same
   *  whether or not the body was normalised, on create and on update. */
  lemma BodyMatchesServerDefaults(id: int, d: FormData, userId: int, e: Evraklar.Evrak)
    ensures Evraklar.NewEvrak(id, RequestBody(d), userId) == Evraklar.NewEvrak(id, Raw(d), userId)
    ensures Evraklar.UpdatedEvrak(e, RequestBody(d)) == Evraklar.UpdatedEvrak(e, Raw(d))
  {
  }
}
