/** `backend/src/models/evraklar.js`: cheques and bills (evrak), their status
 *  state machine, the movement log (evrak_hareketleri) and the photo rows
 *  (evrak_fotograflar) that cascade with an evrak. */
module Evraklar {
  import opened Wrappers
  import opened Strings
  import opened Js
  import Pagination
  import Upload

  const GecerliDurumlar: seq<string> := ["portfoy", "bankada", "ciro", "tahsil", "karsiliksiz"]

  /** `DURUM_GECISLERI[eski] || []`: the allowed targets of a status; a key the
   *  table does not hold has none. */
  function IzinliGecisler(eski: string): seq<string>
  {
    if eski == "portfoy" then ["bankada", "ciro"]
    else if eski == "bankada" then ["tahsil", "karsiliksiz"]
    else if eski == "karsiliksiz" then ["tahsil"]
    else []
  }

  datatype Validation = Valid | Invalid(message: string)

  function SonDurumMesaji(eski: string): string
  {
    "'" + eski + "' son durumdur, değiştirilemez"
  }

  /** The refusal of a forbidden edge, listing the allowed targets. */
  function GecisYasakMesaji(eski: string, yeni: string): string
  {
    "'" + eski + "' durumundan '" + yeni + "' durumuna geçiş yapılamaz. İzin verilen geçişler: "
    + Join(IzinliGecisler(eski), ", ")
  }

  /** `validateDurumTransition`: same status, unknown target, terminal source
   *  and a forbidden edge are rejected, in that order. */
  function ValidateDurumTransition(eski: string, yeni: string): (v: Validation)
    ensures v.Valid? <==> eski != yeni && yeni in IzinliGecisler(eski)
    ensures eski == yeni ==> v == Invalid("Evrak zaten bu durumda")
    ensures eski != yeni && yeni !in GecerliDurumlar ==> v == Invalid("Geçersiz durum: " + yeni)
  {
    if eski == yeni then Invalid("Evrak zaten bu durumda")
    else if yeni !in GecerliDurumlar then Invalid("Geçersiz durum: " + yeni)
    else if yeni !in IzinliGecisler(eski) then
      if |IzinliGecisler(eski)| == 0 then Invalid(SonDurumMesaji(eski))
      else Invalid(GecisYasakMesaji(eski, yeni))
    else Valid
  }

  /** Every target the table allows is itself a valid status. */
  lemma TableTargetsValid(eski: string)
    ensures forall y :: y in IzinliGecisler(eski) ==> y in GecerliDurumlar
  {
  }

  /** `ciro` and `tahsil` are terminal: leaving them to any other valid status
   *  is refused with the "son durumdur" message. */
  lemma TerminalStates(eski: string, yeni: string)
    requires eski == "ciro" || eski == "tahsil"
    requires yeni in GecerliDurumlar && yeni != eski
    ensures ValidateDurumTransition(eski, yeni) == Invalid(SonDurumMesaji(eski))
  {
  }

  /** The cases the API test exercises: `portfoy -> bankada -> tahsil` is
   *  accepted, `bankada -> ciro` is a forbidden edge and `tahsil -> bankada`
   *  leaves a terminal status. */
  lemma ApiTestAccepted()
    ensures ValidateDurumTransition("portfoy", "bankada") == Valid
    ensures ValidateDurumTransition("bankada", "tahsil") == Valid
  {
  }

  lemma ApiTestForbiddenEdge()
    ensures ValidateDurumTransition("bankada", "ciro") == Invalid(GecisYasakMesaji("bankada", "ciro"))
    ensures Join(IzinliGecisler("bankada"), ", ") == "tahsil, karsiliksiz"
  {
    assert "bankada" != "ciro" by { assert "bankada"[0] != "ciro"[0]; }
    assert "ciro" == GecerliDurumlar[2];
    assert "bankada" != "portfoy" by { assert "bankada"[0] != "portfoy"[0]; }
    var izinli := IzinliGecisler("bankada");
    assert izinli == ["tahsil", "karsiliksiz"];
    assert "ciro" !in izinli by {
      assert "ciro"[0] != "tahsil"[0] && "ciro"[0] != "karsiliksiz"[0];
    }
    assert Join(izinli, ", ") == "tahsil, karsiliksiz" by {
      assert Join(izinli[1..], ", ") == "karsiliksiz";
    }
  }

  lemma ApiTestTerminal()
    ensures ValidateDurumTransition("tahsil", "bankada") == Invalid(SonDurumMesaji("tahsil"))
  {
    assert "tahsil" != "bankada" by { assert "tahsil"[0] != "bankada"[0]; }
    assert "bankada" == GecerliDurumlar[1];
    assert IzinliGecisler("tahsil") == [];
  }

  /** Longest remaining path length of each status. */
  function Rank(d: string): nat
  {
    if d == "portfoy" then 3 else if d == "bankada" then 2 else if d == "karsiliksiz" then 1 else 0
  }

  /** A sequence of statuses in which each step is an allowed transition. */
  predicate IsPath(p: seq<string>)
  {
    forall i :: 0 <= i < |p| - 1 ==> ValidateDurumTransition(p[i], p[i + 1]).Valid?
  }

  lemma {:induction false} PathRank(p: seq<string>)
    requires |p| > 0 && IsPath(p)
    ensures Rank(p[0]) >= Rank(p[|p| - 1]) + (|p| - 1)
    decreases |p|
  {
    if |p| > 1 {
      assert ValidateDurumTransition(p[0], p[1]).Valid?;
      PathRank(p[1..]);
    }
  }

  /** The graph is acyclic and shallow: every path has at most 3 steps, and a
   *  status with no way out is `ciro`, `tahsil` or not a status at all. */
  lemma PathsAreShort(p: seq<string>)
    requires |p| > 0 && IsPath(p)
    ensures |p| <= 4
    ensures forall i, j :: 0 <= i < j < |p| ==> p[i] != p[j]
  {
    PathRank(p);
    forall i, j | 0 <= i < j < |p| ensures p[i] != p[j] {
      PathRank(p[i..j + 1]);
    }
  }

  lemma DeadEndsAreTerminal(d: string)
    requires d in GecerliDurumlar && IzinliGecisler(d) == []
    ensures d == "ciro" || d == "tahsil"
  {
  }

  // ---------------------------------------------------------------- rows

  datatype Evrak = Evrak(
    id: int, evrakTipi: string, evrakNo: string, tutar: int, vadeTarihi: string,
    evrakTarihi: Option<string>, bankaAdi: Option<string>, bankaId: Option<int>,
    kesideci: string, cariId: Option<int>, durum: string, notlar: Option<string>,
    paraBirimi: string, dovizKuru: Option<int>, createdBy: int)

  /** The fields a caller passes to `create`/`update`; `None` is an absent key.
   *  `tutar` is in kuruş and `dovizKuru` in ten-thousandths. */
  datatype EvrakData = EvrakData(
    evrakTipi: string, evrakNo: string, tutar: int, vadeTarihi: string,
    evrakTarihi: Option<string>, bankaAdi: Option<string>, bankaId: Option<int>,
    kesideci: Option<string>, cariId: Option<int>, durum: Option<string>,
    notlar: Option<string>, paraBirimi: Option<string>, dovizKuru: Option<int>)

  datatype Hareket = Hareket(evrakId: int, eskiDurum: Option<string>, yeniDurum: string,
                             aciklama: Option<string>, createdBy: int)

  /** A row of `evrak_fotograflar`: the processed upload and its owner. */
  datatype Fotograf = Fotograf(evrakId: int, file: Upload.ProcessedFile, createdBy: int)

  /** The row `create` inserts: `durum` defaults to `portfoy` when the key is
   *  absent, falsy optional fields become null, `kesideci` becomes `''` and
   *  `para_birimi` becomes `TRY`. */
  function NewEvrak(id: int, d: EvrakData, userId: int): Evrak
  {
    Evrak(id, d.evrakTipi, d.evrakNo, d.tutar, d.vadeTarihi, OrNullStr(d.evrakTarihi),
          OrNullStr(d.bankaAdi), OrNullInt(d.bankaId), OrStr(d.kesideci, ""), OrNullInt(d.cariId),
          if d.durum.Some? then d.durum.value else "portfoy",
          OrNullStr(d.notlar), OrStr(d.paraBirimi, "TRY"), OrNullInt(d.dovizKuru), userId)
  }

  /** The row `update` writes: every field from `d` with the same defaults,
   *  except `durum`, `id` and `created_by`, which stay. */
  function UpdatedEvrak(e: Evrak, d: EvrakData): Evrak
  {
    Evrak(e.id, d.evrakTipi, d.evrakNo, d.tutar, d.vadeTarihi, OrNullStr(d.evrakTarihi),
          OrNullStr(d.bankaAdi), OrNullInt(d.bankaId), OrStr(d.kesideci, ""), OrNullInt(d.cariId),
          e.durum, OrNullStr(d.notlar), OrStr(d.paraBirimi, "TRY"), OrNullInt(d.dovizKuru), e.createdBy)
  }

  lemma CreateDefaults(id: int, d: EvrakData, userId: int)
    ensures d.durum.None? ==> NewEvrak(id, d, userId).durum == "portfoy"
    ensures !TruthyStr(d.paraBirimi) ==> NewEvrak(id, d, userId).paraBirimi == "TRY"
    ensures !TruthyInt(d.cariId) ==> NewEvrak(id, d, userId).cariId.None?
    ensures !TruthyInt(d.bankaId) ==> NewEvrak(id, d, userId).bankaId.None?
    ensures !TruthyInt(d.dovizKuru) ==> NewEvrak(id, d, userId).dovizKuru.None?
  {
  }

  /** `update` keeps the status whatever the data says, and applying the same
   *  data twice gives the same row. */
  lemma UpdateKeepsDurum(e: Evrak, d: EvrakData)
    ensures UpdatedEvrak(e, d).durum == e.durum && UpdatedEvrak(e, d).id == e.id
    ensures UpdatedEvrak(UpdatedEvrak(e, d), d) == UpdatedEvrak(e, d)
  {
  }

  /** `banka_adi_display`: the joined bank name when `banka_id` is set and the
   *  join found one, else the legacy `banka_adi || null`. */
  function BankaAdiDisplay(e: Evrak, bankaAdlari: map<int, string>): (r: Option<string>)
    ensures r.Some? ==> r.value != ""
    ensures (e.bankaId.Some? && e.bankaId.value != 0 && e.bankaId.value in bankaAdlari
             && bankaAdlari[e.bankaId.value] != "") ==> r == Some(bankaAdlari[e.bankaId.value])
    ensures (e.bankaId.None? || e.bankaId.value !in bankaAdlari) ==> r == OrNullStr(e.bankaAdi)
  {
    if e.bankaId.Some? && e.bankaId.value != 0 && e.bankaId.value in bankaAdlari
       && bankaAdlari[e.bankaId.value] != ""
    then Some(bankaAdlari[e.bankaId.value])
    else OrNullStr(e.bankaAdi)
  }

  // ------------------------------------------------------------- getAll

  /** The query string of the list endpoint; `None` is an absent parameter. */
  datatype Filters = Filters(
    durum: Option<string>, evrakTipi: Option<string>, vadeBaslangic: Option<string>,
    vadeBitis: Option<string>, tutarMin: Option<string>, tutarMax: Option<string>,
    search: Option<string>, cariId: Option<string>,
    sort: string, order: string, page: int, limit: int)

  /** One `AND` term of the WHERE clause and its parameters. */
  datatype Cond =
    | DurumIn(durumlar: seq<string>)
    | TipiEq(tip: string)
    | VadeFrom(from: string)
    | VadeTo(to: string)
    | TutarMin(raw: string)
    | TutarMax(raw: string)
    | Search(pattern: string)
    | CariEq(raw: string)

  function TrimAll(parts: seq<string>): (r: seq<string>)
    ensures |r| == |parts| && forall i :: 0 <= i < |r| ==> r[i] == Trim(parts[i])
  {
    if parts == [] then [] else [Trim(parts[0])] + TrimAll(parts[1..])
  }

  function KeepValid(ds: seq<string>): (r: seq<string>)
    ensures forall d :: d in r <==> d in ds && d in GecerliDurumlar
    ensures |r| <= |ds|
  {
    if ds == [] then []
    else (if ds[0] in GecerliDurumlar then [ds[0]] else []) + KeepValid(ds[1..])
  }

  /** `durum.split(',').map(trim).filter(valid)`. */
  function DurumList(durum: string): (r: seq<string>)
    ensures forall d :: d in r <==> d in GecerliDurumlar && d in TrimAll(Split(durum, ','))
  {
    KeepValid(TrimAll(Split(durum, ',')))
  }

  /** Parameters that hold a value at all (`!== undefined && !== null && !== ''`). */
  predicate Present(v: Option<string>)
  {
    v.Some? && v.value != ""
  }

  function DurumTerm(f: Filters): seq<Cond>
  {
    if Present(f.durum) && DurumList(f.durum.value) != [] then [DurumIn(DurumList(f.durum.value))] else []
  }

  function TipiTerm(f: Filters): seq<Cond>
  {
    if f.evrakTipi.Some? && (f.evrakTipi.value == "cek" || f.evrakTipi.value == "senet") then [TipiEq(f.evrakTipi.value)] else []
  }

  function TextTerm(v: Option<string>, mk: string -> Cond): seq<Cond>
  {
    if Present(v) then [mk(v.value)] else []
  }

  /** The terms of the WHERE clause `getAll` builds, in the order it appends
   *  them. */
  function WhereConds(f: Filters): seq<Cond>
  {
    DurumTerm(f) + TipiTerm(f)
    + TextTerm(f.vadeBaslangic, v => VadeFrom(v)) + TextTerm(f.vadeBitis, v => VadeTo(v))
    + TextTerm(f.tutarMin, v => TutarMin(v)) + TextTerm(f.tutarMax, v => TutarMax(v))
    + TextTerm(f.search, v => Search("%" + v + "%")) + TextTerm(f.cariId, v => CariEq(v))
  }

  lemma InWhere(f: Filters, c: Cond)
    ensures c in WhereConds(f) <==>
      c in DurumTerm(f) || c in TipiTerm(f)
      || c in TextTerm(f.vadeBaslangic, v => VadeFrom(v)) || c in TextTerm(f.vadeBitis, v => VadeTo(v))
      || c in TextTerm(f.tutarMin, v => TutarMin(v)) || c in TextTerm(f.tutarMax, v => TutarMax(v))
      || c in TextTerm(f.search, v => Search("%" + v + "%")) || c in TextTerm(f.cariId, v => CariEq(v))
  {
  }

  /** The `durum` filter adds one `IN` term, over the trimmed valid statuses,
   *  exactly when that list is not empty. */
  lemma WhereDurum(f: Filters)
    ensures (exists ds :: DurumIn(ds) in WhereConds(f)) <==> Present(f.durum) && DurumList(f.durum.value) != []
    ensures forall ds :: DurumIn(ds) in WhereConds(f) ==> ds == DurumList(f.durum.value) && ds != []
  {
    if Present(f.durum) && DurumList(f.durum.value) != [] {
      var ds := DurumList(f.durum.value);
      DurumInYalniz(f, ds);
      DurumTermIcinde(f, ds);
      assert DurumIn(ds) in WhereConds(f);
    }
    forall ds | DurumIn(ds) in WhereConds(f)
      ensures Present(f.durum) && DurumList(f.durum.value) != [] && ds == DurumList(f.durum.value)
    {
      DurumInYalniz(f, ds);
      DurumTermIcinde(f, ds);
    }
  }

  lemma DurumTermIcinde(f: Filters, ds: seq<string>)
    ensures DurumIn(ds) in DurumTerm(f) <==>
      Present(f.durum) && DurumList(f.durum.value) != [] && ds == DurumList(f.durum.value)
  {
  }

  /** Only the `durum` term of the clause is an `IN` term. */
  lemma DurumInYalniz(f: Filters, ds: seq<string>)
    ensures DurumIn(ds) in WhereConds(f) <==> DurumIn(ds) in DurumTerm(f)
  {
    var c := DurumIn(ds);
    InWhere(f, c);
    assert c !in TipiTerm(f);
    TextTermIcinde(f.vadeBaslangic, v => VadeFrom(v), c);
    TextTermIcinde(f.vadeBitis, v => VadeTo(v), c);
    TextTermIcinde(f.tutarMin, v => TutarMin(v), c);
    TextTermIcinde(f.tutarMax, v => TutarMax(v), c);
    TextTermIcinde(f.search, v => Search("%" + v + "%"), c);
    TextTermIcinde(f.cariId, v => CariEq(v), c);
  }

  lemma TextTermIcinde(v: Option<string>, mk: string -> Cond, c: Cond)
    ensures c in TextTerm(v, mk) <==> Present(v) && c == mk(v.value)
  {
  }

  /** `evrak_tipi` filters only for `cek` or `senet`. */
  lemma WhereTipi(f: Filters, t: string)
    ensures TipiEq(t) in WhereConds(f) <==> f.evrakTipi == Some(t) && (t == "cek" || t == "senet")
  {
    InWhere(f, TipiEq(t));
  }

  /** The date and amount bounds are added exactly when given non-empty. */
  lemma WhereBounds(f: Filters, v: string)
    ensures VadeFrom(v) in WhereConds(f) <==> f.vadeBaslangic == Some(v) && v != ""
    ensures VadeTo(v) in WhereConds(f) <==> f.vadeBitis == Some(v) && v != ""
    ensures TutarMin(v) in WhereConds(f) <==> f.tutarMin == Some(v) && v != ""
    ensures TutarMax(v) in WhereConds(f) <==> f.tutarMax == Some(v) && v != ""
  {
    InWhere(f, VadeFrom(v));
    InWhere(f, VadeTo(v));
    InWhere(f, TutarMin(v));
    InWhere(f, TutarMax(v));
  }

  /** A search text becomes one `%text%` LIKE pattern; `cari_id` filters by
   *  equality. */
  lemma WhereSearchCari(f: Filters, v: string)
    ensures Search(v) in WhereConds(f) <==> Present(f.search) && v == "%" + f.search.value + "%"
    ensures CariEq(v) in WhereConds(f) <==> f.cariId == Some(v) && v != ""
  {
    InWhere(f, Search(v));
    InWhere(f, CariEq(v));
  }

  const AllowedSortFields: seq<string> := ["vade_tarihi", "tutar", "created_at", "evrak_no"]

  /** The ORDER BY column: an allowed field, else `vade_tarihi`. */
  function SortField(sort: string): (r: string)
    ensures r in AllowedSortFields
    ensures sort in AllowedSortFields ==> r == sort
  {
    if sort in AllowedSortFields then sort else "vade_tarihi"
  }

  /** `order.toLowerCase() === 'desc'`; everything else sorts ascending. */
  function SortDescending(order: string): (r: bool)
    ensures r <==> ToLower(order) == "desc"
  {
    ToLower(order) == "desc"
  }

  lemma DescOnlyForDesc()
    ensures SortDescending("desc") && SortDescending("DESC") && !SortDescending("asc")
    ensures !SortDescending("")
  {
    assert ToLower("DESC") == "desc";
  }

  datatype PageInfo = PageInfo(page: int, limit: int, total: nat, totalPages: nat, offset: int)

  /** The `pagination` object and the OFFSET of the data query; the route
   *  guarantees `limit` in 1..100. */
  function Paginate(total: nat, page: int, limit: int): (p: PageInfo)
    requires limit >= 1
    ensures p.totalPages * limit >= total && (p.totalPages == 0 || (p.totalPages - 1) * limit < total)
    ensures p.offset == (page - 1) * limit
  {
    PageInfo(page, limit, total, Pagination.TotalPages(total, limit), Pagination.Offset(page, limit))
  }

  // -------------------------------------------------------------- store

  datatype DurumResult = DurumOk(evrak: Evrak, hareket: Hareket) | DurumFail(message: string)

  /** `bulkUpdateDurum` after the ids in `done`, against the tables `e0`
   *  and `h0` it started from: every id is counted once, a document changes
   *  only to the new status and only when its id was sent, a missing id is
   *  reported, and the history only grows, by the new status. */
  ghost predicate Toplu(e0: map<int, Evrak>, e: map<int, Evrak>, h0: seq<Hareket>, h: seq<Hareket>,
                        done: seq<int>, failed: seq<(int, string)>, success: nat, yeni: string)
  {
    && success + |failed| == |done|
    && (forall f :: f in failed ==> f.0 in done)
    && e.Keys == e0.Keys
    && (forall id :: id in e0 && id !in done ==> e[id] == e0[id])
    && (forall id :: id in done && id in e0 && e0[id].durum != e[id].durum ==> e[id].durum == yeni)
    && (forall id :: id in done && id !in e0 ==> (id, "Evrak bulunamadı") in failed)
    && |h| == |h0| + success && h[..|h0|] == h0
    && (forall k :: |h0| <= k < |h| ==> h[k].yeniDurum == yeni)
  }

  lemma TopluBasarili(e0: map<int, Evrak>, e: map<int, Evrak>, h0: seq<Hareket>, h: seq<Hareket>,
                      done: seq<int>, failed: seq<(int, string)>, success: nat, yeni: string,
                      id: int, hk: Hareket)
    requires Toplu(e0, e, h0, h, done, failed, success, yeni)
    requires id in e && hk.yeniDurum == yeni
    ensures Toplu(e0, e[id := e[id].(durum := yeni)], h0, h + [hk], done + [id], failed, success + 1, yeni)
  {
    assert (h + [hk])[..|h0|] == h[..|h0|];
  }

  lemma TopluBasarisiz(e0: map<int, Evrak>, e: map<int, Evrak>, h0: seq<Hareket>, h: seq<Hareket>,
                       done: seq<int>, failed: seq<(int, string)>, success: nat, yeni: string,
                       id: int, message: string)
    requires Toplu(e0, e, h0, h, done, failed, success, yeni)
    requires id !in e ==> message == "Evrak bulunamadı"
    ensures Toplu(e0, e, h0, h, done + [id], failed + [(id, message)], success, yeni)
  {
  }

  /** The tables and the counts `bulkUpdateDurum` has built so far. */
  datatype TopluDurum = TopluDurum(evraklar: map<int, Evrak>, hareketler: seq<Hareket>,
                                   success: nat, failed: seq<(int, string)>)

  /** `updateDurum` on one id, as a function of the tables it meets: a
   *  missing id or a refused transition adds a failure, anything else sets
   *  the status and appends one movement. */
  function TopluAdim(t: TopluDurum, id: int, yeni: string, aciklama: Option<string>, userId: int): TopluDurum
  {
    if id !in t.evraklar then t.(failed := t.failed + [(id, "Evrak bulunamadı")])
    else
      var v := ValidateDurumTransition(t.evraklar[id].durum, yeni);
      if v.Invalid? then t.(failed := t.failed + [(id, v.message)])
      else TopluDurum(t.evraklar[id := t.evraklar[id].(durum := yeni)],
                      t.hareketler + [Hareket(id, Some(t.evraklar[id].durum), yeni, OrNullStr(aciklama), userId)],
                      t.success + 1, t.failed)
  }

  /** The loop of `bulkUpdateDurum`: each id in order meets the tables left
   *  by the ids before it. */
  function TopluKatla(t: TopluDurum, ids: seq<int>, yeni: string, aciklama: Option<string>, userId: int)
    : TopluDurum
    decreases |ids|
  {
    if ids == [] then t
    else TopluAdim(TopluKatla(t, ids[..|ids| - 1], yeni, aciklama, userId), ids[|ids| - 1], yeni, aciklama, userId)
  }

  /** An id `updateDurum` accepts against the tables `e`. */
  predicate Gecer(e: map<int, Evrak>, id: int, yeni: string)
  {
    id in e && ValidateDurumTransition(e[id].durum, yeni).Valid?
  }

  /** The ids among `ids` refused against `e`, in order. */
  function Reddedilenler(e: map<int, Evrak>, ids: seq<int>, yeni: string): seq<int>
    decreases |ids|
  {
    if ids == [] then []
    else Reddedilenler(e, ids[..|ids| - 1], yeni) + (if Gecer(e, ids[|ids| - 1], yeni) then [] else [ids[|ids| - 1]])
  }

  /** The ids of the recorded failures, in order. */
  function FailedIds(failed: seq<(int, string)>): (r: seq<int>)
    ensures |r| == |failed| && forall k :: 0 <= k < |r| ==> r[k] == failed[k].0
  {
    seq(|failed|, k requires 0 <= k < |failed| => failed[k].0)
  }

  /** The fold keeps the facts `Toplu` collects: counts, failures only for
   *  sent ids, unsent rows untouched, changed rows at the new status and a
   *  history that only grows by the new status. */
  lemma {:induction false} TopluKatlaToplu(e0: map<int, Evrak>, h0: seq<Hareket>, ids: seq<int>, yeni: string,
                                           aciklama: Option<string>, userId: int)
    ensures var t := TopluKatla(TopluDurum(e0, h0, 0, []), ids, yeni, aciklama, userId);
            Toplu(e0, t.evraklar, h0, t.hareketler, ids, t.failed, t.success, yeni)
    decreases |ids|
  {
    if ids != [] {
      var p, x := ids[..|ids| - 1], ids[|ids| - 1];
      assert ids == p + [x];
      TopluKatlaToplu(e0, h0, p, yeni, aciklama, userId);
      var t := TopluKatla(TopluDurum(e0, h0, 0, []), p, yeni, aciklama, userId);
      if x in t.evraklar && ValidateDurumTransition(t.evraklar[x].durum, yeni).Valid? {
        TopluBasarili(e0, t.evraklar, h0, t.hareketler, p, t.failed, t.success, yeni, x,
                      Hareket(x, Some(t.evraklar[x].durum), yeni, OrNullStr(aciklama), userId));
      } else if x in t.evraklar {
        TopluBasarisiz(e0, t.evraklar, h0, t.hareketler, p, t.failed, t.success, yeni, x,
                       ValidateDurumTransition(t.evraklar[x].durum, yeni).message);
      } else {
        TopluBasarisiz(e0, t.evraklar, h0, t.hareketler, p, t.failed, t.success, yeni, x, "Evrak bulunamadı");
      }
    }
  }

  /** With distinct ids no id sees another's update, so each one succeeds
   *  exactly when it exists and its transition from the starting status is
   *  allowed: the new table sets exactly those rows to the new status, the
   *  failures are the other ids in order and the count is what remains. */
  lemma {:induction false} TopluFarkliIdler(e0: map<int, Evrak>, h0: seq<Hareket>, ids: seq<int>, yeni: string,
                                            aciklama: Option<string>, userId: int)
    requires forall i, j :: 0 <= i < j < |ids| ==> ids[i] != ids[j]
    ensures var t := TopluKatla(TopluDurum(e0, h0, 0, []), ids, yeni, aciklama, userId);
            && t.evraklar.Keys == e0.Keys
            && (forall id :: id in e0 ==>
                  t.evraklar[id] == if id in ids && Gecer(e0, id, yeni) then e0[id].(durum := yeni) else e0[id])
            && FailedIds(t.failed) == Reddedilenler(e0, ids, yeni)
            && t.success == |ids| - |Reddedilenler(e0, ids, yeni)|
    decreases |ids|
  {
    if ids != [] {
      var p, x := ids[..|ids| - 1], ids[|ids| - 1];
      assert x !in p by {
        forall i | 0 <= i < |p| ensures p[i] != x { assert p[i] == ids[i]; }
      }
      TopluFarkliIdler(e0, h0, p, yeni, aciklama, userId);
      var t := TopluKatla(TopluDurum(e0, h0, 0, []), p, yeni, aciklama, userId);
      assert x in e0 ==> t.evraklar[x] == e0[x];
      assert forall id :: id in ids <==> id in p || id == x;
    }
  }

  /** A repeated id meets the status its first occurrence set: `[1, 1]`
   *  sent to `bankada` from `portfoy` succeeds once, then fails as already
   *  in that status. */
  lemma TopluTekrarliId(e: Evrak, h0: seq<Hareket>)
    requires e.durum == "portfoy"
    ensures var t := TopluKatla(TopluDurum(map[1 := e], h0, 0, []), [1, 1], "bankada", None, 7);
            t.success == 1 && t.failed == [(1, "Evrak zaten bu durumda")] && t.evraklar[1].durum == "bankada"
            && |t.hareketler| == |h0| + 1
  {
    assert [1, 1][..1] == [1] && [1][..0] == [];
    assert ValidateDurumTransition("portfoy", "bankada") == Valid;
  }

  class EvrakStore {
    var evraklar: map<int, Evrak>
    var hareketler: seq<Hareket>
    var fotograflar: map<int, Fotograf>
    var dosyalar: set<string>
    var nextId: int
    var nextFotoId: int

    /** Keys are the rows' ids, ids below the next one to hand out, and every
     *  movement and photo row belongs to an existing evrak (the cascade). */
    ghost predicate Valid()
      reads this
    {
      nextId >= 1 && nextFotoId >= 1
      && (forall id :: id in evraklar ==> 1 <= id < nextId && evraklar[id].id == id)
      && (forall h :: h in hareketler ==> h.evrakId in evraklar)
      && (forall fid :: fid in fotograflar ==> 1 <= fid < nextFotoId && fotograflar[fid].evrakId in evraklar)
    }

    constructor ()
      ensures Valid()
      ensures evraklar == map[] && hareketler == [] && fotograflar == map[] && dosyalar == {}
    {
      evraklar, hareketler, fotograflar, dosyalar := map[], [], map[], {};
      nextId, nextFotoId := 1, 1;
    }

    /** `create`: insert the row and its first movement in one transaction. */
    method Create(d: EvrakData, userId: int) returns (e: Evrak)
      requires Valid()
      modifies this
      ensures Valid()
      ensures e.id !in old(evraklar) && e == NewEvrak(e.id, d, userId)
      ensures evraklar == old(evraklar)[e.id := e]
      ensures hareketler == old(hareketler) + [Hareket(e.id, None, e.durum, Some("Evrak oluşturuldu"), userId)]
      ensures fotograflar == old(fotograflar) && dosyalar == old(dosyalar)
    {
      e := NewEvrak(nextId, d, userId);
      evraklar := evraklar[nextId := e];
      hareketler := hareketler + [Hareket(nextId, None, e.durum, Some("Evrak oluşturuldu"), userId)];
      nextId := nextId + 1;
    }

    /** `update`: null for a missing id; otherwise every field but `durum`. */
    method Update(id: int, d: EvrakData) returns (r: Option<Evrak>)
      requires Valid()
      modifies this
      ensures Valid()
      ensures id !in old(evraklar) ==> r.None? && evraklar == old(evraklar)
      ensures id in old(evraklar) ==> r == Some(UpdatedEvrak(old(evraklar)[id], d))
                                      && evraklar == old(evraklar)[id := r.value]
      ensures hareketler == old(hareketler) && fotograflar == old(fotograflar) && dosyalar == old(dosyalar)
    {
      if id !in evraklar {
        return None;
      }
      var e := UpdatedEvrak(evraklar[id], d);
      evraklar := evraklar[id := e];
      r := Some(e);
    }

    /** `updateDurum`: a missing id or a refused transition changes nothing;
     *  otherwise the status is set and exactly one movement is appended. */
    method UpdateDurum(id: int, yeni: string, aciklama: Option<string>, userId: int) returns (r: DurumResult)
      requires Valid()
      modifies this
      ensures Valid()
      ensures id !in old(evraklar) ==> r == DurumFail("Evrak bulunamadı")
      ensures id in old(evraklar) && ValidateDurumTransition(old(evraklar)[id].durum, yeni).Invalid? ==>
        r == DurumFail(ValidateDurumTransition(old(evraklar)[id].durum, yeni).message)
      ensures r.DurumFail? ==> evraklar == old(evraklar) && hareketler == old(hareketler)
      ensures r.DurumOk? <==> id in old(evraklar) && ValidateDurumTransition(old(evraklar)[id].durum, yeni).Valid?
      ensures r.DurumOk? ==>
        r.evrak == old(evraklar)[id].(durum := yeni)
        && evraklar == old(evraklar)[id := r.evrak]
        && r.hareket == Hareket(id, Some(old(evraklar)[id].durum), yeni, OrNullStr(aciklama), userId)
        && hareketler == old(hareketler) + [r.hareket]
      ensures fotograflar == old(fotograflar) && dosyalar == old(dosyalar)
    {
      if id !in evraklar {
        return DurumFail("Evrak bulunamadı");
      }
      var eski := evraklar[id].durum;
      var v := ValidateDurumTransition(eski, yeni);
      if v.Invalid? {
        return DurumFail(v.message);
      }
      var e := evraklar[id].(durum := yeni);
      var h := Hareket(id, Some(eski), yeni, OrNullStr(aciklama), userId);
      evraklar := evraklar[id := e];
      hareketler := hareketler + [h];
      r := DurumOk(e, h);
    }

    /** `bulkUpdateDurum`: `updateDurum` on each id in order, counting the
     *  successes and recording each failure with its id and message. */
    method BulkUpdateDurum(ids: seq<int>, yeni: string, aciklama: Option<string>, userId: int)
      returns (success: nat, failed: seq<(int, string)>)
      requires Valid()
      modifies this
      ensures Valid()
      ensures TopluDurum(evraklar, hareketler, success, failed)
              == TopluKatla(TopluDurum(old(evraklar), old(hareketler), 0, []), ids, yeni, aciklama, userId)
      ensures success + |failed| == |ids|
      ensures forall f :: f in failed ==> f.0 in ids
      ensures evraklar.Keys == old(evraklar).Keys
      ensures forall id :: id in old(evraklar) && id !in ids ==> evraklar[id] == old(evraklar)[id]
      ensures forall id :: id in ids && id in old(evraklar) && old(evraklar)[id].durum != evraklar[id].durum ==>
        evraklar[id].durum == yeni
      ensures forall id :: id in ids && id !in old(evraklar) ==> (id, "Evrak bulunamadı") in failed
      ensures |hareketler| == |old(hareketler)| + success && hareketler[..|old(hareketler)|] == old(hareketler)
      ensures forall k :: |old(hareketler)| <= k < |hareketler| ==> hareketler[k].yeniDurum == yeni
      ensures fotograflar == old(fotograflar) && dosyalar == old(dosyalar)
    {
      success, failed := 0, [];
      var i := 0;
      while i < |ids|
        invariant 0 <= i <= |ids| && Valid()
        invariant TopluDurum(evraklar, hareketler, success, failed)
                  == TopluKatla(TopluDurum(old(evraklar), old(hareketler), 0, []), ids[..i], yeni, aciklama, userId)
        invariant fotograflar == old(fotograflar) && dosyalar == old(dosyalar)
      {
        assert ids[..i + 1][..i] == ids[..i];
        var r := UpdateDurum(ids[i], yeni, aciklama, userId);
        if r.DurumOk? {
          success := success + 1;
        } else {
          failed := failed + [(ids[i], r.message)];
        }
        i := i + 1;
      }
      assert ids[..i] == ids;
      TopluKatlaToplu(old(evraklar), old(hareketler), ids, yeni, aciklama, userId);
    }

    /** `remove`: a missing id fails; otherwise the upload folder is emptied
     *  (a failure there is ignored) and the row is deleted with its movements
     *  and photo rows. */
    method Remove(id: int, folderFails: bool) returns (success: bool, message: string)
      requires Valid()
      modifies this
      ensures Valid()
      ensures !success <==> id !in old(evraklar)
      ensures !success ==> message == "Evrak bulunamadı" && evraklar == old(evraklar)
      ensures !success ==> hareketler == old(hareketler) && fotograflar == old(fotograflar) && dosyalar == old(dosyalar)
      ensures success ==> message == "Evrak başarıyla silindi"
      ensures success ==> evraklar == old(evraklar) - {id}
      ensures success ==> (forall h :: h in hareketler <==> h in old(hareketler) && h.evrakId != id)
      ensures success ==> (forall fid :: fid in fotograflar <==> fid in old(fotograflar) && old(fotograflar)[fid].evrakId != id)
      ensures success ==> (forall fid :: fid in fotograflar ==> fotograflar[fid] == old(fotograflar)[fid])
      ensures success && !folderFails ==> dosyalar == Upload.AfterDeleteFolder(old(dosyalar), id)
      ensures success && folderFails ==> dosyalar == old(dosyalar)
    {
      if id !in evraklar {
        return false, "Evrak bulunamadı";
      }
      if !folderFails {
        dosyalar := Upload.AfterDeleteFolder(dosyalar, id);
      }
      hareketler := Without(hareketler, id);
      fotograflar := map fid | fid in fotograflar && fotograflar[fid].evrakId != id :: fotograflar[fid];
      evraklar := evraklar - {id};
      return true, "Evrak başarıyla silindi";
    }

    /** Stores one photo row for an existing evrak (`EvrakFotograflar.create`). */
    method AddFotograf(f: Fotograf) returns (fid: int)
      requires Valid() && f.evrakId in evraklar
      modifies this
      ensures Valid()
      ensures fid !in old(fotograflar) && fotograflar == old(fotograflar)[fid := f]
      ensures evraklar == old(evraklar) && hareketler == old(hareketler) && dosyalar == old(dosyalar)
    {
      fid := nextFotoId;
      fotograflar := fotograflar[fid := f];
      nextFotoId := nextFotoId + 1;
    }

    /** Records files written to the upload folder. */
    method AddFiles(paths: set<string>)
      requires Valid()
      modifies this`dosyalar
      ensures Valid() && dosyalar == old(dosyalar) + paths
    {
      dosyalar := dosyalar + paths;
    }

    /** `deleteFiles`: the photo and its thumbnail leave the disk; a path
     *  that is not there is skipped. */
    method DeleteFiles(dosyaYolu: Option<string>, thumbnailYolu: Option<string>)
      requires Valid()
      modifies this`dosyalar
      ensures Valid() && dosyalar == Upload.AfterDeleteFiles(old(dosyalar), dosyaYolu, thumbnailYolu)
    {
      dosyalar := Upload.AfterDeleteFiles(dosyalar, dosyaYolu, thumbnailYolu);
    }

    /** `EvrakFotograflar.delete`: fails only for a missing row. */
    method RemoveFotograf(fid: int) returns (success: bool)
      requires Valid()
      modifies this`fotograflar
      ensures Valid() && fotograflar == old(fotograflar) - {fid}
      ensures success <==> fid in old(fotograflar)
    {
      success := fid in fotograflar;
      fotograflar := fotograflar - {fid};
    }
  }

  /** The movements that survive the deletion of evrak `id`. */
  function Without(hs: seq<Hareket>, id: int): (r: seq<Hareket>)
    ensures forall h :: h in r <==> h in hs && h.evrakId != id
  {
    if hs == [] then []
    else (if hs[0].evrakId == id then [] else [hs[0]]) + Without(hs[1..], id)
  }
}
