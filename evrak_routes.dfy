/** `backend/src/routes/evraklar.js`: the request checks and handlers that
 *  sit between HTTP and the evrak store. */
module EvrakRoutes {
  import opened Wrappers
  import opened Strings
  import opened Js
  import Evraklar
  import Upload

  // ------------------------------------------------- the doviz_kuru rule

  /** The custom body rule: a currency other than TRY needs a rate. It reads
   *  the raw `para_birimi` and rejects a falsy rate. */
  function DovizKuruRule(paraBirimi: Option<string>, dovizKuru: Option<int>): (err: Option<string>)
    ensures err.Some? <==> TruthyStr(paraBirimi) && paraBirimi.value != "TRY" && !TruthyInt(dovizKuru)
    ensures err.Some? ==> err.value == "Döviz seçildiğinde kur girilmesi zorunludur"
  {
    if TruthyStr(paraBirimi) && paraBirimi.value != "TRY" && !TruthyInt(dovizKuru)
    then Some("Döviz seçildiğinde kur girilmesi zorunludur")
    else None
  }

  /** A rule that passed means the stored row of a foreign-currency evrak
   *  carries a rate, and a TRY (or unset) currency stores `TRY`. */
  lemma RuleGivesStoredRate(id: int, d: Evraklar.EvrakData, userId: int)
    requires DovizKuruRule(d.paraBirimi, d.dovizKuru).None?
    ensures Evraklar.NewEvrak(id, d, userId).paraBirimi != "TRY" ==> Evraklar.NewEvrak(id, d, userId).dovizKuru.Some?
    ensures !TruthyStr(d.paraBirimi) ==> Evraklar.NewEvrak(id, d, userId).paraBirimi == "TRY"
  {
  }

  // ------------------------------------------------------------------ PUT

  /** The body of `PUT /:id` as the route reads it, `durum` included. */
  datatype PutBody = PutBody(data: Evraklar.EvrakData)

  /** The object handed to `update`: every field of the body but `durum`. */
  function PutForward(b: PutBody): (d: Evraklar.EvrakData)
    ensures d.durum.None? && d == b.data.(durum := None)
  {
    b.data.(durum := None)
  }

  /** Whatever `durum` a PUT body carries, the row's status stays. */
  lemma PutNeverChangesDurum(e: Evraklar.Evrak, b: PutBody, b2: PutBody)
    requires b2.data == b.data.(durum := Some("tahsil"))
    ensures Evraklar.UpdatedEvrak(e, PutForward(b)).durum == e.durum
    ensures Evraklar.UpdatedEvrak(e, PutForward(b)) == Evraklar.UpdatedEvrak(e, PutForward(b2))
  {
  }

  /** `PUT /:id` after validation: 404 for a missing evrak, else 200 with
   *  the row `update` wrote. */
  method PutEvrak(store: Evraklar.EvrakStore, id: int, b: PutBody) returns (status: int)
    requires store.Valid()
    modifies store
    ensures store.Valid()
    ensures status == 404 <==> id !in old(store.evraklar)
    ensures status == 404 || status == 200
    ensures status == 200 ==> store.evraklar == old(store.evraklar)[id := Evraklar.UpdatedEvrak(old(store.evraklar)[id], b.data)]
    ensures status == 404 ==> store.evraklar == old(store.evraklar)
    ensures store.hareketler == old(store.hareketler)
  {
    var r := store.Update(id, PutForward(b));
    if r.None? {
      return 404;
    }
    assert Evraklar.UpdatedEvrak(old(store.evraklar)[id], PutForward(b))
        == Evraklar.UpdatedEvrak(old(store.evraklar)[id], b.data);
    status := 200;
  }

  // ------------------------------------------------------------ toplu-durum

  /** An element of the `ids` array: an integer, or anything else JSON can
   *  carry (a fraction, a string, null). */
  datatype JsonId = IntId(n: int) | NotInteger

  /** The body of `POST /toplu-durum`; `ids` is `None` when it is not an
   *  array. */
  datatype TopluBody = TopluBody(ids: Option<seq<JsonId>>, durum: Option<string>, aciklama: Option<string>)

  predicate PositiveInteger(x: JsonId)
  {
    x.IntId? && x.n > 0
  }

  /** The three body rules: a non-empty array of positive integers, a
   *  non-empty valid status, and a note of at most 500 characters once
   *  trimmed (an empty note is skipped). */
  predicate TopluValid(b: TopluBody)
  {
    b.ids.Some? && |b.ids.value| >= 1 && (forall i :: 0 <= i < |b.ids.value| ==> PositiveInteger(b.ids.value[i]))
    && b.durum.Some? && b.durum.value != "" && b.durum.value in Evraklar.GecerliDurumlar
    && (!TruthyStr(b.aciklama) || |Trim(b.aciklama.value)| <= 500)
  }

  function IdsOf(xs: seq<JsonId>): (r: seq<int>)
    requires forall i :: 0 <= i < |xs| ==> xs[i].IntId?
    ensures |r| == |xs| && forall i :: 0 <= i < |xs| ==> r[i] == xs[i].n
  {
    if xs == [] then [] else [xs[0].n] + IdsOf(xs[1..])
  }

  /** The note the model receives: the validator trims a truthy note in
   *  place; a falsy one is passed as it is. */
  function SanitizedAciklama(a: Option<string>): Option<string>
  {
    if TruthyStr(a) then Some(Trim(a.value)) else a
  }

  datatype TopluResponse =
    | TopluInvalid
    | TopluOk(message: string, success: nat, failed: seq<(int, string)>)

  /** `POST /toplu-durum`: 400 on a bad body; otherwise `bulkUpdateDurum`'s
   *  counts, passed on unchanged, with the message `<n> evrak güncellendi`. */
  method TopluDurum(store: Evraklar.EvrakStore, b: TopluBody, userId: int) returns (r: TopluResponse)
    requires store.Valid()
    modifies store
    ensures store.Valid()
    ensures r.TopluInvalid? <==> !TopluValid(b)
    ensures r.TopluInvalid? ==> store.evraklar == old(store.evraklar) && store.hareketler == old(store.hareketler)
    ensures r.TopluOk? ==> r.success + |r.failed| == |b.ids.value|
    ensures r.TopluOk? ==> r.message == NatToString(r.success) + " evrak güncellendi"
    ensures r.TopluOk? ==> forall f :: f in r.failed ==> f.0 in IdsOf(b.ids.value)
    ensures r.TopluOk? ==> |store.hareketler| == |old(store.hareketler)| + r.success
    ensures r.TopluOk? ==>
      Evraklar.TopluDurum(store.evraklar, store.hareketler, r.success, r.failed)
      == Evraklar.TopluKatla(Evraklar.TopluDurum(old(store.evraklar), old(store.hareketler), 0, []),
                             IdsOf(b.ids.value), b.durum.value, SanitizedAciklama(b.aciklama), userId)
  {
    if !TopluValid(b) {
      return TopluInvalid;
    }
    var ids := IdsOf(b.ids.value);
    var success, failed := store.BulkUpdateDurum(ids, b.durum.value, SanitizedAciklama(b.aciklama), userId);
    r := TopluOk(NatToString(success) + " evrak güncellendi", success, failed);
  }

  /** A non-integer id, a zero id or an empty list is refused. */
  lemma TopluRejects()
    ensures !TopluValid(TopluBody(Some([]), Some("tahsil"), None))
    ensures !TopluValid(TopluBody(Some([IntId(0)]), Some("tahsil"), None))
    ensures !TopluValid(TopluBody(Some([NotInteger]), Some("tahsil"), None))
    ensures !TopluValid(TopluBody(Some([IntId(1)]), Some("odendi"), None))
    ensures TopluValid(TopluBody(Some([IntId(1), IntId(2)]), Some("tahsil"), None))
  {
    var zero := TopluBody(Some([IntId(0)]), Some("tahsil"), None);
    assert !PositiveInteger(zero.ids.value[0]);
    var other := TopluBody(Some([NotInteger]), Some("tahsil"), None);
    assert !PositiveInteger(other.ids.value[0]);
    assert "odendi" !in Evraklar.GecerliDurumlar;
    assert "tahsil" == Evraklar.GecerliDurumlar[3];
  }

  // ---------------------------------------------------------- photo upload

  /** One file multer stored, with what happened to it: the image library's
   *  metadata and thumbnail outcome, and the error its processing or its
   *  row insert threw, if any. */
  datatype FileOutcome = FileOutcome(
    file: Upload.StoredFile, width: int, height: int, thumbnailOk: bool, failure: Option<string>)

  datatype UploadResponse =
    | UploadInvalidId
    | UploadNotFound
    | UploadRejected(response: Upload.ErrorResponse)
    | UploadNoFiles
    | UploadNoneSaved(hatalar: seq<(string, string)>)
    | UploadCreated(yuklenen: nat, hatali: nat, fotograflar: seq<int>, hatalar: seq<(string, string)>)

  function Status(r: UploadResponse): int
  {
    match r
    case UploadInvalidId => 400
    case UploadNotFound => 404
    case UploadRejected(resp) => if resp.Respond? then resp.status else 500
    case UploadNoFiles => 400
    case UploadNoneSaved(_) => 500
    case UploadCreated(_, _, _, _) => 201
  }

  function StoredPaths(files: seq<FileOutcome>, evrakId: int): set<string>
  {
    set i | 0 <= i < |files| :: Upload.EvrakDir(evrakId) + files[i].file.filename
  }

  /** `POST /:id/fotograflar`. The evrak is looked up before multer runs, so
   *  nothing reaches the disk for a missing evrak; a multer error goes
   *  through `handleUploadError`; each stored file is then processed on its
   *  own, and the answer is 500 exactly when none of them was saved. */
  method UploadFotograflar(store: Evraklar.EvrakStore, evrakId: int, multerError: Option<Upload.UploadError>,
                           files: seq<FileOutcome>, userId: int)
    returns (r: UploadResponse)
    requires store.Valid()
    modifies store
    ensures store.Valid()
    ensures evrakId < 1 ==> r == UploadInvalidId
    ensures evrakId >= 1 ==> (r == UploadNotFound <==> evrakId !in old(store.evraklar))
    ensures r.UploadInvalidId? || r.UploadNotFound? || r.UploadRejected? || r.UploadNoFiles? ==>
      store.dosyalar == old(store.dosyalar) && store.fotograflar == old(store.fotograflar)
    ensures r.UploadCreated? ==> r.yuklenen + r.hatali == |files| && r.yuklenen > 0 && r.yuklenen == |r.fotograflar|
    ensures r.UploadNoneSaved? ==> |r.hatalar| == |files| && store.fotograflar == old(store.fotograflar)
    ensures Status(r) == 201 <==> r.UploadCreated?
    ensures r.UploadCreated? || r.UploadNoneSaved? ==>
      evrakId in old(store.evraklar) && multerError.None? && |files| > 0
      && (r.UploadCreated? <==> exists i :: 0 <= i < |files| && files[i].failure.None?)
      && StoredPaths(files, evrakId) <= store.dosyalar
    ensures r.UploadCreated? ==> forall k :: k in r.fotograflar ==>
      k in store.fotograflar && k !in old(store.fotograflar) && store.fotograflar[k].evrakId == evrakId
    ensures store.evraklar == old(store.evraklar) && store.hareketler == old(store.hareketler)
  {
    if evrakId < 1 {
      return UploadInvalidId;
    }
    if evrakId !in store.evraklar {
      return UploadNotFound;
    }
    if multerError.Some? {
      return UploadRejected(Upload.HandleUploadError(multerError.value));
    }
    if |files| == 0 {
      return UploadNoFiles;
    }
    store.AddFiles(StoredPaths(files, evrakId));
    var saved, errors := SaveEach(store, evrakId, files, userId);
    if |saved| == 0 {
      return UploadNoneSaved(errors);
    }
    r := UploadCreated(|saved|, |errors|, saved, errors);
  }

  /** One stored file: its processing, its thumbnail on disk when made, and
   *  a new photo record of the evrak. */
  method SaveOne(store: Evraklar.EvrakStore, evrakId: int, f: FileOutcome, userId: int) returns (fid: int)
    requires store.Valid() && evrakId in store.evraklar
    modifies store
    ensures store.Valid()
    ensures fid !in old(store.fotograflar) && fid in store.fotograflar && store.fotograflar[fid].evrakId == evrakId
    ensures store.fotograflar.Keys == old(store.fotograflar).Keys + {fid}
    ensures forall k :: k in old(store.fotograflar) ==> store.fotograflar[k] == old(store.fotograflar)[k]
    ensures old(store.dosyalar) <= store.dosyalar
    ensures store.evraklar == old(store.evraklar) && store.hareketler == old(store.hareketler)
  {
    var p := Upload.ProcessUploadedFile(f.file, evrakId, f.width, f.height, f.thumbnailOk);
    if p.thumbnailYolu.Some? {
      store.AddFiles({p.thumbnailYolu.value});
    }
    fid := store.AddFotograf(Evraklar.Fotograf(evrakId, p, userId));
  }

  /** The per-file loop of the upload: a file that was stored becomes a
   *  photo record of the evrak (its thumbnail, when made, is stored too); a
   *  failed one is reported under its original name. */
  method SaveEach(store: Evraklar.EvrakStore, evrakId: int, files: seq<FileOutcome>, userId: int)
    returns (saved: seq<int>, errors: seq<(string, string)>)
    requires store.Valid() && evrakId in store.evraklar
    modifies store
    ensures store.Valid()
    ensures |saved| + |errors| == |files| && |errors| == |files| - |saved|
    ensures (|saved| > 0) <==> exists j :: 0 <= j < |files| && files[j].failure.None?
    ensures forall k :: k in saved ==> k in store.fotograflar && k !in old(store.fotograflar)
    ensures forall k :: k in saved ==> store.fotograflar[k].evrakId == evrakId
    ensures |saved| == 0 ==> store.fotograflar == old(store.fotograflar)
    ensures old(store.dosyalar) <= store.dosyalar
    ensures store.evraklar == old(store.evraklar) && store.hareketler == old(store.hareketler)
  {
    saved, errors := [], [];
    var i := 0;
    while i < |files|
      invariant 0 <= i <= |files| && store.Valid()
      invariant |saved| + |errors| == i
      invariant (|saved| > 0) <==> exists j :: 0 <= j < i && files[j].failure.None?
      invariant forall k :: k in saved ==> k in store.fotograflar && k !in old(store.fotograflar)
      invariant forall k :: k in saved ==> store.fotograflar[k].evrakId == evrakId
      invariant old(store.fotograflar).Keys <= store.fotograflar.Keys
      invariant |saved| == 0 ==> store.fotograflar == old(store.fotograflar)
      invariant old(store.dosyalar) <= store.dosyalar
      invariant evrakId in store.evraklar
      invariant store.evraklar == old(store.evraklar) && store.hareketler == old(store.hareketler)
    {
      var f := files[i];
      if f.failure.None? {
        var fid := SaveOne(store, evrakId, f, userId);
        saved := saved + [fid];
      } else {
        errors := errors + [(f.file.originalname, f.failure.value)];
      }
      i := i + 1;
    }
  }

  // ---------------------------------------------------------- photo delete

  datatype DeleteResponse = FotoNotFound | FotoOtherEvrak | FotoDeleteFailed | FotoDeleted(dosyaAdi: string)

  /** `DELETE /:id/fotograflar/:fotoId`: 404 for a missing photo, 400 for a
   *  photo of another evrak, both without touching anything; otherwise the
   *  files leave the disk first and the row after them. */
  method DeleteFotograf(store: Evraklar.EvrakStore, evrakId: int, fotoId: int) returns (r: DeleteResponse)
    requires store.Valid()
    modifies store
    ensures store.Valid()
    ensures r == FotoNotFound <==> fotoId !in old(store.fotograflar)
    ensures r == FotoOtherEvrak <==> fotoId in old(store.fotograflar) && old(store.fotograflar)[fotoId].evrakId != evrakId
    ensures r.FotoNotFound? || r.FotoOtherEvrak? ==>
      store.fotograflar == old(store.fotograflar) && store.dosyalar == old(store.dosyalar)
    ensures r.FotoDeleted? ==>
      var f := old(store.fotograflar)[fotoId].file;
      r.dosyaAdi == f.dosyaAdi
      && store.fotograflar == old(store.fotograflar) - {fotoId}
      && store.dosyalar == Upload.AfterDeleteFiles(old(store.dosyalar), Some(f.dosyaYolu), f.thumbnailYolu)
    ensures !r.FotoDeleteFailed?
    ensures store.evraklar == old(store.evraklar) && store.hareketler == old(store.hareketler)
  {
    if fotoId !in store.fotograflar {
      return FotoNotFound;
    }
    var foto := store.fotograflar[fotoId];
    if foto.evrakId != evrakId {
      return FotoOtherEvrak;
    }
    store.DeleteFiles(Some(foto.file.dosyaYolu), foto.file.thumbnailYolu);
    var ok := store.RemoveFotograf(fotoId);
    if !ok {
      return FotoDeleteFailed;
    }
    r := FotoDeleted(foto.file.dosyaAdi);
  }
}
