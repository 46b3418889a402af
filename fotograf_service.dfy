/** `frontend/src/services/evrakFotograflar.ts`: the photo URL the client
 *  builds, the checks it runs on picked images, and how it splits a batch
 *  into the files it sends and the ones it reports back. */
module FotografService {
  import opened Wrappers
  import opened Strings

  /** The fields of a stored photo the client reads. */
  datatype Fotograf = Fotograf(id: int, dosyaAdi: string, dosyaYolu: string, thumbnailYolu: Option<string>)

  // ------------------------------------------------------------- the URL

  /** The stored path a photo is shown from: the thumbnail only when one is
   *  asked for and the photo has a non-empty one. */
  function GosterilenYol(foto: Fotograf, thumbnail: bool): (p: string)
    ensures p == foto.dosyaYolu || (thumbnail && foto.thumbnailYolu == Some(p) && p != "")
    ensures thumbnail && foto.thumbnailYolu.Some? && foto.thumbnailYolu.value != "" ==> p == foto.thumbnailYolu.value
  {
    if thumbnail && foto.thumbnailYolu.Some? && foto.thumbnailYolu.value != "" then foto.thumbnailYolu.value
    else foto.dosyaYolu
  }

  /** The URL of a stored path under the API's base URL. */
  function YolUrl(baseUrl: string, path: string): (r: string)
    ensures StartsWith(r, baseUrl + "/uploads") && EndsWith(r, path)
  {
    if StartsWith(path, "/uploads") then
      assert (baseUrl + path)[..|baseUrl| + 8] == baseUrl + path[..8];
      baseUrl + path
    else if StartsWith(path, "uploads") then
      assert (baseUrl + "/" + path)[..|baseUrl| + 8] == baseUrl + "/" + path[..7];
      baseUrl + "/" + path
    else
      assert (baseUrl + "/uploads/" + path)[..|baseUrl| + 8] == baseUrl + "/uploads";
      baseUrl + "/uploads/" + path
  }

  /** `getFotografUrl`, with the base URL, the API URL minus `/api`, as a
   *  parameter. */
  function GetFotografUrl(baseUrl: string, foto: Fotograf, thumbnail: bool): string
  {
    YolUrl(baseUrl, GosterilenYol(foto, thumbnail))
  }

  /** The three spellings of a path under the upload folder name the same
   *  file: with a leading slash, without one, or without the folder. */
  lemma {:induction false} YolBicimleri(baseUrl: string, rest: string)
    requires !StartsWith(rest, "uploads") && !StartsWith(rest, "/uploads")
    ensures YolUrl(baseUrl, "/uploads/" + rest) == YolUrl(baseUrl, "uploads/" + rest)
    ensures YolUrl(baseUrl, rest) == YolUrl(baseUrl, "/uploads/" + rest)
  {
    assert ("/uploads/" + rest)[..8] == "/uploads";
    assert ("uploads/" + rest)[..8] == "uploads/";
    assert ("uploads/" + rest)[..7] == "uploads";
    assert baseUrl + "/" + ("uploads/" + rest) == baseUrl + ("/uploads/" + rest);
    assert baseUrl + "/uploads/" + rest == baseUrl + ("/uploads/" + rest);
  }

  /** Asking for the thumbnail of a photo that has none shows the photo. */
  lemma ThumbnailYoksaAsil(baseUrl: string, foto: Fotograf)
    requires foto.thumbnailYolu.None? || foto.thumbnailYolu == Some("")
    ensures GetFotografUrl(baseUrl, foto, true) == GetFotografUrl(baseUrl, foto, false)
    ensures EndsWith(GetFotografUrl(baseUrl, foto, true), foto.dosyaYolu)
  {
  }

  // ------------------------------------------------------- file checks

  /** A picked browser `File`: its name, MIME type and size in bytes. */
  datatype Dosya = Dosya(name: string, mimeType: string, size: nat)

  const ImageTypes: seq<string> := ["image/jpeg", "image/jpg", "image/png", "image/webp"]
  const VarsayilanMaxMB: nat := 10

  predicate IsValidImageType(f: Dosya)
  {
    f.mimeType in ImageTypes
  }

  predicate IsValidFileSize(f: Dosya, maxSizeMB: nat)
  {
    f.size <= maxSizeMB * 1024 * 1024
  }

  function TipMesaji(f: Dosya): string
  {
    "\"" + f.name + "\" desteklenmeyen dosya tipi. Sadece JPG, PNG ve WEBP kabul edilir."
  }

  function BoyutMesaji(f: Dosya): string
  {
    "\"" + f.name + "\" çok büyük. Maksimum dosya boyutu 10 MB."
  }

  /** `validateFile`: the type message first, then the size message, and
   *  none when both checks pass. */
  function ValidateFile(f: Dosya): (r: Option<string>)
    ensures r.None? <==> IsValidImageType(f) && IsValidFileSize(f, VarsayilanMaxMB)
    ensures !IsValidImageType(f) ==> r == Some(TipMesaji(f))
    ensures IsValidImageType(f) && !IsValidFileSize(f, VarsayilanMaxMB) ==> r == Some(BoyutMesaji(f))
    ensures r.Some? ==> r.value != ""
  {
    if !IsValidImageType(f) then Some(TipMesaji(f))
    else if !IsValidFileSize(f, VarsayilanMaxMB) then Some(BoyutMesaji(f))
    else None
  }

  // ----------------------------------------------------- uploadFotograflar

  /** The files that pass `validateFile`, in the order picked. */
  function Gecerliler(files: seq<Dosya>): (r: seq<Dosya>)
    ensures |r| <= |files|
    ensures forall f :: f in r <==> f in files && ValidateFile(f).None?
  {
    if files == [] then []
    else
      var son := files[|files| - 1];
      Gecerliler(files[..|files| - 1]) + (if ValidateFile(son).None? then [son] else [])
  }

  /** The messages of the files that fail it, in the same order. */
  function Hatalar(files: seq<Dosya>): (r: seq<string>)
    ensures |r| <= |files|
    ensures forall f :: f in files && ValidateFile(f).Some? ==> ValidateFile(f).value in r
  {
    if files == [] then []
    else
      var son := files[|files| - 1];
      var h := Hatalar(files[..|files| - 1]);
      assert forall f :: f in files ==> f in files[..|files| - 1] || f == son;
      h + (if ValidateFile(son).Some? then [ValidateFile(son).value] else [])
  }

  /** Every picked file is either sent or reported, never both. */
  lemma {:induction false} Bolunme(files: seq<Dosya>)
    ensures |Gecerliler(files)| + |Hatalar(files)| == |files|
  {
    if files != [] {
      Bolunme(files[..|files| - 1]);
    }
  }

  lemma BolunmeAdimi(files: seq<Dosya>, i: nat, error: Option<string>)
    requires i < |files| && error == ValidateFile(files[i])
    ensures Gecerliler(files[..i + 1]) == Gecerliler(files[..i]) + (if error.None? then [files[i]] else [])
    ensures Hatalar(files[..i + 1]) == Hatalar(files[..i]) + (if error.Some? then [error.value] else [])
  {
    assert files[..i + 1][..i] == files[..i];
  }

  datatype DosyaHatasi = DosyaHatasi(dosya: string, hata: string)

  /** The server's answer to an upload. */
  datatype UploadYaniti = UploadYaniti(
    message: string, yuklenen: int, hatali: int,
    fotograflar: seq<Fotograf>, hatalar: Option<seq<DosyaHatasi>>)

  datatype Yukleme = Yuklendi(yanit: UploadYaniti) | Firlatti(mesaj: string)

  const GecerliDosyaYok := "Yüklenecek geçerli dosya bulunamadı"

  /** The client's own failures, appended to the server's answer. */
  function Eklenmis(y: UploadYaniti, hatalar: seq<string>): (r: UploadYaniti)
    ensures hatalar == [] ==> r == y
    ensures hatalar != [] ==> r.hatalar.Some? && r.hatali == y.hatali + |hatalar|
    ensures hatalar != [] ==>
              (&& |r.hatalar.value| >= |hatalar|
               && r.hatalar.value[..|r.hatalar.value| - |hatalar|] == (if y.hatalar.Some? then y.hatalar.value else [])
               && forall k :: 0 <= k < |hatalar| ==>
                    r.hatalar.value[|r.hatalar.value| - |hatalar| + k] == DosyaHatasi("Validation", hatalar[k]))
    ensures r.fotograflar == y.fotograflar && r.yuklenen == y.yuklenen && r.message == y.message
  {
    if hatalar == [] then y
    else
      var onceki := if y.hatalar.Some? then y.hatalar.value else [];
      var ekler := seq(|hatalar|, k requires 0 <= k < |hatalar| => DosyaHatasi("Validation", hatalar[k]));
      y.(hatalar := Some(onceki + ekler), hatali := y.hatali + |hatalar|)
  }

  /** The loop of `uploadFotograflar` that sorts the picked files. */
  method Ayir(files: seq<Dosya>) returns (validFiles: seq<Dosya>, validationErrors: seq<string>)
    ensures validFiles == Gecerliler(files) && validationErrors == Hatalar(files)
  {
    validationErrors := [];
    validFiles := [];
    var i := 0;
    while i < |files|
      invariant 0 <= i <= |files|
      invariant validFiles == Gecerliler(files[..i])
      invariant validationErrors == Hatalar(files[..i])
    {
      var error := ValidateFile(files[i]);
      BolunmeAdimi(files, i, error);
      if error.Some? {
        validationErrors := validationErrors + [error.value];
      } else {
        validFiles := validFiles + [files[i]];
      }
      i := i + 1;
    }
    assert files[..i] == files;
  }

  /** `uploadFotograflar`, with the POST as the function `sunucu` from the
   *  files sent to the server's answer. */
  method UploadFotograflar(files: seq<Dosya>, sunucu: seq<Dosya> -> UploadYaniti) returns (r: Yukleme)
    ensures Gecerliler(files) == [] && Hatalar(files) == [] ==> r == Firlatti(GecerliDosyaYok)
    ensures Gecerliler(files) == [] && Hatalar(files) != [] ==> r == Firlatti(Join(Hatalar(files), "\n"))
    ensures Gecerliler(files) != [] ==> r == Yuklendi(Eklenmis(sunucu(Gecerliler(files)), Hatalar(files)))
  {
    var validFiles, validationErrors := Ayir(files);
    if validFiles == [] {
      if |validationErrors| > 0 {
        return Firlatti(Join(validationErrors, "\n"));
      }
      return Firlatti(GecerliDosyaYok);
    }
    var yanit := sunucu(validFiles);
    r := Yuklendi(Eklenmis(yanit, validationErrors));
  }

  /** An empty batch, or one whose every file fails, never reaches the
   *  server; otherwise every failing file is counted as failed. */
  lemma {:induction false} SunucuyaYalnizGecerliler(files: seq<Dosya>, sunucu: seq<Dosya> -> UploadYaniti)
    requires Gecerliler(files) != []
    ensures Eklenmis(sunucu(Gecerliler(files)), Hatalar(files)).hatali
            == sunucu(Gecerliler(files)).hatali + (|files| - |Gecerliler(files)|)
  {
    Bolunme(files);
  }

  const YuklenemediMesaji := "Dosya yüklenemedi"

  /** `uploadTekFotograf`: the first photo stored, or the first error the
   *  answer reports, or a stock message when it reports none. */
  method UploadTekFotograf(file: Dosya, sunucu: seq<Dosya> -> UploadYaniti) returns (r: Result)
    ensures ValidateFile(file).Some? ==> r == Hata(ValidateFile(file).value)
    ensures ValidateFile(file).None? && sunucu([file]).fotograflar != [] ==> r == Basari(sunucu([file]).fotograflar[0])
    ensures ValidateFile(file).None? && sunucu([file]).fotograflar == [] ==> r == Hata(IlkHata(sunucu([file])))
  {
    TekDosya(file);
    var sonuc := UploadFotograflar([file], sunucu);
    if sonuc.Firlatti? {
      return Hata(sonuc.mesaj);
    }
    var yanit := sonuc.yanit;
    if |yanit.fotograflar| == 0 {
      return Hata(IlkHata(yanit));
    }
    r := Basari(yanit.fotograflar[0]);
  }

  datatype Result = Basari(foto: Fotograf) | Hata(mesaj: string)

  /** `result.hatalar?.[0]?.hata || 'Dosya yüklenemedi'` */
  function IlkHata(y: UploadYaniti): (m: string)
    ensures m != ""
    ensures y.hatalar.Some? && y.hatalar.value != [] && y.hatalar.value[0].hata != "" ==> m == y.hatalar.value[0].hata
  {
    if y.hatalar.Some? && y.hatalar.value != [] && y.hatalar.value[0].hata != "" then y.hatalar.value[0].hata
    else YuklenemediMesaji
  }

  /** One file: it is sent alone when it passes, and otherwise its message
   *  is the whole error. */
  lemma TekDosya(file: Dosya)
    ensures ValidateFile(file).None? ==> Gecerliler([file]) == [file] && Hatalar([file]) == []
    ensures ValidateFile(file).Some? ==> Gecerliler([file]) == [] && Hatalar([file]) == [ValidateFile(file).value]
    ensures ValidateFile(file).Some? ==> Join(Hatalar([file]), "\n") == ValidateFile(file).value
  {
    assert [file][..0] == [];
  }
}
