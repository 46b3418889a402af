/** `backend/src/models/backup.js`: database backups in their folder, the
 *  name guard that protects the folder, the newest-first listing, restore
 *  with its safety copy, and the cleanup that keeps the newest few. */
module Backup {
  import opened Wrappers
  import opened Strings
  import opened Directory

  const Onek := "ceksenet_"
  const Uzanti := ".db"

  // ------------------------------------------------------------- names

  /** A character of the class `[\d-_]`: a digit, `-` or `_`. */
  predicate DamgaKarakteri(c: char)
  {
    IsDigit(c) || c == '-' || c == '_'
  }

  /** The guard `^ceksenet_[\d-_]+\.db$` that `getByFilename`, `restore`
   *  and `delete` apply before touching the folder. */
  predicate DeseneUyar(name: string)
  {
    && |name| > |Onek| + |Uzanti|
    && name[..|Onek|] == Onek
    && name[|name| - |Uzanti|..] == Uzanti
    && forall i :: |Onek| <= i < |name| - |Uzanti| ==> DamgaKarakteri(name[i])
  }

  /** The filter of `list`: a name starting `ceksenet_` and ending `.db`. */
  predicate Listelenir(name: string)
  {
    EndsWith(name, Uzanti) && StartsWith(name, Onek)
  }

  /** Every name the guard lets through is one `list` shows. */
  lemma DesenListelenir(name: string)
    requires DeseneUyar(name)
    ensures Listelenir(name)
  {
  }

  /** `now.toISOString()`: `YYYY-MM-DDTHH:MM:SS.sssZ`. */
  predicate IsoBicimi(iso: string)
  {
    && |iso| == 24
    && iso[4] == '-' && iso[7] == '-' && iso[10] == 'T' && iso[13] == ':' && iso[16] == ':'
    && iso[19] == '.' && iso[23] == 'Z'
    && forall i :: 0 <= i < 23 && i != 4 && i != 7 && i != 10 && i != 13 && i != 16 && i != 19 ==> IsDigit(iso[i])
  }

  /** `.replace(/[:.]/g, '-')` */
  function NoktalariTire(s: string): (r: string)
    ensures |r| == |s|
    ensures forall i :: 0 <= i < |s| ==> r[i] == if s[i] == ':' || s[i] == '.' then '-' else s[i]
  {
    seq(|s|, i requires 0 <= i < |s| => if s[i] == ':' || s[i] == '.' then '-' else s[i])
  }

  /** `.replace(a, b)` with a one-character pattern: the first occurrence only. */
  function IlkiniDegistir(s: string, a: char, b: char): string
  {
    if s == [] then []
    else if s[0] == a then [b] + s[1..]
    else [s[0]] + IlkiniDegistir(s[1..], a, b)
  }

  /** Replacing the first occurrence changes that position and no other. */
  lemma {:induction false} IlkiniDegistirYeri(s: string, a: char, b: char, k: nat)
    requires k < |s| && s[k] == a && forall i :: 0 <= i < k ==> s[i] != a
    ensures IlkiniDegistir(s, a, b) == s[..k] + [b] + s[k + 1..]
  {
    if k > 0 {
      IlkiniDegistirYeri(s[1..], a, b, k - 1);
      assert s[1..][..k - 1] == s[1..k];
      assert s[1..][k..] == s[k + 1..];
      assert [s[0]] + s[1..k] == s[..k];
    }
  }

  /** `.slice(0, 19)` */
  function Ilk19(s: string): string
  {
    if |s| >= 19 then s[..19] else s
  }

  /** The timestamp part of a backup's name. */
  function Damga(iso: string): string
  {
    Ilk19(IlkiniDegistir(NoktalariTire(iso), 'T', '_'))
  }

  /** `ceksenet_${timestamp}.db` */
  function DosyaAdi(iso: string): string
  {
    Onek + Damga(iso) + Uzanti
  }

  /** The name `create` gives a backup is `ceksenet_YYYY-MM-DD_HH-MM-SS.db`,
   *  which the guard accepts. */
  lemma DosyaAdiDeseneUyar(iso: string)
    requires IsoBicimi(iso)
    ensures |Damga(iso)| == 19
    ensures forall i :: 0 <= i < 19 ==>
              Damga(iso)[i] == if i == 10 then '_' else if i == 13 || i == 16 then '-' else iso[i]
    ensures DeseneUyar(DosyaAdi(iso))
  {
    var t := NoktalariTire(iso);
    assert t[10] == 'T';
    forall i | 0 <= i < 10 ensures t[i] != 'T' {
      if i != 4 && i != 7 { assert IsDigit(iso[i]); }
    }
    IlkiniDegistirYeri(t, 'T', '_', 10);
    var u := IlkiniDegistir(t, 'T', '_');
    assert |u| == 24;
    forall i | 0 <= i < 19
      ensures u[i] == if i == 10 then '_' else if i == 13 || i == 16 then '-' else iso[i]
    {
      if i < 10 { assert u[i] == t[i]; } else if i > 10 { assert u[i] == t[i]; }
    }
    var d := Damga(iso);
    var n := DosyaAdi(iso);
    assert |n| == 31;
    assert n[..9] == Onek;
    assert n[28..] == Uzanti;
    forall i | 9 <= i < 28 ensures DamgaKarakteri(n[i]) {
      assert n[i] == d[i - 9];
      if i - 9 != 4 && i - 9 != 7 && i - 9 != 10 && i - 9 != 13 && i - 9 != 16 {
        assert IsDigit(iso[i - 9]);
      }
    }
  }

  /** `ceksenet_pre-restore_<ms>.db`, the copy `restore` takes first. */
  function GuvenlikAdi(ms: nat): string
  {
    "ceksenet_pre-restore_" + NatToString(ms) + Uzanti
  }

  /** A safety copy is listed, yet the guard refuses it: `delete`, and so
   *  `cleanup`, never removes one. */
  lemma GuvenlikKopyasi(ms: nat)
    ensures Listelenir(GuvenlikAdi(ms))
    ensures !DeseneUyar(GuvenlikAdi(ms))
  {
    var n := GuvenlikAdi(ms);
    assert n[..9] == Onek;
    assert n[|n| - 3..] == Uzanti;
    assert n[9] == 'p';
  }

  // ------------------------------------------------------------ list

  /** A backup's `.meta.json`: its creation time in milliseconds, when
   *  recorded, and its description. */
  datatype Meta = Meta(createdAt: Option<int>, aciklama: string)

  /** A file in the folder: its content, size in bytes, modification time
   *  in milliseconds, and its meta file when one can be read. */
  datatype Dosya = Dosya(icerik: nat, size: nat, mtime: int, meta: Option<Meta>)

  /** One entry of `list`. */
  datatype Yedek = Yedek(filename: string, createdAt: int, sizeBytes: nat, sizeKb: nat, aciklama: string)

  /** `Math.round(size / 1024)`: the nearest whole number of kibibytes,
   *  halves rounded up. */
  function Kb(size: nat): (k: nat)
    ensures k * 1024 <= size + 512 < k * 1024 + 1024
  {
    (size + 512) / 1024
  }

  /** The entry `list` builds from a file: the meta's time over the file's,
   *  and the meta's description or nothing. */
  function Bilgi(name: string, d: Dosya): Yedek
  {
    Yedek(name,
          if d.meta.Some? && d.meta.value.createdAt.Some? then d.meta.value.createdAt.value else d.mtime,
          d.size, Kb(d.size),
          if d.meta.Some? then d.meta.value.aciklama else "")
  }

  /** The listed files in directory order. */
  function Adaylar(names: seq<string>, files: map<string, Dosya>): (r: seq<Yedek>)
    requires forall n :: n in names ==> n in files
    ensures forall y :: y in r ==> y.filename in files && Listelenir(y.filename) && y == Bilgi(y.filename, files[y.filename])
    ensures forall n :: n in names && Listelenir(n) ==> Bilgi(n, files[n]) in r
  {
    if names == [] then []
    else
      var n := names[|names| - 1];
      Adaylar(names[..|names| - 1], files) + (if Listelenir(n) then [Bilgi(n, files[n])] else [])
  }

  /** Newest first. */
  predicate Azalan(xs: seq<Yedek>)
  {
    forall i, j :: 0 <= i < j < |xs| ==> xs[i].createdAt >= xs[j].createdAt
  }

  /** Places `x` after every entry at least as new as it. The insertion sort
   *  of `Migrate.Sirala`, with the order reversed to newest first. */
  function Yerlestir(xs: seq<Yedek>, x: Yedek): (r: seq<Yedek>)
    ensures |r| == |xs| + 1
    ensures forall y :: y in r <==> y in xs || y == x
  {
    if xs == [] || xs[|xs| - 1].createdAt >= x.createdAt then xs + [x]
    else Yerlestir(xs[..|xs| - 1], x) + [xs[|xs| - 1]]
  }

  /** The `sort` of `list`: by `created_at`, newest first, equal times in
   *  directory order. */
  function Sirala(xs: seq<Yedek>): seq<Yedek>
  {
    if xs == [] then [] else Yerlestir(Sirala(xs[..|xs| - 1]), xs[|xs| - 1])
  }

  /** `list`: the backups in the folder, newest first. */
  function Liste(names: seq<string>, files: map<string, Dosya>): seq<Yedek>
    requires forall n :: n in names ==> n in files
  {
    Sirala(Adaylar(names, files))
  }

  lemma {:induction false} YerlestirSirali(xs: seq<Yedek>, x: Yedek)
    requires Azalan(xs)
    ensures Azalan(Yerlestir(xs, x))
  {
    if xs != [] && xs[|xs| - 1].createdAt < x.createdAt {
      var init := xs[..|xs| - 1];
      var son := xs[|xs| - 1];
      YerlestirSirali(init, x);
      var a := Yerlestir(init, x);
      forall i | 0 <= i < |a| ensures a[i].createdAt >= son.createdAt {
        assert a[i] in a;
        if a[i] != x {
          var k :| 0 <= k < |init| && init[k] == a[i];
          assert xs[k] == a[i];
        }
      }
    }
  }

  lemma {:induction false} YerlestirPerm(xs: seq<Yedek>, x: Yedek)
    ensures multiset(Yerlestir(xs, x)) == multiset(xs) + multiset{x}
  {
    if xs != [] && xs[|xs| - 1].createdAt < x.createdAt {
      var init := xs[..|xs| - 1];
      YerlestirPerm(init, x);
      assert xs == init + [xs[|xs| - 1]];
    }
  }

  /** The listing is in the comparator's order and holds the same entries. */
  lemma SiralaDogru(xs: seq<Yedek>)
    ensures Azalan(Sirala(xs))
    ensures multiset(Sirala(xs)) == multiset(xs)
  {
    SiralaSirali(xs);
    SiralaPerm(xs);
  }

  lemma {:induction false} SiralaSirali(xs: seq<Yedek>)
    ensures Azalan(Sirala(xs))
  {
    if xs != [] {
      SiralaSirali(xs[..|xs| - 1]);
      YerlestirSirali(Sirala(xs[..|xs| - 1]), xs[|xs| - 1]);
    }
  }

  lemma {:induction false} SiralaPerm(xs: seq<Yedek>)
    ensures multiset(Sirala(xs)) == multiset(xs)
  {
    if xs != [] {
      var init := xs[..|xs| - 1];
      SiralaPerm(init);
      YerlestirPerm(Sirala(init), xs[|xs| - 1]);
      assert xs == init + [xs[|xs| - 1]];
    }
  }

  /** No two entries share a file name. */
  predicate AdlarTekil(xs: seq<Yedek>)
  {
    forall i, j :: 0 <= i < j < |xs| ==> xs[i].filename != xs[j].filename
  }

  lemma {:induction false} YerlestirTekil(xs: seq<Yedek>, x: Yedek)
    requires AdlarTekil(xs) && forall y :: y in xs ==> y.filename != x.filename
    ensures AdlarTekil(Yerlestir(xs, x))
  {
    if xs != [] && xs[|xs| - 1].createdAt < x.createdAt {
      var init := xs[..|xs| - 1];
      var son := xs[|xs| - 1];
      assert forall y :: y in init ==> y in xs;
      YerlestirTekil(init, x);
      var a := Yerlestir(init, x);
      forall i | 0 <= i < |a| ensures a[i].filename != son.filename {
        assert a[i] in a;
        if a[i] != x {
          var k :| 0 <= k < |init| && init[k] == a[i];
          assert xs[k] == a[i];
        }
      }
    }
  }

  lemma {:induction false} SiralaTekil(xs: seq<Yedek>)
    requires AdlarTekil(xs)
    ensures AdlarTekil(Sirala(xs))
  {
    if xs != [] {
      var init := xs[..|xs| - 1];
      var son := xs[|xs| - 1];
      SiralaTekil(init);
      SiralaDogru(init);
      forall y | y in Sirala(init) ensures y.filename != son.filename {
        assert y in multiset(Sirala(init));
        var k :| 0 <= k < |init| && init[k] == y;
        assert xs[k] == y;
      }
      YerlestirTekil(Sirala(init), son);
    }
  }

  lemma {:induction false} AdaylarTekil(names: seq<string>, files: map<string, Dosya>)
    requires forall n :: n in names ==> n in files
    requires Tekil(names)
    ensures AdlarTekil(Adaylar(names, files))
    ensures forall y :: y in Adaylar(names, files) ==> y.filename in names
  {
    if names != [] {
      var init := names[..|names| - 1];
      var son := names[|names| - 1];
      assert forall n :: n in init ==> n in names;
      AdaylarTekil(init, files);
      forall y | y in Adaylar(init, files) ensures y.filename != son {
        var k :| 0 <= k < |init| && init[k] == y.filename;
        assert names[k] == init[k];
      }
    }
  }

  /** `list` names each backup file once, newest first. */
  lemma ListeDogru(names: seq<string>, files: map<string, Dosya>)
    requires Listeler(names, files)
    ensures Azalan(Liste(names, files))
    ensures AdlarTekil(Liste(names, files))
    ensures forall y :: y in Liste(names, files) <==>
              y.filename in files && Listelenir(y.filename) && y == Bilgi(y.filename, files[y.filename])
  {
    var xs := Adaylar(names, files);
    SiralaDogru(xs);
    AdaylarTekil(names, files);
    SiralaTekil(xs);
    forall y ensures y in Liste(names, files) <==> y in xs {
      assert y in multiset(Liste(names, files)) <==> y in multiset(xs);
    }
  }

  // ------------------------------------------------------------ stats

  function Toplam(xs: seq<Yedek>): nat
  {
    if xs == [] then 0 else Toplam(xs[..|xs| - 1]) + xs[|xs| - 1].sizeBytes
  }

  lemma {:induction false} YerlestirToplam(xs: seq<Yedek>, x: Yedek)
    ensures Toplam(Yerlestir(xs, x)) == Toplam(xs) + x.sizeBytes
  {
    if xs != [] && xs[|xs| - 1].createdAt < x.createdAt {
      var init := xs[..|xs| - 1];
      YerlestirToplam(init, x);
      var r := Yerlestir(xs, x);
      assert r[..|r| - 1] == Yerlestir(init, x);
    } else {
      assert (xs + [x])[..|xs|] == xs;
    }
  }

  /** The order does not change the total size. */
  lemma {:induction false} SiralaToplam(xs: seq<Yedek>)
    ensures Toplam(Sirala(xs)) == Toplam(xs)
    ensures |Sirala(xs)| == |xs|
  {
    if xs != [] {
      SiralaToplam(xs[..|xs| - 1]);
      YerlestirToplam(Sirala(xs[..|xs| - 1]), xs[|xs| - 1]);
    }
  }

  /** `getStats`: the number of backups and their total size. */
  datatype Istatistik = Istatistik(totalBackups: nat, totalSizeBytes: nat, totalSizeKb: nat)

  // ----------------------------------------------------------- cleanup

  /** The names the guard accepts among some entries. */
  function DeseneUyanlar(ys: seq<Yedek>): set<string>
  {
    set y | y in ys && DeseneUyar(y.filename) :: y.filename
  }

  lemma DeseneUyanlarAdimi(xs: seq<Yedek>, k: nat, j: nat)
    requires k <= j < |xs|
    ensures DeseneUyanlar(xs[k..j + 1])
            == DeseneUyanlar(xs[k..j]) + (if DeseneUyar(xs[j].filename) then {xs[j].filename} else {})
  {
    assert xs[k..j + 1] == xs[k..j] + [xs[j]];
  }

  /** The files `cleanup(keepCount)` removes from a listing: none when it
   *  holds at most `keepCount` entries, otherwise those past the first
   *  `keepCount` that the guard of `delete` accepts. */
  function Silinecekler(xs: seq<Yedek>, keepCount: nat): set<string>
  {
    if |xs| <= keepCount then {} else DeseneUyanlar(xs[keepCount..])
  }

  /** One step of `cleanup`: `delete` removes a name the guard accepts
   *  exactly when an earlier step has not already removed it. */
  /** `cleanup` so far: the files `silinen` are gone from the folder `eski`,
   *  and `n` counts them. */
  ghost predicate Silinmis(eski: map<string, Dosya>, files: map<string, Dosya>, silinen: set<string>, n: nat)
  {
    silinen <= eski.Keys && files == eski - silinen && n == |silinen|
  }

  lemma SilmeAdimi(eski: map<string, Dosya>, silinen: set<string>, name: string)
    requires silinen <= eski.Keys && name in eski
    ensures var sonra := silinen + (if DeseneUyar(name) then {name} else {});
            && sonra <= eski.Keys
            && (DeseneUyar(name) && name in eski - silinen ==>
                  (eski - silinen) - {name} == eski - sonra && |sonra| == |silinen| + 1)
            && (!(DeseneUyar(name) && name in eski - silinen) ==>
                  eski - silinen == eski - sonra && |sonra| == |silinen|)
  {
    if DeseneUyar(name) && name !in eski - silinen {
      assert silinen + {name} == silinen;
    } else if DeseneUyar(name) {
      assert name !in silinen;
    }
  }

  /** `cleanup` never removes one of the newest `keepCount` backups, nor a
   *  safety copy. */
  lemma CleanupKeepsNewest(xs: seq<Yedek>, keepCount: nat, ms: nat)
    requires AdlarTekil(xs)
    ensures forall i :: 0 <= i < keepCount && i < |xs| ==> xs[i].filename !in Silinecekler(xs, keepCount)
    ensures GuvenlikAdi(ms) !in Silinecekler(xs, keepCount)
  {
    GuvenlikKopyasi(ms);
    forall i | 0 <= i < keepCount && i < |xs| ensures xs[i].filename !in Silinecekler(xs, keepCount) {
      if |xs| > keepCount {
        forall y | y in xs[keepCount..] ensures y.filename != xs[i].filename {
          var k :| 0 <= k < |xs[keepCount..]| && xs[keepCount..][k] == y;
          assert xs[keepCount + k] == y;
        }
      }
    }
  }

  // ------------------------------------------------------------ folder

  /** The outcome of `create`. */
  datatype Olusturma = Olusturma(filename: string, sizeKb: nat, createdAt: int)

  /** The outcome of `restore`. */
  datatype GeriYukleme = GeriYuklendi(safetyBackup: string) | GeriYuklenemedi(message: string)

  /** The outcome of `delete`. */
  datatype Silme = Silindi | Silinemedi(message: string)

  const GecersizAd := "Geçersiz dosya adı formatı"
  const Bulunamadi := "Yedek dosyası bulunamadı"

  /** The backup folder and the live database's content. */
  class BackupDir {
    var files: map<string, Dosya>
    var veritabani: nat

    /** The folder as the server finds it on start: it is only created when
     *  missing, so the backups of an earlier run are still there. */
    constructor (mevcut: map<string, Dosya>, db: nat)
      ensures files == mevcut && veritabani == db
    {
      files := mevcut;
      veritabani := db;
    }

    /** `create`, with the clock (as `toISOString` and as milliseconds) and
     *  the copy's size as parameters: a copy of the database under the
     *  timestamped name, with its meta. */
    method Create(aciklama: string, iso: string, nowMs: int, size: nat) returns (r: Olusturma)
      modifies this
      ensures r == Olusturma(DosyaAdi(iso), Kb(size), nowMs)
      ensures files == old(files)[DosyaAdi(iso) :=
                Dosya(old(veritabani), size, nowMs, Some(Meta(Some(nowMs), if aciklama == "" then "Manuel yedek" else aciklama)))]
      ensures veritabani == old(veritabani)
    {
      var filename := Onek + Damga(iso) + Uzanti;
      var meta := Meta(Some(nowMs), if aciklama == "" then "Manuel yedek" else aciklama);
      files := files[filename := Dosya(veritabani, size, nowMs, Some(meta))];
      r := Olusturma(filename, Kb(size), nowMs);
    }

    /** `getByFilename`. */
    function GetByFilename(filename: string): (r: Option<Yedek>)
      reads this
      ensures r.Some? <==> DeseneUyar(filename) && filename in files
      ensures r.Some? ==> r.value == Bilgi(filename, files[filename])
    {
      if !DeseneUyar(filename) || filename !in files then None
      else Some(Bilgi(filename, files[filename]))
    }

    /** `restore`, with the clock and the live database's size as
     *  parameters: the guard, the existence check, then a safety copy of
     *  the live database and the backup copied over it. */
    method Restore(filename: string, nowMs: nat, dbSize: nat) returns (r: GeriYukleme)
      modifies this
      ensures !DeseneUyar(filename) ==> r == GeriYuklenemedi(GecersizAd)
      ensures DeseneUyar(filename) && filename !in old(files) ==> r == GeriYuklenemedi(Bulunamadi)
      ensures r.GeriYuklenemedi? ==> files == old(files) && veritabani == old(veritabani)
      ensures r.GeriYuklendi? ==>
                && DeseneUyar(filename) && filename in old(files)
                && r.safetyBackup == GuvenlikAdi(nowMs)
                && files == old(files)[GuvenlikAdi(nowMs) := Dosya(old(veritabani), dbSize, nowMs, None)]
                && veritabani == old(files)[filename].icerik
    {
      if !DeseneUyar(filename) {
        return GeriYuklenemedi(GecersizAd);
      }
      if filename !in files {
        return GeriYuklenemedi(Bulunamadi);
      }
      var safety := GuvenlikAdi(nowMs);
      GuvenlikKopyasi(nowMs);
      files := files[safety := Dosya(veritabani, dbSize, nowMs, None)];
      veritabani := files[filename].icerik;
      r := GeriYuklendi(safety);
    }

    /** `delete`: the guard, the existence check, then the file and its meta
     *  are removed. */
    method Remove(filename: string) returns (r: Silme)
      modifies this
      ensures !DeseneUyar(filename) ==> r == Silinemedi(GecersizAd)
      ensures DeseneUyar(filename) && filename !in old(files) ==> r == Silinemedi(Bulunamadi)
      ensures r == Silindi <==> DeseneUyar(filename) && filename in old(files)
      ensures files == if r == Silindi then old(files) - {filename} else old(files)
      ensures veritabani == old(veritabani)
    {
      if !DeseneUyar(filename) {
        return Silinemedi(GecersizAd);
      }
      if filename !in files {
        return Silinemedi(Bulunamadi);
      }
      files := files - {filename};
      r := Silindi;
    }

    /** `cleanup(keepCount)`, with the folder's listing as a parameter: every
     *  backup past the newest `keepCount` is passed to `delete`, and only the
     *  removals that succeed are counted. */
    method Cleanup(keepCount: nat, names: seq<string>) returns (deletedCount: nat)
      requires Listeler(names, files)
      modifies this
      ensures deletedCount == |Silinecekler(Liste(names, old(files)), keepCount)|
      ensures files == old(files) - Silinecekler(Liste(names, old(files)), keepCount)
      ensures veritabani == old(veritabani)
    {
      var backups := Liste(names, files);
      if |backups| <= keepCount {
        return 0;
      }
      ListeDogru(names, files);
      forall i | keepCount <= i < |backups| ensures backups[i].filename in files {
        assert backups[i] in backups;
      }
      deletedCount := EskileriSil(backups, keepCount);
    }

    /** The loop of `cleanup`: each entry past the first `keepCount` is
     *  passed to `delete`, and the successful removals are counted. */
    method EskileriSil(backups: seq<Yedek>, keepCount: nat) returns (deletedCount: nat)
      requires keepCount <= |backups|
      requires forall i :: keepCount <= i < |backups| ==> backups[i].filename in files
      modifies this
      ensures deletedCount == |DeseneUyanlar(backups[keepCount..])|
      ensures files == old(files) - DeseneUyanlar(backups[keepCount..])
      ensures veritabani == old(veritabani)
    {
      deletedCount := 0;
      ghost var eski := files;
      ghost var silinen: set<string> := {};
      var j := keepCount;
      while j < |backups|
        invariant keepCount <= j <= |backups|
        invariant silinen == DeseneUyanlar(backups[keepCount..j])
        invariant Silinmis(eski, files, silinen, deletedCount)
        invariant veritabani == old(veritabani)
      {
        var name := backups[j].filename;
        DeseneUyanlarAdimi(backups, keepCount, j);
        deletedCount := SilVeSay(name, eski, silinen, deletedCount);
        silinen := silinen + (if DeseneUyar(name) then {name} else {});
        j := j + 1;
      }
      assert backups[keepCount..j] == backups[keepCount..];
    }

    /** One turn of the `cleanup` loop: `delete` one entry of the folder
     *  `eski` and count it when it is removed. */
    method SilVeSay(name: string, ghost eski: map<string, Dosya>, ghost silinen: set<string>, n: nat)
      returns (m: nat)
      requires Silinmis(eski, files, silinen, n) && name in eski
      modifies this
      ensures Silinmis(eski, files, silinen + (if DeseneUyar(name) then {name} else {}), m)
      ensures veritabani == old(veritabani)
    {
      SilmeAdimi(eski, silinen, name);
      var r := Remove(name);
      m := if r == Silindi then n + 1 else n;
    }

    /** `getStats`, with the folder's listing as a parameter. */
    function GetStats(names: seq<string>): (st: Istatistik)
      reads this
      requires Listeler(names, files)
      ensures st.totalBackups == |Adaylar(names, files)|
      ensures st.totalSizeBytes == Toplam(Adaylar(names, files))
      ensures st.totalSizeKb == Kb(st.totalSizeBytes)
    {
      var xs := Liste(names, files);
      SiralaToplam(Adaylar(names, files));
      Istatistik(|xs|, Toplam(xs), Kb(Toplam(xs)))
    }
  }
}
