/** `backend/src/models/settings.js`: the settings table (ayarlar) over its
 *  built-in defaults, the bulk update that refuses system keys, and the
 *  first-run setup that creates the admin. */
module Settings {
  import opened Wrappers
  import opened Strings
  import Users

  /** A built-in setting: its key, default, description and whether the
   *  user may change it. */
  datatype Tanim = Tanim(key: string, varsayilan: Option<string>, aciklama: string, editable: bool)

  const DefaultSettings: seq<Tanim> := [
    Tanim("app_version", Some("1.0.0"), "Uygulama versiyonu", false),
    Tanim("db_created_at", None, "Veritabanı oluşturulma tarihi", false),
    Tanim("setup_completed", Some("false"), "İlk kurulum tamamlandı mı", false),
    Tanim("company_name", Some(""), "Şirket adı", true),
    Tanim("backup_retention_days", Some("30"), "Yedek saklama süresi (gün)", true),
    Tanim("auto_backup_enabled", Some("true"), "Otomatik yedekleme aktif mi", true),
    Tanim("session_timeout_hours", Some("24"), "Oturum süresi (saat)", true),
    Tanim("vade_uyari_gun", Some("7"), "Vade uyarısı kaç gün önce", true)
  ]

  /** Where a key first appears among the built-ins; `|DefaultSettings|`
   *  when it is not one of them. */
  function Sira(key: string): (i: nat)
    ensures i <= |DefaultSettings|
    ensures i < |DefaultSettings| ==> DefaultSettings[i].key == key
  {
    SiraAra(key, 0)
  }

  /** No built-in before `Sira(key)` has the key. */
  lemma SiraIlk(key: string)
    ensures forall j :: 0 <= j < Sira(key) ==> DefaultSettings[j].key != key
  {
  }

  function SiraAra(key: string, i: nat): (r: nat)
    requires i <= |DefaultSettings|
    requires forall j :: 0 <= j < i ==> DefaultSettings[j].key != key
    ensures i <= r <= |DefaultSettings|
    ensures r < |DefaultSettings| ==> DefaultSettings[r].key == key
    ensures forall j :: 0 <= j < r ==> DefaultSettings[j].key != key
    decreases |DefaultSettings| - i
  {
    if i == |DefaultSettings| || DefaultSettings[i].key == key then i
    else SiraAra(key, i + 1)
  }

  /** `DEFAULT_SETTINGS[key]`: the built-in entry of a key, if any. */
  function Tanimi(key: string): (r: Option<Tanim>)
    ensures r.Some? ==> r.value.key == key
  {
    if Sira(key) < |DefaultSettings| then Some(DefaultSettings[Sira(key)]) else None
  }

  /** Exactly the built-in keys have an entry, and it is their own. */
  lemma TanimiVar(key: string)
    ensures Tanimi(key).Some? <==> exists i :: 0 <= i < |DefaultSettings| && DefaultSettings[i].key == key
    ensures Tanimi(key).Some? ==> Tanimi(key).value in DefaultSettings
  {
    SiraIlk(key);
  }

  /** A key the user may not change: a built-in one marked not editable. */
  predicate Korumali(key: string)
  {
    Tanimi(key).Some? && !Tanimi(key).value.editable
  }

  /** The system keys are exactly the first three built-ins. */
  lemma KorumaliAnahtarlar(key: string)
    ensures Korumali(key) <==> key in ["app_version", "db_created_at", "setup_completed"]
  {
    if key in ["app_version", "db_created_at", "setup_completed"] {
      assert DefaultSettings[0].key == "app_version";
      assert DefaultSettings[1].key == "db_created_at";
      assert DefaultSettings[2].key == "setup_completed";
    }
  }

  /** The names every JavaScript object inherits from `Object.prototype`:
   *  `DEFAULT_SETTINGS[key]` finds a function or an object under each of
   *  them although none is a setting. */
  const ProtoAdlari: set<string> := {
    "constructor", "__proto__", "toString", "toLocaleString", "valueOf", "hasOwnProperty",
    "isPrototypeOf", "propertyIsEnumerable", "__defineGetter__", "__defineSetter__",
    "__lookupGetter__", "__lookupSetter__"
  }

  /** No built-in setting has an inherited name. */
  lemma MirasTanimsiz(key: string)
    requires key in ProtoAdlari
    ensures Tanimi(key).None?
  {
    TanimiVar(key);
    forall i | 0 <= i < |DefaultSettings| ensures DefaultSettings[i].key != key {
      assert DefaultSettings[i].key[0] != key[0] || DefaultSettings[i].key[1] != key[1] || |DefaultSettings[i].key| != |key|;
    }
  }

  /** A key `updateMultiple` refuses: `DEFAULT_SETTINGS[key]` is truthy and
   *  its `editable` is not -- a system key, or an inherited name, whose
   *  `editable` is undefined. */
  predicate YazmaYasak(key: string)
  {
    Korumali(key) || (Tanimi(key).None? && key in ProtoAdlari)
  }

  /** The refused keys are the three system keys and the inherited names. */
  lemma YazmaYasakAnahtarlar(key: string)
    ensures YazmaYasak(key) <==> key in ["app_version", "db_created_at", "setup_completed"] || key in ProtoAdlari
  {
    KorumaliAnahtarlar(key);
    if key in ProtoAdlari { MirasTanimsiz(key); }
  }

  /** One entry of `getAll`'s answer. */
  datatype Girdi = Girdi(value: Option<string>, aciklama: string, editable: bool)

  datatype SetupStatus = SetupStatus(
    setupCompleted: bool, hasAdmin: bool, userCount: nat, appVersion: string, dbCreatedAt: Option<string>)

  datatype Guncelleme = Guncelleme(success: bool, updated: seq<string>, errors: seq<string>)

  datatype SetupVerisi = SetupVerisi(username: string, password: string, adSoyad: string, companyName: Option<string>)

  datatype SetupSonucu = Kuruldu(userId: int) | Kurulmadi(message: string)

  // --------------------------------------------------------- parseInt

  function HexValue(c: char): (v: Option<nat>)
    ensures v.Some? ==> v.value < 16
  {
    if '0' <= c <= '9' then Some(c as int - '0' as int)
    else if 'a' <= c <= 'f' then Some(c as int - 'a' as int + 10)
    else if 'A' <= c <= 'F' then Some(c as int - 'A' as int + 10)
    else None
  }

  function RakamDegeri(c: char, taban: nat): Option<nat>
  {
    match HexValue(c)
    case None => None
    case Some(v) => if v < taban then Some(v) else None
  }

  /** The length of the longest prefix of digits in the base. */
  function RakamOnEki(s: string, taban: nat): (n: nat)
    ensures n <= |s|
    ensures forall i :: 0 <= i < n ==> RakamDegeri(s[i], taban).Some?
    ensures n < |s| ==> RakamDegeri(s[n], taban).None?
  {
    if s == [] || RakamDegeri(s[0], taban).None? then 0 else 1 + RakamOnEki(s[1..], taban)
  }

  /** The value of a string of digits in the base. */
  function SayiDegeri(s: string, taban: nat): nat
  {
    if s == [] then 0
    else
      var d := RakamDegeri(s[|s| - 1], taban);
      taban * SayiDegeri(s[..|s| - 1], taban) + (if d.Some? then d.value else 0)
  }

  /** The text after an optional leading sign. */
  function Isaretsiz(t: string): string
  {
    if |t| > 0 && (t[0] == '-' || t[0] == '+') then t[1..] else t
  }

  /** Whether the digits start with `0x` or `0X`. */
  predicate HexMi(u: string)
  {
    |u| >= 2 && u[0] == '0' && (u[1] == 'x' || u[1] == 'X')
  }

  function Taban(u: string): nat
  {
    if HexMi(u) then 16 else 10
  }

  function Govde(u: string): string
  {
    if HexMi(u) then u[2..] else u
  }

  /** JavaScript's `parseInt(s)` without a radix: leading white space is
   *  skipped, a sign is read, `0x` switches to base 16, and the longest run
   *  of digits is read; with no digit the result is `NaN` (`None`). */
  function ParseInt(s: string): (r: Option<int>)
    ensures r.None? <==> RakamOnEki(Govde(Isaretsiz(TrimStart(s))), Taban(Isaretsiz(TrimStart(s)))) == 0
  {
    var t := TrimStart(s);
    var u := Isaretsiz(t);
    var govde := Govde(u);
    var n := RakamOnEki(govde, Taban(u));
    if n == 0 then None
    else
      var v: int := SayiDegeri(govde[..n], Taban(u));
      Some(if |t| > 0 && t[0] == '-' then -v else v)
  }

  lemma {:induction false} OndalikRakamlar(s: string)
    requires AllDigits(s)
    ensures forall i :: 0 <= i < |s| ==> RakamDegeri(s[i], 10).Some?
    ensures SayiDegeri(s, 10) == DigitsValue(s)
  {
    if s != [] {
      OndalikRakamlar(s[..|s| - 1]);
    }
  }

  lemma {:induction false} OnEkTamami(s: string, taban: nat)
    requires forall i :: 0 <= i < |s| ==> RakamDegeri(s[i], taban).Some?
    ensures RakamOnEki(s, taban) == |s|
  {
    if s != [] {
      OnEkTamami(s[1..], taban);
    }
  }

  /** What `String(n)` prints, `parseInt` reads back. */
  lemma ParseIntOfNat(n: nat)
    ensures ParseInt(NatToString(n)) == Some(n)
  {
    var s := NatToString(n);
    RakamlarSade(s);
    OndalikRakamlar(s);
    OnEkTamami(s, 10);
    assert s[..|s|] == s;
    DigitsValueOfNatToString(n);
  }

  /** A run of decimal digits has no leading blank, no sign and no `0x`. */
  lemma RakamlarSade(s: string)
    requires s != [] && AllDigits(s)
    ensures TrimStart(s) == s && Isaretsiz(s) == s && !HexMi(s)
  {
    assert IsDigit(s[0]);
    if |s| >= 2 { assert IsDigit(s[1]); }
  }

  // ------------------------------------------------------------- the table

  /** `get` on the table's rows: the stored value, else the built-in
   *  default, else null. */
  function Oku(ayarlar: map<string, string>, key: string): (r: Option<string>)
    ensures key in ayarlar ==> r == Some(ayarlar[key])
    ensures key !in ayarlar && Tanimi(key).Some? ==> r == Tanimi(key).value.varsayilan
    ensures key !in ayarlar && Tanimi(key).None? ==> r.None?
  {
    if key in ayarlar then Some(ayarlar[key])
    else if Tanimi(key).Some? then Tanimi(key).value.varsayilan
    else None
  }

  /** What `get` returns in JavaScript: a text, null, or undefined. */
  datatype Deger = Metin(s: string) | Null | Undefined

  /** A value as `getBoolean` and `getInt` read it: null and undefined both
   *  fail `=== 'true'` and both give `NaN` to `parseInt`. */
  function Okunan(d: Deger): Option<string>
  {
    if d.Metin? then Some(d.s) else None
  }

  /** `get` as written: an unstored inherited name finds a truthy
   *  `DEFAULT_SETTINGS[key]` whose `default` is undefined. Elsewhere the
   *  answer is `Oku`'s. */
  function Getir(ayarlar: map<string, string>, key: string): (r: Deger)
    ensures r.Undefined? <==> key !in ayarlar && key in ProtoAdlari
    ensures Okunan(r) == Oku(ayarlar, key)
    ensures r.Null? <==> Oku(ayarlar, key).None? && !(key !in ayarlar && key in ProtoAdlari)
  {
    if key in ayarlar then Metin(ayarlar[key])
    else if Tanimi(key).Some? then (if Tanimi(key).value.varsayilan.Some? then Metin(Tanimi(key).value.varsayilan.value) else Null)
    else if key in ProtoAdlari then Undefined
    else Null
  }

  const DefaultKeys: set<string> := set t | t in DefaultSettings :: t.key

  /** Whether `getAll` lists a key: a built-in the caller may see, or with
   *  `includeSystem` any stored key but an inherited name (`result[key]`
   *  finds the inherited member, so the second pass skips it). */
  predicate Gorunur(ayarlar: map<string, string>, includeSystem: bool, k: string)
  {
    (Tanimi(k).Some? && (includeSystem || Tanimi(k).value.editable)) || (includeSystem && k in ayarlar && k !in ProtoAdlari)
  }

  /** The entry `getAll` lists for a key: a built-in's stored value over its
   *  default, or a stored key's value as an editable entry. */
  function GirdiOf(ayarlar: map<string, string>, k: string): Girdi
    requires Tanimi(k).Some? || k in ayarlar
  {
    if Tanimi(k).Some? then
      Girdi(if k in ayarlar then Some(ayarlar[k]) else Tanimi(k).value.varsayilan,
            Tanimi(k).value.aciklama, Tanimi(k).value.editable)
    else Girdi(Some(ayarlar[k]), "", true)
  }

  /** `getAll`'s answer, stated at once. */
  function TumAyarlar(ayarlar: map<string, string>, includeSystem: bool): (r: map<string, Girdi>)
  {
    map k | k in DefaultKeys + ayarlar.Keys && Gorunur(ayarlar, includeSystem, k) :: GirdiOf(ayarlar, k)
  }

  /** No two built-ins share a key: only `backup_retention_days` and
   *  `session_timeout_hours` have the same length. */
  lemma AnahtarlarFarkli(i: nat, j: nat)
    requires i < |DefaultSettings| && j < |DefaultSettings| && i != j
    ensures DefaultSettings[i].key != DefaultSettings[j].key
  {
    if (i == 4 && j == 6) || (i == 6 && j == 4) {
      assert DefaultSettings[i].key[0] != DefaultSettings[j].key[0];
    } else {
      assert |DefaultSettings[i].key| != |DefaultSettings[j].key|;
    }
  }

  /** Each built-in is found under its own key. */
  lemma TanimiOf(i: nat)
    requires i < |DefaultSettings|
    ensures Sira(DefaultSettings[i].key) == i
  {
    var key := DefaultSettings[i].key;
    SiraIlk(key);
    if Sira(key) != i {
      AnahtarlarFarkli(i, if Sira(key) < i then Sira(key) else i);
    }
  }

  /** A key with a built-in entry is one of the built-in keys. */
  lemma TanimliAnahtar(k: string)
    requires Tanimi(k).Some?
    ensures k in DefaultKeys
  {
  }

  /** `getAll` lists exactly the visible keys. */
  lemma TumAyarlarAnahtar(ayarlar: map<string, string>, includeSystem: bool, k: string)
    ensures k in TumAyarlar(ayarlar, includeSystem) <==> Gorunur(ayarlar, includeSystem, k)
  {
    if Tanimi(k).Some? { TanimliAnahtar(k); }
  }

  /** `getAll` and `get` agree on every listed key's value. */
  lemma GetAllAgreesWithGet(ayarlar: map<string, string>, includeSystem: bool, k: string)
    requires k in TumAyarlar(ayarlar, includeSystem)
    ensures TumAyarlar(ayarlar, includeSystem)[k].value == Oku(ayarlar, k)
  {
  }

  /** Without `includeSystem` no system key is listed, and with it every
   *  built-in and every stored key but an inherited name is. */
  lemma GetAllHidesSystemKeys(ayarlar: map<string, string>, k: string)
    ensures k in TumAyarlar(ayarlar, false) ==> !Korumali(k) && Tanimi(k).Some?
    ensures k in TumAyarlar(ayarlar, true) <==> Tanimi(k).Some? || (k in ayarlar && k !in ProtoAdlari)
  {
    if Tanimi(k).Some? { TanimliAnahtar(k); }
  }

  /** `getInt`'s reading of a value: `parseInt`, with null read as the text
   *  `null`, and the default for `NaN`. */
  function IntOf(v: Option<string>, varsayilan: int): int
  {
    var p := ParseInt(if v.Some? then v.value else "null");
    if p.Some? then p.value else varsayilan
  }

  /** `getBoolean`'s reading of a value. */
  predicate BoolOf(v: Option<string>)
  {
    v == Some("true") || v == Some("1")
  }

  /** A stored count reads back as itself; a missing one as the default. */
  lemma {:induction false} IntOfReadsBack(n: nat, varsayilan: int)
    ensures IntOf(Some(NatToString(n)), varsayilan) == n
    ensures IntOf(None, varsayilan) == varsayilan
  {
    ParseIntOfNat(n);
    NullIsNaN();
  }

  /** `parseInt(null)` is `NaN`: the text `null` has no leading digit. */
  lemma NullIsNaN()
    ensures ParseInt("null").None?
  {
    assert !IsJsSpace('n');
    assert TrimStart("null") == "null";
    assert Isaretsiz("null") == "null";
    assert !HexMi("null");
    assert RakamDegeri('n', 10).None?;
  }

  /** A fresh table reads its built-in defaults: backups kept 30 days and on,
   *  a due date warned 7 days ahead, and setup not completed. */
  lemma FreshTableDefaults()
    ensures IntOf(Oku(map[], "backup_retention_days"), 0) == 30
    ensures IntOf(Oku(map[], "vade_uyari_gun"), 0) == 7
    ensures BoolOf(Oku(map[], "auto_backup_enabled"))
    ensures !BoolOf(Oku(map[], "setup_completed"))
  {
    RetentionDefault();
    WarningDaysDefault();
    AutoBackupDefault();
    SetupDefault();
  }

  lemma AutoBackupDefault()
    ensures BoolOf(Oku(map[], "auto_backup_enabled"))
  {
    TanimiOf(5);
    assert Oku(map[], "auto_backup_enabled") == Some("true");
  }

  lemma SetupDefault()
    ensures !BoolOf(Oku(map[], "setup_completed"))
  {
    TanimiOf(2);
    assert Oku(map[], "setup_completed") == Some("false");
  }

  lemma RetentionDefault()
    ensures IntOf(Oku(map[], "backup_retention_days"), 0) == 30
  {
    TanimiOf(4);
    assert Oku(map[], "backup_retention_days") == Some("30");
    SmallNumerals();
    IntOfReadsBack(30, 0);
  }

  lemma WarningDaysDefault()
    ensures IntOf(Oku(map[], "vade_uyari_gun"), 0) == 7
  {
    TanimiOf(7);
    assert Oku(map[], "vade_uyari_gun") == Some("7");
    SmallNumerals();
    IntOfReadsBack(7, 0);
  }

  lemma SmallNumerals()
    ensures NatToString(30) == "30" && NatToString(7) == "7"
  {
    assert DigitChar(3) == '3' && DigitChar(0) == '0' && DigitChar(7) == '7';
    assert NatToString(30) == NatToString(3) + [DigitChar(0)];
  }

  // ------------------------------------------------------ updateMultiple

  function Duzenlenemez(key: string): string
  {
    "'" + key + "' ayarı düzenlenemez"
  }

  function Kaydedilemedi(key: string): string
  {
    "'" + key + "' ayarı kaydedilemedi"
  }

  /** Whether `updateMultiple` writes an entry: not a refused key, and the
   *  database accepts the write (`basarisiz` holds the keys whose write
   *  fails). */
  predicate Yazilir(key: string, basarisiz: set<string>)
  {
    !YazmaYasak(key) && key !in basarisiz
  }

  /** `updateMultiple`'s answer over the entries in order. */
  function Sonuc(settings: seq<(string, string)>, basarisiz: set<string>): (g: Guncelleme)
  {
    if settings == [] then Guncelleme(true, [], [])
    else
      var g := Sonuc(settings[..|settings| - 1], basarisiz);
      var key := settings[|settings| - 1].0;
      if YazmaYasak(key) then Guncelleme(false, g.updated, g.errors + [Duzenlenemez(key)])
      else if key in basarisiz then Guncelleme(false, g.updated, g.errors + [Kaydedilemedi(key)])
      else Guncelleme(g.errors == [], g.updated + [key], g.errors)
  }

  /** The rows after `updateMultiple`: each written entry upserted in order. */
  function Yazilmis(ayarlar: map<string, string>, settings: seq<(string, string)>, basarisiz: set<string>): map<string, string>
  {
    if settings == [] then ayarlar
    else
      var m := Yazilmis(ayarlar, settings[..|settings| - 1], basarisiz);
      var (key, value) := settings[|settings| - 1];
      if Yazilir(key, basarisiz) then m[key := value] else m
  }

  /** One more entry of the request, as `updateMultiple`'s loop takes it:
   *  a refused key is reported, */
  lemma SonucKorumali(settings: seq<(string, string)>, i: nat, basarisiz: set<string>, g: Guncelleme)
    requires i < |settings| && YazmaYasak(settings[i].0)
    requires g == Sonuc(settings[..i], basarisiz)
    ensures Sonuc(settings[..i + 1], basarisiz) == Guncelleme(false, g.updated, g.errors + [Duzenlenemez(settings[i].0)])
  {
    assert settings[..i + 1][..i] == settings[..i];
  }

  /** a failed write is reported, */
  lemma SonucBasarisiz(settings: seq<(string, string)>, i: nat, basarisiz: set<string>, g: Guncelleme)
    requires i < |settings| && !YazmaYasak(settings[i].0) && settings[i].0 in basarisiz
    requires g == Sonuc(settings[..i], basarisiz)
    ensures Sonuc(settings[..i + 1], basarisiz) == Guncelleme(false, g.updated, g.errors + [Kaydedilemedi(settings[i].0)])
  {
    assert settings[..i + 1][..i] == settings[..i];
  }

  /** and a written key is listed. */
  lemma SonucYazildi(settings: seq<(string, string)>, i: nat, basarisiz: set<string>, g: Guncelleme)
    requires i < |settings| && !YazmaYasak(settings[i].0) && settings[i].0 !in basarisiz
    requires g == Sonuc(settings[..i], basarisiz)
    ensures Sonuc(settings[..i + 1], basarisiz) == Guncelleme(g.errors == [], g.updated + [settings[i].0], g.errors)
  {
    assert settings[..i + 1][..i] == settings[..i];
  }

  lemma YazilmisYazilir(ayarlar: map<string, string>, settings: seq<(string, string)>, i: nat, basarisiz: set<string>)
    requires i < |settings| && Yazilir(settings[i].0, basarisiz)
    ensures Yazilmis(ayarlar, settings[..i + 1], basarisiz)
              == Yazilmis(ayarlar, settings[..i], basarisiz)[settings[i].0 := settings[i].1]
  {
    assert settings[..i + 1][..i] == settings[..i];
  }

  lemma YazilmisYazilmaz(ayarlar: map<string, string>, settings: seq<(string, string)>, i: nat, basarisiz: set<string>)
    requires i < |settings| && !Yazilir(settings[i].0, basarisiz)
    ensures Yazilmis(ayarlar, settings[..i + 1], basarisiz) == Yazilmis(ayarlar, settings[..i], basarisiz)
  {
    assert settings[..i + 1][..i] == settings[..i];
  }

  /** Every entry is either updated or reported, never both, and the
   *  update succeeds exactly when every entry was written. */
  lemma {:induction false} SonucBolunme(settings: seq<(string, string)>, basarisiz: set<string>)
    ensures |Sonuc(settings, basarisiz).updated| + |Sonuc(settings, basarisiz).errors| == |settings|
    ensures Sonuc(settings, basarisiz).success <==> Sonuc(settings, basarisiz).errors == []
    ensures Sonuc(settings, basarisiz).success <==> HepsiYazilir(settings, basarisiz)
  {
    if settings != [] {
      var init := settings[..|settings| - 1];
      SonucBolunme(init, basarisiz);
      HepsiYazilirAdimi(settings, basarisiz);
    }
  }

  predicate HepsiYazilir(settings: seq<(string, string)>, basarisiz: set<string>)
  {
    forall i :: 0 <= i < |settings| ==> Yazilir(settings[i].0, basarisiz)
  }

  lemma HepsiYazilirAdimi(settings: seq<(string, string)>, basarisiz: set<string>)
    requires settings != []
    ensures HepsiYazilir(settings, basarisiz) <==>
              HepsiYazilir(settings[..|settings| - 1], basarisiz) && Yazilir(settings[|settings| - 1].0, basarisiz)
  {
    var init := settings[..|settings| - 1];
    assert forall i :: 0 <= i < |init| ==> init[i] == settings[i];
  }

  /** The updated keys are the sent keys that were written. */
  lemma {:induction false} SonucGuncellenen(settings: seq<(string, string)>, basarisiz: set<string>, k: string)
    ensures k in Sonuc(settings, basarisiz).updated <==>
              Yazilir(k, basarisiz) && exists i :: 0 <= i < |settings| && settings[i].0 == k
  {
    if settings != [] {
      var init := settings[..|settings| - 1];
      SonucGuncellenen(init, basarisiz, k);
      GuncellenenAdimi(settings, basarisiz, k);
      GonderildiAdimi(settings, k);
    }
  }

  lemma GuncellenenAdimi(settings: seq<(string, string)>, basarisiz: set<string>, k: string)
    requires settings != []
    ensures var n := |settings| - 1;
      k in Sonuc(settings, basarisiz).updated <==>
        k in Sonuc(settings[..n], basarisiz).updated || (settings[n].0 == k && Yazilir(k, basarisiz))
  {
  }

  lemma GonderildiAdimi(settings: seq<(string, string)>, k: string)
    requires settings != []
    ensures var n := |settings| - 1;
      (exists i :: 0 <= i < |settings| && settings[i].0 == k) <==>
        (exists i :: 0 <= i < n && settings[..n][i].0 == k) || settings[n].0 == k
  {
    var n := |settings| - 1;
    var init := settings[..n];
    if exists i :: 0 <= i < |settings| && settings[i].0 == k {
      var i :| 0 <= i < |settings| && settings[i].0 == k;
      if i < n { assert init[i] == settings[i]; }
    }
    if exists i :: 0 <= i < n && init[i].0 == k {
      var i :| 0 <= i < n && init[i].0 == k;
      assert settings[i] == init[i];
    }
  }

  /** A refused key (a system key or an inherited name) keeps its row (or
   *  its absence) whatever is sent, and so does every key that is not sent. */
  lemma {:induction false} YazilmisKorur(ayarlar: map<string, string>, settings: seq<(string, string)>,
                                          basarisiz: set<string>, k: string)
    requires YazmaYasak(k) || forall i :: 0 <= i < |settings| ==> settings[i].0 != k
    ensures k in Yazilmis(ayarlar, settings, basarisiz) <==> k in ayarlar
    ensures k in ayarlar ==> Yazilmis(ayarlar, settings, basarisiz)[k] == ayarlar[k]
  {
    if settings != [] {
      var init := settings[..|settings| - 1];
      assert forall i :: 0 <= i < |init| ==> init[i] == settings[i];
      YazilmisKorur(ayarlar, init, basarisiz, k);
    }
  }

  /** `updateMultiple({toString: 'x'})` refuses the inherited name as not
   *  editable and writes nothing. */
  lemma ToStringDuzenlenemez(ayarlar: map<string, string>)
    ensures Sonuc([("toString", "x")], {}) == Guncelleme(false, [], [Duzenlenemez("toString")])
    ensures Yazilmis(ayarlar, [("toString", "x")], {}) == ayarlar
  {
    MirasTanimsiz("toString");
    assert YazmaYasak("toString");
    assert [("toString", "x")][..0] == [];
  }

  /** The status of `GET /api/settings/:key` (`routes/settings.js`): 404
   *  when `get` gives null, 403 for a non-admin when the key's meta is not
   *  editable (the same test `updateMultiple` refuses by), else 200. */
  function AyarGetirDurumu(ayarlar: map<string, string>, key: string, admin: bool): (status: nat)
    ensures status == 404 <==> Getir(ayarlar, key).Null?
    ensures status == 403 <==> !Getir(ayarlar, key).Null? && YazmaYasak(key) && !admin
    ensures status == 200 || status == 403 || status == 404
  {
    if Getir(ayarlar, key).Null? then 404
    else if YazmaYasak(key) && !admin then 403
    else 200
  }

  /** An unknown key is not found, but an inherited name is forbidden to a
   *  user and answered (with an undefined value) to an admin. */
  lemma AyarGetirOrnekleri()
    ensures AyarGetirDurumu(map[], "yok", false) == 404
    ensures AyarGetirDurumu(map[], "toString", false) == 403
    ensures AyarGetirDurumu(map[], "toString", true) == 200
    ensures Getir(map[], "toString") == Undefined
  {
    MirasTanimsiz("toString");
    assert Tanimi("yok").None? by {
      TanimiVar("yok");
      forall i | 0 <= i < |DefaultSettings| ensures DefaultSettings[i].key != "yok" {
        assert |DefaultSettings[i].key| != 3;
      }
    }
  }

  // ---------------------------------------------------------- first run

  /** `getSetupStatus` over the two tables: setup counts as completed only
   *  when it is marked so and an admin exists. */
  function Durum(ayarlar: map<string, string>, users: map<int, Users.User>): (st: SetupStatus)
  {
    var hasAdmin := exists id :: id in users && users[id].role == "admin";
    var appVersion := Oku(ayarlar, "app_version");
    SetupStatus(Oku(ayarlar, "setup_completed") == Some("true") && hasAdmin, hasAdmin, |users|,
                if appVersion.Some? && appVersion.value != "" then appVersion.value else "1.0.0",
                Oku(ayarlar, "db_created_at"))
  }

  /** A fresh installation is not set up, and a status never reports setup
   *  completed without an admin. */
  lemma DurumKurallari(ayarlar: map<string, string>, users: map<int, Users.User>)
    ensures Durum(ayarlar, users).setupCompleted ==> Durum(ayarlar, users).hasAdmin
    ensures !Durum(map[], users).setupCompleted
    ensures Durum(map[], users).appVersion == "1.0.0"
    ensures users == map[] ==> !Durum(ayarlar, users).setupCompleted
  {
    TanimiOf(0);
    TanimiOf(2);
  }

  const ZatenKurulmus := "Kurulum zaten tamamlanmış"
  const AdKullanimda := "Bu kullanıcı adı zaten kullanılıyor"

  /** The rows `performSetup` writes once the admin exists: the company name
   *  when one was given, and the completion marks. */
  function Kurulum(ayarlar: map<string, string>, companyName: Option<string>, now: string, userId: int): map<string, string>
  {
    var a := if companyName.Some? && companyName.value != "" then ayarlar["company_name" := companyName.value] else ayarlar;
    a["setup_completed" := "true"]["setup_completed_at" := now]["setup_completed_by" := IntToString(userId)]
  }

  /** After a setup that created an admin the status reads completed, names
   *  the admin, and every other row is as it was. */
  lemma {:induction false} KurulumTamamlar(ayarlar: map<string, string>, users: map<int, Users.User>,
                                           companyName: Option<string>, now: string, id: int, admin: Users.User)
    requires admin.role == "admin"
    ensures Durum(Kurulum(ayarlar, companyName, now, id), users[id := admin]).setupCompleted
    ensures Durum(Kurulum(ayarlar, companyName, now, id), users[id := admin]).hasAdmin
    ensures Oku(Kurulum(ayarlar, companyName, now, id), "setup_completed_by") == Some(IntToString(id))
    ensures forall k :: k !in {"company_name", "setup_completed", "setup_completed_at", "setup_completed_by"} ==>
              Oku(Kurulum(ayarlar, companyName, now, id), k) == Oku(ayarlar, k)
  {
    assert id in users[id := admin] && users[id := admin][id].role == "admin";
  }

  /** `getAll`'s first pass after the first `i` built-ins: the visible ones
   *  among them are listed with their entries. */
  ghost predicate IlkTur(result: map<string, Girdi>, ayarlar: map<string, string>, includeSystem: bool, i: nat)
  {
    && i <= |DefaultSettings|
    && IlkTurAnahtarlari(result, includeSystem, i)
    && (forall k :: k in result ==> Tanimi(k).Some? && result[k] == GirdiOf(ayarlar, k))
  }

  ghost predicate IlkTurAnahtarlari(result: map<string, Girdi>, includeSystem: bool, i: nat)
    requires i <= |DefaultSettings|
  {
    forall k :: k in result <==> Sira(k) < i && (includeSystem || DefaultSettings[Sira(k)].editable)
  }

  lemma IlkTurAnahtarAdim(result: map<string, Girdi>, g: Girdi, includeSystem: bool, i: nat)
    requires i < |DefaultSettings| && IlkTurAnahtarlari(result, includeSystem, i)
    ensures var t := DefaultSettings[i];
            IlkTurAnahtarlari(if includeSystem || t.editable then result[t.key := g] else result, includeSystem, i + 1)
  {
    var t := DefaultSettings[i];
    TanimiOf(i);
    var r := if includeSystem || t.editable then result[t.key := g] else result;
    forall k ensures k in r <==> Sira(k) < i + 1 && (includeSystem || DefaultSettings[Sira(k)].editable) {
      if k != t.key {
        assert Sira(k) != i;
      }
    }
  }

  lemma IlkTurAdim(result: map<string, Girdi>, ayarlar: map<string, string>, includeSystem: bool, i: nat)
    requires i < |DefaultSettings| && IlkTur(result, ayarlar, includeSystem, i)
    ensures var t := DefaultSettings[i];
            IlkTur(if includeSystem || t.editable then result[t.key := GirdiOf(ayarlar, t.key)] else result,
                   ayarlar, includeSystem, i + 1)
  {
    var t := DefaultSettings[i];
    TanimiOf(i);
    IlkTurAnahtarAdim(result, GirdiOf(ayarlar, t.key), includeSystem, i);
  }

  /** `getAll`'s second pass with the stored keys in `kalan` still to
   *  visit: the visible built-ins and the visited visible keys are listed. */
  ghost predicate IkinciTur(result: map<string, Girdi>, ayarlar: map<string, string>, includeSystem: bool, kalan: set<string>)
  {
    && (forall k :: k in result <==> Gorunur(ayarlar, includeSystem, k) && !(k in kalan && Tanimi(k).None?))
    && (forall k :: k in result ==> (Tanimi(k).Some? || k in ayarlar) && result[k] == GirdiOf(ayarlar, k))
  }

  lemma IkinciTurBasi(result: map<string, Girdi>, ayarlar: map<string, string>, includeSystem: bool)
    requires forall k :: k in result <==> Tanimi(k).Some? && (includeSystem || Tanimi(k).value.editable)
    requires forall k :: k in result ==> Tanimi(k).Some? && result[k] == GirdiOf(ayarlar, k)
    ensures IkinciTur(result, ayarlar, includeSystem, ayarlar.Keys)
  {
  }

  lemma IkinciTurEkler(result: map<string, Girdi>, ayarlar: map<string, string>, includeSystem: bool,
                       kalan: set<string>, k: string)
    requires IkinciTur(result, ayarlar, includeSystem, kalan) && k in kalan && kalan <= ayarlar.Keys
    requires k !in result && k !in ProtoAdlari && (includeSystem || (Tanimi(k).Some? && Tanimi(k).value.editable))
    ensures IkinciTur(result[k := Girdi(Some(ayarlar[k]), "", true)], ayarlar, includeSystem, kalan - {k})
  {
  }

  lemma IkinciTurAtlar(result: map<string, Girdi>, ayarlar: map<string, string>, includeSystem: bool,
                       kalan: set<string>, k: string)
    requires IkinciTur(result, ayarlar, includeSystem, kalan) && k in kalan && kalan <= ayarlar.Keys
    requires !(k !in result && k !in ProtoAdlari && (includeSystem || (Tanimi(k).Some? && Tanimi(k).value.editable)))
    ensures IkinciTur(result, ayarlar, includeSystem, kalan - {k})
  {
  }

  lemma IkinciTurSonu(result: map<string, Girdi>, ayarlar: map<string, string>, includeSystem: bool)
    requires IkinciTur(result, ayarlar, includeSystem, {})
    ensures result == TumAyarlar(ayarlar, includeSystem)
  {
    var tum := TumAyarlar(ayarlar, includeSystem);
    forall k ensures k in result <==> k in tum {
      TumAyarlarAnahtar(ayarlar, includeSystem, k);
    }
    assert result.Keys == tum.Keys;
    forall k | k in result ensures result[k] == tum[k] {
      assert result[k] == GirdiOf(ayarlar, k);
    }
  }

  class SettingsStore {
    var ayarlar: map<string, string>

    constructor (ayarlar: map<string, string>)
      ensures this.ayarlar == ayarlar
    {
      this.ayarlar := ayarlar;
    }

    /** `get`. */
    function Get(key: string): (r: Deger)
      reads this
      ensures Okunan(r) == Oku(ayarlar, key)
      ensures r.Undefined? <==> key !in ayarlar && key in ProtoAdlari
    {
      Getir(ayarlar, key)
    }

    /** `getBoolean`. */
    function GetBoolean(key: string): (b: bool)
      reads this
      ensures b == BoolOf(Oku(ayarlar, key))
    {
      BoolOf(Okunan(Get(key)))
    }

    /** `getInt`. */
    function GetInt(key: string, varsayilan: int): (n: int)
      reads this
      ensures n == IntOf(Oku(ayarlar, key), varsayilan)
    {
      IntOf(Okunan(Get(key)), varsayilan)
    }

    /** `set`, with the database's failure as a parameter: an upsert. */
    method Set(key: string, value: string, basarisiz: bool) returns (ok: bool)
      modifies this
      ensures ok == !basarisiz
      ensures ayarlar == if ok then old(ayarlar)[key := value] else old(ayarlar)
    {
      if basarisiz {
        return false;
      }
      ayarlar := ayarlar[key := value];
      ok := true;
    }

    /** `getAll`'s first pass: the built-ins the caller may see, each with
     *  its stored value over its default. */
    method VarsayilanGirdiler(includeSystem: bool) returns (result: map<string, Girdi>)
      ensures forall k :: k in result <==> Tanimi(k).Some? && (includeSystem || Tanimi(k).value.editable)
      ensures forall k :: k in result ==> Tanimi(k).Some? && result[k] == GirdiOf(ayarlar, k)
    {
      result := map[];
      var i := 0;
      while i < |DefaultSettings|
        invariant 0 <= i <= |DefaultSettings|
        invariant IlkTur(result, ayarlar, includeSystem, i)
      {
        var t := DefaultSettings[i];
        TanimiOf(i);
        IlkTurAdim(result, ayarlar, includeSystem, i);
        if includeSystem || t.editable {
          result := result[t.key := Girdi(if t.key in ayarlar then Some(ayarlar[t.key]) else t.varsayilan,
                                          t.aciklama, t.editable)];
        }
        i := i + 1;
      }
    }

    /** `getAll`: the built-ins first, then the stored keys not yet listed. */
    method GetAll(includeSystem: bool) returns (result: map<string, Girdi>)
      ensures result == TumAyarlar(ayarlar, includeSystem)
    {
      result := VarsayilanGirdiler(includeSystem);
      var kalan := ayarlar.Keys;
      IkinciTurBasi(result, ayarlar, includeSystem);
      while kalan != {}
        invariant kalan <= ayarlar.Keys
        invariant IkinciTur(result, ayarlar, includeSystem, kalan)
        decreases |kalan|
      {
        var k :| k in kalan;
        if k !in result && k !in ProtoAdlari && (includeSystem || (Tanimi(k).Some? && Tanimi(k).value.editable)) {
          IkinciTurEkler(result, ayarlar, includeSystem, kalan, k);
          result := result[k := Girdi(Some(ayarlar[k]), "", true)];
        } else {
          IkinciTurAtlar(result, ayarlar, includeSystem, kalan, k);
        }
        kalan := kalan - {k};
      }
      IkinciTurSonu(result, ayarlar, includeSystem);
    }

    /** `updateMultiple`, with the keys whose write fails as a parameter:
     *  system keys and inherited names are refused, the others written in
     *  order. */
    method UpdateMultiple(settings: seq<(string, string)>, basarisiz: set<string>) returns (g: Guncelleme)
      modifies this
      ensures g == Sonuc(settings, basarisiz)
      ensures ayarlar == Yazilmis(old(ayarlar), settings, basarisiz)
    {
      var updated: seq<string> := [];
      var errors: seq<string> := [];
      var i := 0;
      while i < |settings|
        invariant 0 <= i <= |settings|
        invariant Sonuc(settings[..i], basarisiz) == Guncelleme(errors == [], updated, errors)
        invariant ayarlar == Yazilmis(old(ayarlar), settings[..i], basarisiz)
      {
        var (key, value) := settings[i];
        ghost var g := Guncelleme(errors == [], updated, errors);
        if YazmaYasak(key) {
          SonucKorumali(settings, i, basarisiz, g);
          YazilmisYazilmaz(old(ayarlar), settings, i, basarisiz);
          errors := errors + [Duzenlenemez(key)];
        } else {
          var ok := Set(key, value, key in basarisiz);
          if ok {
            SonucYazildi(settings, i, basarisiz, g);
            YazilmisYazilir(old(ayarlar), settings, i, basarisiz);
            updated := updated + [key];
          } else {
            SonucBasarisiz(settings, i, basarisiz, g);
            YazilmisYazilmaz(old(ayarlar), settings, i, basarisiz);
            errors := errors + [Kaydedilemedi(key)];
          }
        }
        i := i + 1;
      }
      assert settings[..i] == settings;
      g := Guncelleme(errors == [], updated, errors);
    }

    /** `getSetupStatus`. */
    function GetSetupStatus(us: Users.UserStore): (st: SetupStatus)
      reads this, us
      ensures st == Durum(ayarlar, us.users)
    {
      Durum(ayarlar, us.users)
    }

    /** `performSetup`, with the password hash and the clock as parameters:
     *  refused once set up; otherwise the admin row and the setup rows are
     *  written together, or nothing is when the username is taken. */
    method PerformSetup(data: SetupVerisi, hash: string, now: string, us: Users.UserStore) returns (r: SetupSonucu)
      requires us.Valid()
      modifies this, us
      ensures us.Valid()
      ensures old(Durum(ayarlar, us.users)).setupCompleted ==> r == Kurulmadi(ZatenKurulmus)
      ensures !old(Durum(ayarlar, us.users)).setupCompleted && old(us.AdVar(data.username)) ==>
                r == Kurulmadi(AdKullanimda)
      ensures r.Kurulmadi? ==> ayarlar == old(ayarlar) && us.users == old(us.users)
      ensures r.Kuruldu? ==>
                && r.userId !in old(us.users)
                && us.users == old(us.users)[r.userId := Users.User(data.username, hash, data.adSoyad, "admin")]
                && ayarlar == Kurulum(old(ayarlar), data.companyName, now, r.userId)
                && Durum(ayarlar, us.users).setupCompleted
    {
      if GetSetupStatus(us).setupCompleted {
        return Kurulmadi(ZatenKurulmus);
      }
      var admin := Users.User(data.username, hash, data.adSoyad, "admin");
      var id := us.Insert(admin);
      if id.None? {
        return Kurulmadi(AdKullanimda);
      }
      if data.companyName.Some? && data.companyName.value != "" {
        var _ := Set("company_name", data.companyName.value, false);
      }
      var _ := Set("setup_completed", "true", false);
      var _ := Set("setup_completed_at", now, false);
      var _ := Set("setup_completed_by", IntToString(id.value), false);
      KurulumTamamlar(old(ayarlar), old(us.users), data.companyName, now, id.value, admin);
      r := Kuruldu(id.value);
    }
  }
}
