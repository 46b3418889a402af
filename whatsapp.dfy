/** `frontend/src/utils/whatsapp.ts`: Turkish phone numbers normalised for
 *  `wa.me`, their validity, the link, and the message template filled from
 *  a cheque or bill. `encodeURIComponent` and the locale's formatters are
 *  parameters. */
module Whatsapp {
  import opened Wrappers
  import opened Strings
  import opened Js
  import Currency

  // ------------------------------------------------------------ phone

  /** The characters `/[\s+\-()]/g` removes. */
  predicate Silinen(c: char)
  {
    IsJsSpace(c) || c == '+' || c == '-' || c == '(' || c == ')'
  }

  predicate Temiz(s: string)
  {
    forall i :: 0 <= i < |s| ==> !Silinen(s[i])
  }

  /** `phone.replace(/[\s+\-()]/g, '')` */
  function Temizle(s: string): (r: string)
    ensures Temiz(r) && |r| <= |s|
  {
    if s == [] then []
    else if Silinen(s[0]) then Temizle(s[1..])
    else [s[0]] + Temizle(s[1..])
  }

  /** The characters kept are exactly those of the input that are not
   *  removed. */
  lemma {:induction false} TemizleUyeler(s: string, c: char)
    ensures c in Temizle(s) <==> c in s && !Silinen(c)
  {
    if s != [] {
      TemizleUyeler(s[1..], c);
      assert s == [s[0]] + s[1..];
    }
  }

  /** A clean text is left as it is. */
  lemma {:induction false} TemizleTemiz(s: string)
    requires Temiz(s)
    ensures Temizle(s) == s
  {
    if s != [] {
      TemizleTemiz(s[1..]);
      assert s == [s[0]] + s[1..];
    }
  }

  /** `normalizePhoneNumber`: remove the separators; a leading `0` becomes
   *  `90`; a 10-character number not starting with `90` gets `90` in
   *  front. */
  function Normalize(phone: string): (r: string)
    ensures Temiz(r)
    ensures phone == "" ==> r == ""
  {
    if phone == "" then ""
    else
      var n := Temizle(phone);
      var n1 := if StartsWith(n, "0") then "90" + n[1..] else n;
      if !StartsWith(n1, "90") && |n1| == 10 then "90" + n1 else n1
  }

  /** The rules of `normalizePhoneNumber` on the cleaned number `n`: one
   *  leading zero is replaced by `90`; `90` is added only in front of ten
   *  characters that do not already start with it; anything else is kept. */
  lemma NormalizeKurallari(phone: string)
    requires phone != ""
    ensures var n := Temizle(phone);
      StartsWith(n, "0") ==> Normalize(phone) == "90" + n[1..]
    ensures var n := Temizle(phone);
      !StartsWith(n, "0") && !StartsWith(n, "90") && |n| == 10 ==> Normalize(phone) == "90" + n
    ensures var n := Temizle(phone);
      !StartsWith(n, "0") && (StartsWith(n, "90") || |n| != 10) ==> Normalize(phone) == n
    ensures var n := Temizle(phone);
      StartsWith(n, "00") ==> StartsWith(Normalize(phone), "900")
  {
    var n := Temizle(phone);
    if StartsWith(n, "00") {
      assert Normalize(phone)[..3] == "90" + n[1..2];
    }
  }

  /** Normalising twice changes nothing. */
  lemma NormalizeIdempotent(phone: string)
    ensures Normalize(Normalize(phone)) == Normalize(phone)
  {
    var r := Normalize(phone);
    if r != "" {
      TemizleTemiz(r);
      if phone != "" {
        var n := Temizle(phone);
        if StartsWith(n, "0") || (!StartsWith(n, "90") && |n| == 10) {
          assert StartsWith(r, "90");
          assert !StartsWith(r, "0");
        }
      }
    }
  }

  /** Digits are never removed. */
  lemma RakamlarTemiz(d: string)
    requires forall i :: 0 <= i < |d| ==> IsDigit(d[i])
    ensures Temiz(d)
  {
    forall i | 0 <= i < |d|
      ensures !Silinen(d[i])
    {
      assert IsDigit(d[i]);
    }
  }

  /** The documented shape `+90 ddd ddd dd dd`: the separators go and the
   *  twelve digits stay. */
  lemma {:induction false} OrnekBosluklu(a: string, b: string, c: string, d: string)
    requires forall i :: 0 <= i < |a| ==> IsDigit(a[i])
    requires forall i :: 0 <= i < |b| ==> IsDigit(b[i])
    requires forall i :: 0 <= i < |c| ==> IsDigit(c[i])
    requires forall i :: 0 <= i < |d| ==> IsDigit(d[i])
    requires |a| == 3 && |b| == 3 && |c| == 2 && |d| == 2
    ensures Normalize("+90 " + a + " " + b + " " + c + " " + d) == "90" + a + b + c + d
  {
    RakamlarTemiz(a);
    RakamlarTemiz(b);
    RakamlarTemiz(c);
    RakamlarTemiz(d);
    RakamlarTemiz("90");
    var t1 := " " + a + " " + b + " " + c + " " + d;
    TemizleBoslukla(a, b, c, d);
    TemizleAyrac("+", "90", t1);
    assert "+90 " + a + " " + b + " " + c + " " + d == "+" + "90" + t1;
    assert "90" + a + b + c + d == "90" + (a + b + c + d);
    DoksanlaBaslayan("+" + "90" + t1);
  }

  /** Clean pieces each preceded by a space lose the spaces. */
  lemma {:induction false} TemizleBoslukla(a: string, b: string, c: string, d: string)
    requires Temiz(a) && Temiz(b) && Temiz(c) && Temiz(d)
    ensures Temizle(" " + a + " " + b + " " + c + " " + d) == a + b + c + d
  {
    TemizleTemiz([]);
    var t4 := " " + d;
    TemizleAyrac(" ", d, []);
    assert " " + d + [] == t4 && d + [] == d;
    var t3 := " " + c + t4;
    TemizleAyrac(" ", c, t4);
    var t2 := " " + b + t3;
    TemizleAyrac(" ", b, t3);
    var t1 := " " + a + t2;
    TemizleAyrac(" ", a, t2);
    assert Temizle(t1) == a + (b + (c + d));
    Birlesim(a, b, c, d);
  }

  /** The spaced text is the same text however its parts are grouped. */
  lemma Birlesim(a: string, b: string, c: string, d: string)
    ensures " " + a + " " + b + " " + c + " " + d == " " + a + (" " + b + (" " + c + (" " + d)))
    ensures a + (b + (c + d)) == a + b + c + d
  {
  }

  /** A number whose cleaned form already starts with `90` is only
   *  cleaned. */
  lemma DoksanlaBaslayan(phone: string)
    requires phone != "" && StartsWith(Temizle(phone), "90")
    ensures Normalize(phone) == Temizle(phone)
  {
  }

  /** The documented shapes written with digits only: eleven starting with
   *  `0`, ten not starting with `0` or `90`, twelve starting with `90`. */
  lemma OrnekRakamli(d: string)
    requires forall i :: 0 <= i < |d| ==> IsDigit(d[i])
    ensures |d| == 11 && d[0] == '0' ==> Normalize(d) == "90" + d[1..]
    ensures |d| == 10 && d[0] != '0' && d[..2] != "90" ==> Normalize(d) == "90" + d
    ensures |d| == 12 && d[..2] == "90" ==> Normalize(d) == d
    ensures |d| > 0 ==> Normalize("+" + d) == Normalize(d)
  {
    RakamlarTemiz(d);
    TemizleTemiz(d);
    if |d| > 0 {
      TemizleAyrac("+", d, []);
      TemizleTemiz([]);
      assert "+" + d + [] == "+" + d;
      assert d + [] == d;
    }
  }

  /** Separators and then a clean piece: the separators go, the piece
   *  stays. */
  lemma {:induction false} TemizleAyrac(sep: string, a: string, b: string)
    requires forall i :: 0 <= i < |sep| ==> Silinen(sep[i])
    requires Temiz(a)
    ensures Temizle(sep + a + b) == a + Temizle(b)
    decreases |sep| + |a|
  {
    if sep != [] {
      assert (sep + a + b)[1..] == sep[1..] + a + b;
      TemizleAyrac(sep[1..], a, b);
    } else if a != [] {
      var t := a + b;
      assert sep + a + b == t;
      assert t[0] == a[0];
      assert Temizle(t) == [a[0]] + Temizle(t[1..]);
      assert t[1..] == [] + a[1..] + b;
      TemizleAyrac([], a[1..], b);
      assert [a[0]] + (a[1..] + Temizle(b)) == a + Temizle(b);
    } else {
      assert sep + a + b == b && a + Temizle(b) == Temizle(b);
    }
  }


  /** `/^90\d{10}$/`: `90` and ten ASCII digits. */
  predicate TurkNumarasi(n: string)
  {
    |n| == 12 && n[0] == '9' && n[1] == '0' && forall i :: 2 <= i < 12 ==> IsDigit(n[i])
  }

  /** `isValidPhoneNumber` */
  predicate GecerliTelefon(phone: string)
  {
    phone != "" && TurkNumarasi(Normalize(phone))
  }

  /** On a number written only with digits, validity is one of three
   *  shapes: twelve digits starting `90`, eleven starting `0`, or ten
   *  starting with neither `0` nor `90`. */
  lemma RakamliGecerlilik(d: string)
    requires |d| > 0 && forall i :: 0 <= i < |d| ==> IsDigit(d[i])
    ensures GecerliTelefon(d) <==>
      (|d| == 12 && d[..2] == "90")
      || (|d| == 11 && d[0] == '0')
      || (|d| == 10 && d[0] != '0' && d[..2] != "90")
  {
    assert Temiz(d) by {
      forall i | 0 <= i < |d|
        ensures !Silinen(d[i])
      {
        assert IsDigit(d[i]);
      }
    }
    TemizleTemiz(d);
    var r := Normalize(d);
    if d[0] == '0' {
      assert r == "90" + d[1..];
      assert forall i :: 2 <= i < |r| ==> r[i] == d[i - 1];
    } else if |d| == 10 && d[..2] != "90" {
      assert r == "90" + d;
      assert forall i :: 2 <= i < |r| ==> r[i] == d[i - 2];
    } else {
      assert r == d;
    }
  }

  /** A valid number is already normal: normalising it again keeps it
   *  valid and unchanged. */
  lemma GecerliNormal(phone: string)
    requires GecerliTelefon(phone)
    ensures GecerliTelefon(Normalize(phone)) && Normalize(Normalize(phone)) == Normalize(phone)
  {
    NormalizeIdempotent(phone);
  }

  // -------------------------------------------------------------- link

  const WaMe := "https://wa.me/"
  const TextParam := "?text="

  /** `createWhatsAppUrl`, with `encodeURIComponent` as `kodla`. */
  function WhatsAppUrl(telefon: string, mesaj: string, kodla: string -> string): (u: string)
  {
    WaMe + Normalize(telefon) + TextParam + kodla(mesaj)
  }

  /** The link reads back: after `https://wa.me/` comes the normalised
   *  number, and when the number holds no `?` the first `?` after it starts
   *  the encoded message. */
  lemma UrlParcalari(telefon: string, mesaj: string, kodla: string -> string)
    ensures var u := WhatsAppUrl(telefon, mesaj, kodla);
      var k := |WaMe| + |Normalize(telefon)|;
      k <= |u| && u[..|WaMe|] == WaMe && u[|WaMe|..k] == Normalize(telefon) && u[k..] == TextParam + kodla(mesaj)
    ensures '?' !in telefon ==> '?' !in Normalize(telefon)
  {
    var u := WhatsAppUrl(telefon, mesaj, kodla);
    var n := Normalize(telefon);
    assert u == WaMe + n + (TextParam + kodla(mesaj));
    if '?' !in telefon && telefon != "" {
      TemizleUyeler(telefon, '?');
      var c := Temizle(telefon);
      if StartsWith(c, "0") {
        assert '?' !in c[1..] by {
          forall i | 0 <= i < |c| - 1
            ensures c[1..][i] != '?'
          {
            assert c[1..][i] == c[i + 1];
          }
        }
        assert n == "90" + c[1..];
      }
    }
  }

  // ---------------------------------------------------------- template

  /** The fields of an `EvrakDetay` the template reads. Text fields may be
   *  null; the amount and the rate are numbers. */
  datatype EvrakBilgi = EvrakBilgi(
    evrakNo: Option<string>, tutar: real, paraBirimi: Option<string>, dovizKuru: Option<real>,
    vadeTarihi: Option<string>, evrakTarihi: Option<string>, kesideci: Option<string>,
    evrakTipi: string, durum: string, cariAdi: Option<string>,
    bankaAdiDisplay: Option<string>, bankaAdi: Option<string>)

  /** The locale's formatters: the two-decimal amount text, the rate's
   *  `toLocaleString('tr-TR')` and `formatDate`. */
  datatype Bicimler = Bicimler(para: real -> string, kur: real -> string, tarih: string -> string)

  /** `EVRAK_TIPI_LABELS[tip]` */
  function TipEtiketi(tip: string): Option<string>
  {
    if tip == "cek" then Some("Çek") else if tip == "senet" then Some("Senet") else None
  }

  /** `DURUM_LABELS[durum]` */
  function DurumEtiketi(durum: string): Option<string>
  {
    if durum == "portfoy" then Some("Portföy")
    else if durum == "bankada" then Some("Bankada")
    else if durum == "ciro" then Some("Ciro Edildi")
    else if durum == "tahsil" then Some("Tahsil Edildi")
    else if durum == "karsiliksiz" then Some("Karşılıksız")
    else None
  }

  /** `formatCurrency` of `services/dashboard.ts`, the one the template
   *  imports: `Intl.NumberFormat` with `currency: 'TRY'`, the lira sign
   *  before the two-decimal amount. It takes no currency. */
  function DashboardFormatCurrency(amount: real, bicim: real -> string): string
  {
    "₺" + bicim(amount)
  }

  /** The `{placeholder}`s of `MESSAGE_VARIABLES`, in the order the
   *  template replaces them. */
  const Yertutucular: seq<string> := [
    "{evrak_no}", "{tutar}", "{para_birimi}", "{doviz_kuru}", "{vade_tarihi}", "{evrak_tarihi}",
    "{kesideci}", "{evrak_tipi}", "{durum}", "{cari}", "{banka}"]

  /** The text each placeholder is replaced by, `-` for an absent field;
   *  `tutarMetni` is the text of `{tutar}`. */
  function Degerler(e: EvrakBilgi, b: Bicimler, tutarMetni: string): (v: seq<string>)
    ensures |v| == |Yertutucular|
    ensures v[0] == if TruthyStr(e.evrakNo) then e.evrakNo.value else "-"
    ensures v[1] == tutarMetni
    ensures v[2] == if TruthyStr(e.paraBirimi) then e.paraBirimi.value else "TRY"
    ensures e.dovizKuru.None? ==> v[3] == "-"
    ensures !TruthyStr(e.vadeTarihi) ==> v[4] == "-"
    ensures !TruthyStr(e.evrakTarihi) ==> v[5] == "-"
    ensures v[6] == if TruthyStr(e.kesideci) then e.kesideci.value else "-"
    ensures v[7] == if e.evrakTipi == "cek" then "Çek" else if e.evrakTipi == "senet" then "Senet" else "-"
    ensures e.durum !in {"portfoy", "bankada", "ciro", "tahsil", "karsiliksiz"} ==> v[8] == "-"
    ensures v[9] == if TruthyStr(e.cariAdi) then e.cariAdi.value else "-"
    ensures !TruthyStr(e.bankaAdiDisplay) && !TruthyStr(e.bankaAdi) ==> v[10] == "-"
    ensures TruthyStr(e.bankaAdiDisplay) ==> v[10] == e.bankaAdiDisplay.value
    ensures !TruthyStr(e.bankaAdiDisplay) && TruthyStr(e.bankaAdi) ==> v[10] == e.bankaAdi.value
  {
    [ OrStr(e.evrakNo, "-"),
      tutarMetni,
      OrStr(e.paraBirimi, "TRY"),
      if e.dovizKuru.Some? then OrStr(Some(b.kur(e.dovizKuru.value)), "-") else "-",
      if TruthyStr(e.vadeTarihi) then b.tarih(e.vadeTarihi.value) else "-",
      if TruthyStr(e.evrakTarihi) then b.tarih(e.evrakTarihi.value) else "-",
      OrStr(e.kesideci, "-"),
      OrStr(TipEtiketi(e.evrakTipi), "-"),
      OrStr(DurumEtiketi(e.durum), "-"),
      OrStr(e.cariAdi, "-"),
      OrStr(e.bankaAdiDisplay, OrStr(e.bankaAdi, "-")) ]
  }

  /** The characters that, after a `$` in a replacement text, make
   *  `String.prototype.replace` insert something other than the text. */
  predicate Ozel(c: char)
  {
    c == '$' || c == '&' || c == '`' || c == '\''
  }

  /** A replacement text without `$$`, `$&`, `` $` `` or `$'`: one that
   *  `replace` inserts as it is. */
  predicate Duz(r: string)
  {
    forall i :: 0 <= i < |r| - 1 && r[i] == '$' ==> !Ozel(r[i + 1])
  }

  /** GetSubstitution (section 22.1.3.19.1 of ECMA-262) for a pattern
   *  without capture groups, at a match `m` with the text `once` before it
   *  and `sonra` after it: `$$` gives `$`, `$&` the match, `` $` `` the text
   *  before and `$'` the text after; any other `$` (`$1`, `$<`, as there are
   *  no groups) is kept. */
  function Genislet(r: string, m: string, once: string, sonra: string): (t: string)
    decreases |r|
  {
    if r == [] then []
    else if |r| >= 2 && r[0] == '$' && r[1] == '$' then "$" + Genislet(r[2..], m, once, sonra)
    else if |r| >= 2 && r[0] == '$' && r[1] == '&' then m + Genislet(r[2..], m, once, sonra)
    else if |r| >= 2 && r[0] == '$' && r[1] == '`' then once + Genislet(r[2..], m, once, sonra)
    else if |r| >= 2 && r[0] == '$' && r[1] == '\'' then sonra + Genislet(r[2..], m, once, sonra)
    else [r[0]] + Genislet(r[1..], m, once, sonra)
  }

  /** Two plain texts joined stay plain unless a final `$` meets a
   *  pattern character. */
  lemma DuzEk(a: string, x: string)
    requires Duz(a) && Duz(x)
    requires |a| > 0 && a[|a| - 1] == '$' && |x| > 0 ==> !Ozel(x[0])
    ensures Duz(a + x)
  {
    var t := a + x;
    forall i | 0 <= i < |t| - 1 && t[i] == '$' ensures !Ozel(t[i + 1]) {
      if i + 1 < |a| {
        assert t[i] == a[i] && t[i + 1] == a[i + 1];
      } else if i + 1 > |a| {
        assert t[i] == x[i - |a|] && t[i + 1] == x[i + 1 - |a|];
      }
    }
  }

  /** A replacement without those patterns is inserted as it is. */
  lemma {:induction false} GenisletDuz(r: string, m: string, once: string, sonra: string)
    requires Duz(r)
    ensures Genislet(r, m, once, sonra) == r
    decreases |r|
  {
    if r != [] {
      assert Duz(r[1..]) by {
        forall i | 0 <= i < |r[1..]| - 1 && r[1..][i] == '$' ensures !Ozel(r[1..][i + 1]) {
          assert r[i + 1] == '$';
        }
      }
      GenisletDuz(r[1..], m, once, sonra);
      assert r == [r[0]] + r[1..];
    }
  }

  /** `replace` over the rest `s` of the text, `once` being what came before
   *  it: each occurrence, from the left and not overlapping, gives the
   *  replacement expanded at that match. */
  function Degistir(once: string, s: string, p: string, r: string): string
    requires |p| > 0
    decreases |s|
  {
    if s == [] then []
    else if StartsWith(s, p) then Genislet(r, p, once, s[|p|..]) + Degistir(once + p, s[|p|..], p, r)
    else [s[0]] + Degistir(once + [s[0]], s[1..], p, r)
  }

  /** `s.replace(/p/g, r)` for a literal pattern: a text without the
   *  pattern is kept. */
  function ReplaceAll(s: string, p: string, r: string): (t: string)
    requires |p| > 0
    ensures !Contains(s, p) ==> t == s
  {
    if Contains(s, p) then Degistir([], s, p, r)
    else
      DegistirYoksa([], s, p, r);
      Degistir([], s, p, r)
  }

  /** A text without the pattern is kept, whatever came before it. */
  lemma {:induction false} DegistirYoksa(once: string, s: string, p: string, r: string)
    requires |p| > 0 && !Contains(s, p)
    ensures Degistir(once, s, p, r) == s
    decreases |s|
  {
    if s != [] {
      DegistirYoksa(once + [s[0]], s[1..], p, r);
      assert s == [s[0]] + s[1..];
    }
  }

  /** With a plain replacement what came before does not matter. */
  lemma {:induction false} DegistirBaglamsiz(o1: string, o2: string, s: string, p: string, r: string)
    requires |p| > 0 && Duz(r)
    ensures Degistir(o1, s, p, r) == Degistir(o2, s, p, r)
    decreases |s|
  {
    if s != [] {
      if StartsWith(s, p) {
        GenisletDuz(r, p, o1, s[|p|..]);
        GenisletDuz(r, p, o2, s[|p|..]);
        DegistirBaglamsiz(o1 + p, o2 + p, s[|p|..], p, r);
      } else {
        DegistirBaglamsiz(o1 + [s[0]], o2 + [s[0]], s[1..], p, r);
      }
    }
  }

  /** Every occurrence is replaced, not only the first: an occurrence at
   *  the front is replaced and the rest is searched again. */
  lemma ReplaceAllBasta(p: string, s: string, r: string)
    requires |p| > 0 && Duz(r)
    ensures ReplaceAll(p + s, p, r) == r + ReplaceAll(s, p, r)
    ensures ReplaceAll(p + p, p, r) == r + r
  {
    var bos: string := [];
    assert bos + p == p;
    DegistirBasta([], p, s, r);
    GenisletDuz(r, p, [], s);
    DegistirBaglamsiz(p, [], s, p, r);
    DegistirBasta([], p, p, r);
    GenisletDuz(r, p, [], p);
    DegistirBaglamsiz(p, [], p, p, r);
    ReplaceAllTam(p, r);
    assert ReplaceAll(p + p, p, r) == r + Degistir(p, p, p, r);
    assert ReplaceAll(p, p, r) == Degistir([], p, p, r);
  }

  /** An occurrence at the front is expanded with the rest after it. */
  lemma DegistirBasta(once: string, p: string, s: string, r: string)
    requires |p| > 0
    ensures Degistir(once, p + s, p, r) == Genislet(r, p, once, s) + Degistir(once + p, s, p, r)
  {
    var t := p + s;
    assert t[..|p|] == p;
    assert t[|p|..] == s;
    assert StartsWith(t, p);
  }

  /** A pattern longer than the text does not occur in it. */
  lemma {:induction false} UzunIcermez(s: string, p: string)
    requires |p| > |s|
    ensures !Contains(s, p)
    decreases |s|
  {
    if s != [] {
      UzunIcermez(s[1..], p);
    }
  }

  /** Replacing a text that is exactly the pattern gives the replacement
   *  expanded with nothing before or after the match; a plain one as it
   *  is. */
  lemma ReplaceAllTam(p: string, r: string)
    requires |p| > 0
    ensures ReplaceAll(p, p, r) == Genislet(r, p, [], [])
    ensures Duz(r) ==> ReplaceAll(p, p, r) == r
  {
    DegistirTam([], p, r);
    if Duz(r) { GenisletDuz(r, p, [], []); }
  }

  lemma DegistirTam(once: string, p: string, r: string)
    requires |p| > 0
    ensures Degistir(once, p, p, r) == Genislet(r, p, once, [])
  {
    assert StartsWith(p, p) by { assert p[..|p|] == p; }
    var sonra := p[|p|..];
    assert sonra == [];
    assert Degistir(once + p, sonra, p, r) == [];
    assert Degistir(once, p, p, r) == Genislet(r, p, once, sonra) + Degistir(once + p, sonra, p, r);
  }

  /** The patterns at work: `$&` is the match, `` $` `` and `$'` the text
   *  around it, `$$` one dollar, and `$1` stays as it is. */
  lemma DolarKaliplari()
    ensures ReplaceAll("a{x}b", "{x}", "$&") == "a{x}b"
    ensures ReplaceAll("a{x}b", "{x}", "$`$'") == "aabb"
    ensures ReplaceAll("{x}", "{x}", "$$5") == "$5"
    ensures ReplaceAll("{x}", "{x}", "$1") == "$1"
  {
    DolarOrnegi("$&", "a{x}b");
    DolarOrnegi("$`$'", "aabb");
    var x := "{x}";
    var bos: string := [];
    assert x == x + bos;
    DegistirBasta([], x, [], "$$5");
    DegistirBasta([], x, [], "$1");
    assert Genislet("$$5", x, [], []) == "$5" by {
      assert Genislet("5", x, [], []) == "5" + Genislet([], x, [], []);
    }
    assert Genislet("$1", x, [], []) == "$1" by {
      assert Genislet("1", x, [], []) == "1" + Genislet([], x, [], []);
    }
  }

  /** The text `a{x}b` with the replacement `r` of `{x}`: `a`, the expansion
   *  at the match, then `b`. */
  lemma DolarOrnegi(r: string, beklenen: string)
    requires beklenen == "a" + Genislet(r, "{x}", "a", "b") + "b"
    ensures ReplaceAll("a{x}b", "{x}", r) == beklenen
  {
    var x := "{x}";
    var s := "a{x}b";
    assert !StartsWith(s, x);
    assert s[1..] == x + "b";
    DegistirBasta("a", x, "b", r);
    assert "a" + x == "a{x}";
    UzunIcermez("b", x);
    DegistirYoksa("a{x}", "b", x, r);
    var bos: string := [];
    assert bos + [s[0]] == "a";
    assert ReplaceAll(s, x, r) == [s[0]] + Degistir(bos + [s[0]], s[1..], x, r);
  }


  /** A pattern starting with `{` occurs only in a text holding `{`. */
  lemma {:induction false} SuslusuzIcermez(s: string, p: string)
    requires |p| > 0 && p[0] == '{' && '{' !in s
    ensures !Contains(s, p)
    decreases |s|
  {
    if s != [] {
      assert s[0] != '{';
      SuslusuzIcermez(s[1..], p);
    }
  }

  /** The placeholders replaced one after another, in order. */
  function Uygula(s: string, ps: seq<string>, vs: seq<string>): string
    requires |ps| == |vs| && forall i :: 0 <= i < |ps| ==> |ps[i]| > 0
    decreases |ps|
  {
    if ps == [] then s
    else Uygula(ReplaceAll(s, ps[0], vs[0]), ps[1..], vs[1..])
  }

  lemma YertutucularSuslu()
    ensures forall i :: 0 <= i < |Yertutucular| ==> |Yertutucular[i]| > 0 && Yertutucular[i][0] == '{'
  {
  }

  /** A template without `{` comes back unchanged. */
  lemma {:induction false} SuslusuzDegismez(s: string, ps: seq<string>, vs: seq<string>)
    requires |ps| == |vs| && forall i :: 0 <= i < |ps| ==> |ps[i]| > 0 && ps[i][0] == '{'
    requires '{' !in s
    ensures Uygula(s, ps, vs) == s
    decreases |ps|
  {
    if ps != [] {
      SuslusuzIcermez(s, ps[0]);
      SuslusuzDegismez(s, ps[1..], vs[1..]);
    }
  }

  /** The template filled with the given text for `{tutar}`. `!template`
   *  or `!evrak` returns `template || ''`. */
  function Doldur(template: Option<string>, evrak: Option<EvrakBilgi>, b: Bicimler,
                  tutarMetni: EvrakBilgi -> string): string
  {
    if !TruthyStr(template) || evrak.None? then OrStr(template, "")
    else
      YertutucularSuslu();
      Uygula(template.value, Yertutucular, Degerler(evrak.value, b, tutarMetni(evrak.value)))
  }

  /** `fillMessageTemplate` as written: `{tutar}` is formatted by the
   *  dashboard's formatter, in lira whatever the currency. */
  function FillMessageTemplate(template: Option<string>, evrak: Option<EvrakBilgi>, b: Bicimler): (r: string)
    ensures !TruthyStr(template) || evrak.None? ==> r == OrStr(template, "")
    ensures template.Some? && '{' !in template.value ==> r == template.value
  {
    var t := (e: EvrakBilgi) => DashboardFormatCurrency(e.tutar, b.para);
    DoldurKorur(template, evrak, b, t);
    Doldur(template, evrak, b, t)
  }

  /** `{tutar}` formatted in the cheque's own currency, as the second
   *  argument of the call asks. */
  function FillMessageTemplateFixed(template: Option<string>, evrak: Option<EvrakBilgi>, b: Bicimler): (r: string)
    ensures !TruthyStr(template) || evrak.None? ==> r == OrStr(template, "")
    ensures template.Some? && '{' !in template.value ==> r == template.value
  {
    var t := (e: EvrakBilgi) => Currency.FormatCurrency(Some(e.tutar), OrStr(e.paraBirimi, "TRY"), b.para);
    DoldurKorur(template, evrak, b, t);
    Doldur(template, evrak, b, t)
  }

  /** Without a template or a cheque the template is returned (null as
   *  the empty text), and a template without `{` is returned as it is. */
  lemma DoldurKorur(template: Option<string>, evrak: Option<EvrakBilgi>, b: Bicimler, t: EvrakBilgi -> string)
    ensures !TruthyStr(template) || evrak.None? ==> Doldur(template, evrak, b, t) == OrStr(template, "")
    ensures template.Some? && '{' !in template.value ==> Doldur(template, evrak, b, t) == template.value
  {
    if TruthyStr(template) && evrak.Some? && '{' !in template.value {
      YertutucularSuslu();
      SuslusuzDegismez(template.value, Yertutucular, Degerler(evrak.value, b, t(evrak.value)));
    }
  }

  /** A template that is only the second placeholder gives its value when
   *  the first placeholder is longer and no value brings a `{` in. */
  lemma {:induction false} IkinciYertutucu(ps: seq<string>, vs: seq<string>)
    requires |ps| == |vs| >= 2 && forall i :: 0 <= i < |ps| ==> |ps[i]| > 0 && ps[i][0] == '{'
    requires |ps[0]| > |ps[1]| && '{' !in vs[1] && Duz(vs[1])
    ensures Uygula(ps[1], ps, vs) == vs[1]
  {
    var s := ps[1];
    UzunIcermez(s, ps[0]);
    ReplaceAllTam(s, vs[1]);
    var ps1, vs1 := ps[1..], vs[1..];
    assert ps1[0] == s && vs1[0] == vs[1] && ps1[1..] == ps[2..] && vs1[1..] == vs[2..];
    SuslusuzDegismez(vs[1], ps[2..], vs[2..]);
  }

  /** A template that is only `{tutar}` gives the text of the amount,
   *  provided that text holds no `{` of its own and no `$` pattern. */
  lemma TutarYertutucu(e: EvrakBilgi, b: Bicimler, t: EvrakBilgi -> string)
    requires '{' !in t(e) && Duz(t(e))
    ensures Doldur(Some("{tutar}"), Some(e), b, t) == t(e)
  {
    var vs := Degerler(e, b, t(e));
    YertutucularSuslu();
    assert Yertutucular[1] == "{tutar}";
    IkinciYertutucu(Yertutucular, vs);
  }

  /** As written, a cheque in dollars is announced with the lira sign:
   *  `{tutar}` becomes `₺` and the amount, which is not what the currency's
   *  own `formatCurrency` gives. */
  lemma TutarAsWrittenIgnoresCurrency(e: EvrakBilgi, b: Bicimler)
    requires '{' !in b.para(e.tutar) && Duz(b.para(e.tutar))
    ensures FillMessageTemplate(Some("{tutar}"), Some(e), b) == "₺" + b.para(e.tutar)
    ensures e.paraBirimi == Some("USD") ==>
      FillMessageTemplate(Some("{tutar}"), Some(e), b) != Currency.FormatCurrency(Some(e.tutar), "USD", b.para)
  {
    var t := (x: EvrakBilgi) => DashboardFormatCurrency(x.tutar, b.para);
    assert t(e) == "₺" + b.para(e.tutar);
    assert '{' !in t(e);
    DuzEk("₺", b.para(e.tutar));
    TutarYertutucu(e, b, t);
    DolarIsareti(e.tutar, b.para);
  }

  /** A dollar amount starts with `$`, and the lira text with `₺`. */
  lemma DolarIsareti(x: real, bicim: real -> string)
    ensures var d := Currency.FormatCurrency(Some(x), "USD", bicim);
      |d| > 0 && d[0] == '$' && d != "₺" + bicim(x)
  {
    var d := Currency.FormatCurrency(Some(x), "USD", bicim);
    assert Currency.Ara("USD") == Some(Currency.USD);
    assert d == "$" + bicim(x);
    assert ("₺" + bicim(x))[0] == '₺';
  }

  /** With the currency passed through, `{tutar}` carries the symbol of the
   *  cheque's currency (the lira for a missing or unknown one). */
  lemma TutarFixedUsesCurrency(e: EvrakBilgi, b: Bicimler)
    requires '{' !in b.para(e.tutar) && Duz(b.para(e.tutar))
    requires b.para(e.tutar) != [] ==> !Ozel(b.para(e.tutar)[0])
    ensures FillMessageTemplateFixed(Some("{tutar}"), Some(e), b)
      == Currency.Sembol(OrStr(e.paraBirimi, "TRY")) + b.para(e.tutar)
  {
    var t := (x: EvrakBilgi) => Currency.FormatCurrency(Some(x.tutar), OrStr(x.paraBirimi, "TRY"), b.para);
    var sembol := Currency.Sembol(OrStr(e.paraBirimi, "TRY"));
    assert '{' !in sembol && Duz(sembol) by {
      match Currency.Ara(OrStr(e.paraBirimi, "TRY"))
      case Some(k) =>
        assert sembol == Currency.Bilgi(k).sembol;
      case None =>
    }
    DuzEk(sembol, b.para(e.tutar));
    assert t(e) == sembol + b.para(e.tutar);
    TutarYertutucu(e, b, t);
  }
}
