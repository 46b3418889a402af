/** `frontend/src/utils/currency.ts`: the five currencies the application
 *  knows, their symbols and names, and the display texts of amounts and
 *  rates. The locale's number formatting (`toLocaleString('tr-TR', …)`) is
 *  a parameter: a function from the number to its text. JavaScript numbers
 *  are reals. */
module Currency {
  import opened Wrappers

  datatype ParaBirimi = ParaBirimi(kod: string, isim: string, sembol: string)

  /** The keys of `PARA_BIRIMLERI`. */
  datatype Kod = TRY | USD | EUR | GBP | CHF

  /** The text of a key. */
  function Ad(k: Kod): string
  {
    match k
    case TRY => "TRY"
    case USD => "USD"
    case EUR => "EUR"
    case GBP => "GBP"
    case CHF => "CHF"
  }

  /** The entry of `PARA_BIRIMLERI` under a key. */
  function Bilgi(k: Kod): (p: ParaBirimi)
    ensures p.kod == Ad(k)
    ensures |p.sembol| > 0 && p.sembol[0] != '-'
  {
    match k
    case TRY => ParaBirimi("TRY", "Türk Lirası", "₺")
    case USD => ParaBirimi("USD", "Amerikan Doları", "$")
    case EUR => ParaBirimi("EUR", "Euro", "€")
    case GBP => ParaBirimi("GBP", "İngiliz Sterlini", "£")
    case CHF => ParaBirimi("CHF", "İsviçre Frangı", "CHF")
  }

  /** `GECERLI_PARA_BIRIMLERI`: the keys, in declaration order. */
  const GecerliParaBirimleri: seq<string> := ["TRY", "USD", "EUR", "GBP", "CHF"]

  /** `PARA_BIRIMLERI[code]`: the key whose text is `code`, if any. */
  function Ara(code: string): (r: Option<Kod>)
    ensures r.Some? ==> Ad(r.value) == code
    ensures r.None? ==> forall k: Kod :: Ad(k) != code
  {
    if code == "TRY" then Some(TRY)
    else if code == "USD" then Some(USD)
    else if code == "EUR" then Some(EUR)
    else if code == "GBP" then Some(GBP)
    else if code == "CHF" then Some(CHF)
    else None
  }

  /** The list of valid codes holds exactly the texts of the keys, each once. */
  lemma GecerliAnahtarlar()
    ensures forall c :: c in GecerliParaBirimleri <==> Ara(c).Some?
    ensures forall i, j :: 0 <= i < j < |GecerliParaBirimleri| ==> GecerliParaBirimleri[i] != GecerliParaBirimleri[j]
  {
  }

  /** The number formatter of the locale. */
  type Bicim = real -> string

  /** `getCurrencySymbol`: the table's symbol, `₺` for an unknown code. */
  function Sembol(paraBirimi: string): (s: string)
    ensures Ara(paraBirimi).Some? ==> s == Bilgi(Ara(paraBirimi).value).sembol
    ensures Ara(paraBirimi).None? ==> s == "₺"
    ensures |s| > 0 && s[0] != '-'
  {
    match Ara(paraBirimi)
    case Some(k) => Bilgi(k).sembol
    case None => "₺"
  }

  /** `getCurrencyName`: the table's name, `Türk Lirası` for an unknown code. */
  function Isim(paraBirimi: string): (s: string)
    ensures Ara(paraBirimi).Some? ==> s == Bilgi(Ara(paraBirimi).value).isim
    ensures Ara(paraBirimi).None? ==> s == "Türk Lirası"
  {
    match Ara(paraBirimi)
    case Some(k) => Bilgi(k).isim
    case None => "Türk Lirası"
  }

  /** `isValidCurrency` */
  predicate GecerliMi(paraBirimi: string)
  {
    paraBirimi in GecerliParaBirimleri
  }

  /** An unknown code is shown as the lira, and two known codes never share
   *  a symbol or a name; so a symbol other than `₺` names its currency. */
  lemma SembolAyirir(a: string, b: string)
    ensures !GecerliMi(a) ==> Sembol(a) == Sembol("TRY") && Isim(a) == Isim("TRY")
    ensures GecerliMi(a) && GecerliMi(b) && Sembol(a) == Sembol(b) ==> a == b
    ensures GecerliMi(a) && GecerliMi(b) && Isim(a) == Isim(b) ==> a == b
  {
    GecerliAnahtarlar();
    if GecerliMi(a) && GecerliMi(b) {
      var ka, kb := Ara(a).value, Ara(b).value;
      if ka != kb {
        SembollerFarkli(ka, kb);
      }
    }
  }

  /** Distinct keys have distinct symbols and names. */
  lemma SembollerFarkli(k: Kod, l: Kod)
    requires k != l
    ensures Bilgi(k).sembol != Bilgi(l).sembol && Bilgi(k).isim != Bilgi(l).isim
  {
    var sk, sl := Bilgi(k).sembol, Bilgi(l).sembol;
    var ik, il := Bilgi(k).isim, Bilgi(l).isim;
    assert |sk| != |sl| || sk[0] != sl[0];
    assert |ik| != |il|;
  }

  /** `isTRY`: an absent, empty or `TRY` code. */
  predicate TryMi(paraBirimi: Option<string>)
  {
    paraBirimi.None? || paraBirimi.value == "" || paraBirimi.value == "TRY"
  }

  /** Whatever counts as TRY is shown with the lira's symbol and name, and
   *  the only valid code that counts as TRY is `TRY`. */
  lemma TryLiraGosterir(paraBirimi: string)
    ensures TryMi(Some(paraBirimi)) ==> Sembol(paraBirimi) == "₺" && Isim(paraBirimi) == "Türk Lirası"
    ensures TryMi(Some(paraBirimi)) && GecerliMi(paraBirimi) <==> paraBirimi == "TRY"
  {
    GecerliAnahtarlar();
  }

  /** `formatCurrency(tutar, paraBirimi)`: `-` without an amount, else the
   *  symbol (TRY's for an unknown code) followed by the formatted number. */
  function FormatCurrency(tutar: Option<real>, paraBirimi: string, bicim: Bicim): (r: string)
    ensures r == "-" <==> tutar.None?
    ensures tutar.Some? ==> r == Sembol(paraBirimi) + bicim(tutar.value)
  {
    if tutar.None? then "-"
    else
      var pb := match Ara(paraBirimi) case Some(k) => Bilgi(k) case None => Bilgi(TRY);
      var r := pb.sembol + bicim(tutar.value);
      assert r[0] == pb.sembol[0];
      r
  }

  /** `kur && kur > 0` */
  predicate KurVar(kur: Option<real>)
  {
    kur.Some? && kur.value > 0.0
  }

  /** `formatCurrency(x, 'TRY')`: the lira symbol and the number. */
  function LiraMetni(x: real, bicim: Bicim): (r: string)
    ensures r == "₺" + bicim(x)
  {
    FormatCurrency(Some(x), "TRY", bicim)
  }

  /** `formatWithTRY`: the amount in its currency, followed by ` ≈ ` and the
   *  lira equivalent when the currency is not TRY and a positive rate is
   *  known. */
  function FormatWithTry(tutar: Option<real>, paraBirimi: string, kur: Option<real>, bicim: Bicim): (r: string)
    ensures tutar.None? ==> r == "-"
    ensures tutar.Some? && (paraBirimi == "TRY" || !KurVar(kur)) ==> r == FormatCurrency(tutar, paraBirimi, bicim)
    ensures tutar.Some? && paraBirimi != "TRY" && KurVar(kur) ==>
      r == FormatCurrency(tutar, paraBirimi, bicim) + " ≈ ₺" + bicim(tutar.value * kur.value)
  {
    if tutar.None? then "-"
    else
      var formattedTutar := FormatCurrency(tutar, paraBirimi, bicim);
      if paraBirimi == "TRY" then formattedTutar
      else if KurVar(kur) then
        formattedTutar + " ≈ " + LiraMetni(tutar.value * kur.value, bicim)
      else formattedTutar
  }

  /** The text of `formatWithTRY` always begins with `formatCurrency`'s, and
   *  is `-` exactly when there is no amount. */
  lemma FormatWithTryUzatir(tutar: Option<real>, paraBirimi: string, kur: Option<real>, bicim: Bicim)
    ensures var r := FormatWithTry(tutar, paraBirimi, kur, bicim);
      var f := FormatCurrency(tutar, paraBirimi, bicim);
      |f| <= |r| && r[..|f|] == f
    ensures FormatWithTry(tutar, paraBirimi, kur, bicim) == "-" <==> tutar.None?
  {
    var r := FormatWithTry(tutar, paraBirimi, kur, bicim);
    var f := FormatCurrency(tutar, paraBirimi, bicim);
    if tutar.Some? && paraBirimi != "TRY" && KurVar(kur) {
      Uzatma(r, f, Sembol(paraBirimi), " ≈ ₺" + bicim(tutar.value * kur.value));
    }
  }

  /** A text made of a non-empty symbol and more, extended further, still
   *  begins with it and is longer than one character. */
  lemma Uzatma(r: string, f: string, sembol: string, t: string)
    requires |sembol| > 0 && |t| > 0
    requires |f| >= |sembol| && r == f + t
    ensures |f| <= |r| && r[..|f|] == f && r != "-"
  {
    assert |r| >= 2;
  }

  /** `!kur`: null, undefined and 0 are falsy. */
  predicate KurYok(kur: Option<real>)
  {
    kur.None? || kur.value == 0.0
  }

  /** `formatExchangeRate`: `-` for a falsy rate or for TRY, else
   *  `1 <symbol> = ₺<rate>` with the symbol of `getCurrencySymbol`. */
  function FormatExchangeRate(kur: Option<real>, paraBirimi: string, bicim: Bicim): (r: string)
    ensures r == "-" <==> KurYok(kur) || paraBirimi == "TRY"
    ensures r != "-" ==> r == "1 " + Sembol(paraBirimi) + " = ₺" + bicim(kur.value)
  {
    if KurYok(kur) || paraBirimi == "TRY" then "-"
    else "1 " + Sembol(paraBirimi) + " = ₺" + bicim(kur.value)
  }
}
