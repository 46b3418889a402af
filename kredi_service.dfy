/** `frontend/src/services/krediler.ts`: the progress percentage, the total
 *  payment and interest of a loan, and where the currency symbol goes.
 *  Amounts are integer kuruş, so `Math.round(x * 100) / 100` is the identity. */
module KrediService {
  import opened Strings
  import Krediler

  /** `Math.round((odenen / toplam) * 100)` for non-negative counts, in exact
   *  arithmetic (`Math.round` rounds halves up, which is `floor(x + 1/2)`):
   *  the nearest whole percentage, within a half of the exact ratio and the
   *  upper one on an exact tie; 0 for a loan without installments. In
   *  doubles a tie such as 23/40 can land just below the half and round
   *  down. */
  function HesaplaIlerleme(odenenTaksit: nat, toplamTaksit: nat): (p: nat)
    ensures toplamTaksit == 0 ==> p == 0
    ensures toplamTaksit > 0 ==>
      2 * toplamTaksit * p <= 200 * odenenTaksit + toplamTaksit < 2 * toplamTaksit * (p + 1)
  {
    if toplamTaksit == 0 then 0
    else
      var a, b := 200 * odenenTaksit + toplamTaksit, 2 * toplamTaksit;
      assert a == b * (a / b) + a % b;
      assert b * (a / b + 1) == b * (a / b) + b;
      a / b
  }

  lemma {:induction false} MulMono(b: nat, x: nat, y: nat)
    requires x <= y
    ensures b * x <= b * y
    decreases y - x
  {
    if x < y {
      MulMono(b, x, y - 1);
      assert b * y == b * (y - 1) + b;
    }
  }

  lemma MulLtCancel(b: nat, x: nat, y: nat)
    requires b * x < b * y
    ensures x < y
  {
    if y <= x {
      MulMono(b, y, x);
    }
  }

  lemma IlerlemeBounds(odenen: nat, toplam: nat)
    requires odenen <= toplam
    ensures HesaplaIlerleme(odenen, toplam) <= 100
    ensures odenen == toplam && toplam > 0 ==> HesaplaIlerleme(odenen, toplam) == 100
  {
    var p := HesaplaIlerleme(odenen, toplam);
    if toplam > 0 {
      assert 2 * toplam * p < 2 * toplam * 101;
      MulLtCancel(2 * toplam, p, 101);
      if odenen == toplam {
        assert 2 * toplam * 100 < 2 * toplam * (p + 1);
        MulLtCancel(2 * toplam, 100, p + 1);
      }
    }
  }

  /** 100 is shown only when everything is paid, as long as the loan has
   *  fewer than 200 installments. */
  lemma IlerlemeFullOnlyWhenPaid(odenen: nat, toplam: nat)
    requires odenen < toplam < 200
    ensures HesaplaIlerleme(odenen, toplam) < 100
  {
    var p := HesaplaIlerleme(odenen, toplam);
    assert 200 * odenen + toplam <= 200 * (toplam - 1) + toplam;
    assert 2 * toplam * p < 2 * toplam * 100;
    MulLtCancel(2 * toplam, p, 100);
  }

  /** From 200 installments on, rounding reaches 100 early: 199 of 200 paid
   *  is 99.5% and 359 of 360 is 99.72%, both shown as 100. */
  lemma IlerlemeRoundsUpToFull()
    ensures HesaplaIlerleme(199, 200) == 100
    ensures HesaplaIlerleme(359, 360) == 100
  {
  }

  /** Paying one more installment never lowers the percentage. */
  lemma IlerlemeMonotone(a: nat, b: nat, toplam: nat)
    requires a <= b
    ensures HesaplaIlerleme(a, toplam) <= HesaplaIlerleme(b, toplam)
  {
    if toplam > 0 {
      var pa, pb := HesaplaIlerleme(a, toplam), HesaplaIlerleme(b, toplam);
      assert 2 * toplam * pa < 2 * toplam * (pb + 1);
      MulLtCancel(2 * toplam, pa, pb + 1);
    }
  }

  /** `hesaplaToplamOdeme`: the installment times the term. */
  function HesaplaToplamOdeme(aylikTaksit: int, vadeAy: nat): int
  {
    aylikTaksit * vadeAy
  }

  /** `hesaplaToplamFaiz`: what is paid beyond the principal. */
  function HesaplaToplamFaiz(anapara: int, toplamOdeme: int): int
  {
    toplamOdeme - anapara
  }

  /** The client's totals are the server's: the total stored by `create`, and
   *  principal plus interest gives it back. */
  lemma TotalsAgreeWithServer(id: int, d: Krediler.KrediData, aylikTaksit: int, userId: int)
    ensures HesaplaToplamOdeme(aylikTaksit, d.vadeAy) == Krediler.NewKredi(id, d, aylikTaksit, userId).toplamOdeme
    ensures d.anapara + HesaplaToplamFaiz(d.anapara, HesaplaToplamOdeme(aylikTaksit, d.vadeAy))
            == Krediler.NewKredi(id, d, aylikTaksit, userId).toplamOdeme
  {
  }

  function Symbol(paraBirimi: string): string
    requires paraBirimi in Krediler.ParaBirimleri
  {
    if paraBirimi == "TRY" then "₺"
    else if paraBirimi == "USD" then "$"
    else if paraBirimi == "EUR" then "€"
    else if paraBirimi == "GBP" then "£"
    else "₣"
  }

  /** `formatKrediTutar`, with the `Intl.NumberFormat` text passed in: the
   *  symbol follows the amount after a space for TRY and precedes it
   *  otherwise. */
  function FormatKrediTutar(formatted: string, paraBirimi: string): (r: string)
    requires paraBirimi in Krediler.ParaBirimleri
    ensures paraBirimi == "TRY" ==> StartsWith(r, formatted) && EndsWith(r, " ₺")
    ensures paraBirimi != "TRY" ==> StartsWith(r, Symbol(paraBirimi)) && EndsWith(r, formatted)
    ensures |r| == |formatted| + |Symbol(paraBirimi)| + (if paraBirimi == "TRY" then 1 else 0)
  {
    if paraBirimi == "TRY" then formatted + " " + Symbol(paraBirimi)
    else Symbol(paraBirimi) + formatted
  }

  /** Each currency has its own symbol, so the symbol tells the currency. */
  lemma SymbolsDistinct(a: string, b: string)
    requires a in Krediler.ParaBirimleri && b in Krediler.ParaBirimleri && a != b
    ensures Symbol(a) != Symbol(b)
  {
  }
}
