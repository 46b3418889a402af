/** `backend/src/models/bankalar.js`: the bank table, where creating a
 *  known name reuses (and reactivates) its row, renaming keeps names apart,
 *  and a bank still used by a document is only deactivated. */
module Bankalar {
  import opened Wrappers
  import opened Strings

  /** A row of the table: its name and whether it is active. */
  datatype Banka = Banka(ad: string, aktif: bool)

  /** A row with its id, as the queries return it. */
  type Satir = (nat, Banka)

  /** Rows in name order. */
  predicate Sirali(xs: seq<Satir>)
  {
    forall i, j :: 0 <= i < j < |xs| ==> Onde(xs[i].1.ad, xs[j].1.ad)
  }

  /** No id appears twice. */
  predicate IdTekil(xs: seq<Satir>)
  {
    forall i, j :: 0 <= i < j < |xs| ==> xs[i].0 != xs[j].0
  }

  /** Places a row after every row whose name comes no later. */
  function AdaGoreEkle(xs: seq<Satir>, x: Satir): (r: seq<Satir>)
    ensures |r| == |xs| + 1
    ensures forall y :: y in r <==> y in xs || y == x
  {
    if xs == [] || Onde(xs[|xs| - 1].1.ad, x.1.ad) then xs + [x]
    else AdaGoreEkle(xs[..|xs| - 1], x) + [xs[|xs| - 1]]
  }

  lemma {:induction false} AdaGoreEkleSirali(xs: seq<Satir>, x: Satir)
    requires Sirali(xs)
    ensures Sirali(AdaGoreEkle(xs, x))
  {
    if xs == [] {
    } else if Onde(xs[|xs| - 1].1.ad, x.1.ad) {
      forall i | 0 <= i < |xs| ensures Onde(xs[i].1.ad, x.1.ad) {
        if i < |xs| - 1 { OndeGecisli(xs[i].1.ad, xs[|xs| - 1].1.ad, x.1.ad); }
      }
    } else {
      var init := xs[..|xs| - 1];
      var son := xs[|xs| - 1];
      OndeToplam(son.1.ad, x.1.ad);
      AdaGoreEkleSirali(init, x);
      var a := AdaGoreEkle(init, x);
      forall i | 0 <= i < |a| ensures Onde(a[i].1.ad, son.1.ad) {
        assert a[i] in a;
        if a[i] != x {
          var k :| 0 <= k < |init| && init[k] == a[i];
          assert xs[k] == a[i];
        }
      }
    }
  }

  lemma {:induction false} AdaGoreEkleTekil(xs: seq<Satir>, x: Satir)
    requires IdTekil(xs) && forall y :: y in xs ==> y.0 != x.0
    ensures IdTekil(AdaGoreEkle(xs, x))
  {
    if xs != [] && !Onde(xs[|xs| - 1].1.ad, x.1.ad) {
      var init := xs[..|xs| - 1];
      var son := xs[|xs| - 1];
      assert forall y :: y in init ==> y in xs;
      AdaGoreEkleTekil(init, x);
      var a := AdaGoreEkle(init, x);
      forall i | 0 <= i < |a| ensures a[i].0 != son.0 {
        assert a[i] in a;
        if a[i] != x {
          var k :| 0 <= k < |init| && init[k] == a[i];
          assert xs[k] == a[i];
        }
      }
    }
  }

  /** The rows of `xs` whose name passes `eslesir`, in their order. */
  function Uyanlar(xs: seq<Satir>, eslesir: string -> bool): (r: seq<Satir>)
    ensures forall p :: p in r ==> p in xs && eslesir(p.1.ad)
  {
    if xs == [] then []
    else
      Uyanlar(xs[..|xs| - 1], eslesir)
        + (if eslesir(xs[|xs| - 1].1.ad) then [xs[|xs| - 1]] else [])
  }

  /** Filtering keeps the name order. */
  lemma {:induction false} UyanlarSirali(xs: seq<Satir>, eslesir: string -> bool)
    requires Sirali(xs)
    ensures Sirali(Uyanlar(xs, eslesir))
  {
    if xs != [] {
      var n := |xs| - 1;
      var init := xs[..n];
      assert Sirali(init);
      UyanlarSirali(init, eslesir);
      var ys := Uyanlar(init, eslesir);
      if eslesir(xs[n].1.ad) {
        forall j | 0 <= j < |ys| ensures Onde(ys[j].1.ad, xs[n].1.ad) {
          assert ys[j] in ys;
          var m :| 0 <= m < n && init[m] == ys[j];
          assert xs[m] == ys[j];
        }
        assert Uyanlar(xs, eslesir) == ys + [xs[n]];
      } else {
        assert Uyanlar(xs, eslesir) == ys;
      }
    }
  }

  /** Filtering keeps every row that passes. */
  lemma {:induction false} UyanlarTam(xs: seq<Satir>, eslesir: string -> bool)
    ensures forall p :: p in Uyanlar(xs, eslesir) <==> p in xs && eslesir(p.1.ad)
  {
    if xs != [] {
      var init := xs[..|xs| - 1];
      UyanlarTam(init, eslesir);
      assert forall p :: p in xs <==> p in init || p == xs[|xs| - 1];
    }
  }

  /** Filtering keeps the ids distinct. */
  lemma {:induction false} UyanlarTekil(xs: seq<Satir>, eslesir: string -> bool)
    requires IdTekil(xs)
    ensures IdTekil(Uyanlar(xs, eslesir))
  {
    if xs != [] {
      var n := |xs| - 1;
      var init := xs[..n];
      assert IdTekil(init);
      UyanlarTekil(init, eslesir);
      var ys := Uyanlar(init, eslesir);
      if eslesir(xs[n].1.ad) {
        forall j | 0 <= j < |ys| ensures ys[j].0 != xs[n].0 {
          assert ys[j] in ys;
          var m :| 0 <= m < n && init[m] == ys[j];
          assert xs[m] == ys[j];
        }
        assert Uyanlar(xs, eslesir) == ys + [xs[n]];
      } else {
        assert Uyanlar(xs, eslesir) == ys;
      }
    }
  }

  /** The first `k` rows keep the order and the distinct ids. */
  lemma Onek(xs: seq<Satir>, k: nat)
    requires Sirali(xs) && IdTekil(xs) && k <= |xs|
    ensures Sirali(xs[..k]) && IdTekil(xs[..k])
    ensures forall p :: p in xs[..k] ==> p in xs
  {
  }

  /** The ids of the rows. */
  function Idler(xs: seq<Satir>): set<nat>
  {
    if xs == [] then {} else Idler(xs[..|xs| - 1]) + {xs[|xs| - 1].0}
  }

  /** The id set holds the id of each row and nothing else. */
  lemma {:induction false} IdlerUye(xs: seq<Satir>)
    ensures forall p :: p in xs ==> p.0 in Idler(xs)
    ensures forall id :: id in Idler(xs) ==> exists p :: p in xs && p.0 == id
  {
    if xs != [] {
      var init := xs[..|xs| - 1];
      IdlerUye(init);
      assert forall p :: p in xs <==> p in init || p == xs[|xs| - 1];
    }
  }

  /** Distinct ids: the id set has one element per row. */
  lemma {:induction false} IdlerBoyu(xs: seq<Satir>)
    requires IdTekil(xs)
    ensures |Idler(xs)| == |xs|
  {
    if xs != [] {
      var init := xs[..|xs| - 1];
      assert IdTekil(init);
      IdlerBoyu(init);
      IdlerUye(init);
      forall p | p in init ensures p.0 != xs[|xs| - 1].0 {
        var k :| 0 <= k < |init| && init[k] == p;
        assert xs[k] == p;
      }
    }
  }

  /** The ids of the active rows of `m` whose name passes the test. */
  ghost function Eslesenler(m: map<nat, Banka>, eslesir: string -> bool): set<nat>
  {
    set id | id in m && m[id].aktif && eslesir(m[id].ad)
  }

  /** A list holding each matching active row once has one entry per match. */
  lemma EslesenSayisi(m: map<nat, Banka>, xs: seq<Satir>, eslesir: string -> bool)
    requires IdTekil(xs)
    requires forall p :: p in xs <==> p.0 in m && p.1 == m[p.0] && p.1.aktif && eslesir(p.1.ad)
    ensures |xs| == |Eslesenler(m, eslesir)|
  {
    IdlerBoyu(xs);
    IdlerUye(xs);
    assert Idler(xs) == Eslesenler(m, eslesir) by {
      forall id | id in Eslesenler(m, eslesir) ensures id in Idler(xs) {
        assert (id, m[id]) in xs;
      }
    }
  }

  /** The first `n` rows. */
  function Ilk(xs: seq<Satir>, n: nat): seq<Satir>
  {
    if |xs| <= n then xs else xs[..n]
  }

  /** In a name-ordered list, a row past the first `n` sorts after each of
   *  them. */
  lemma IlkSonrakiler(xs: seq<Satir>, n: nat)
    requires Sirali(xs)
    ensures forall q :: q in xs && q !in Ilk(xs, n) ==> forall p :: p in Ilk(xs, n) ==> Onde(p.1.ad, q.1.ad)
  {
    forall q, p | q in xs && q !in Ilk(xs, n) && p in Ilk(xs, n)
      ensures Onde(p.1.ad, q.1.ad)
    {
      var k :| 0 <= k < |xs| && xs[k] == q;
      var j :| 0 <= j < |Ilk(xs, n)| && Ilk(xs, n)[j] == p;
      assert k >= n && j < n && xs[j] == p;
    }
  }

  // ------------------------------------------------------------ names

  /** Whether a row with this exact name exists (`getByAd`). */
  predicate AdVarIn(bankalar: map<nat, Banka>, ad: string)
  {
    exists id :: id in bankalar && bankalar[id].ad == ad
  }

  /** No two rows share a name. */
  predicate AdlarTekil(bankalar: map<nat, Banka>)
  {
    forall a, b :: a in bankalar && b in bankalar && a != b ==> bankalar[a].ad != bankalar[b].ad
  }

  /** The model relies on the route trimming the name: `create` looks the
   *  name up as given but stores it trimmed, so an untrimmed name next to
   *  its trimmed twin would add a second row of that name. */
  lemma UntrimmedNameAddsTwin(t: string, id: nat, yeni: nat)
    requires t != [] && !IsJsSpace(t[0]) && !IsJsSpace(t[|t| - 1])
    requires id != yeni
    ensures var m := map[id := Banka(t, true)];
            && !AdVarIn(m, " " + t)
            && Trim(" " + t) == t
            && !AdlarTekil(m[yeni := Banka(Trim(" " + t), true)])
  {
    var m := map[id := Banka(t, true)];
    var s := " " + t;
    assert s[1..] == t && IsJsSpace(s[0]);
    assert TrimStart(s) == TrimStart(t) == t;
    assert TrimEnd(t) == t;
    assert |m[id].ad| != |s|;
    var m2 := m[yeni := Banka(t, true)];
    assert id in m2 && yeni in m2 && m2[id].ad == m2[yeni].ad;
  }

  /** Renaming a row to a name no other row holds keeps names apart. */
  lemma YeniAdTekil(m: map<nat, Banka>, id: nat, b: Banka)
    requires AdlarTekil(m) && id in m
    requires forall o :: o in m && o != id ==> m[o].ad != b.ad
    ensures AdlarTekil(m[id := b])
  {
  }

  /** A new row under a name no row holds keeps names apart. */
  lemma YeniSatirTekil(m: map<nat, Banka>, id: nat, b: Banka)
    requires AdlarTekil(m) && id !in m
    requires forall o :: o in m ==> m[o].ad != b.ad
    ensures AdlarTekil(m[id := b])
  {
  }

  // ------------------------------------------------------------ table

  /** The outcome of `update`. */
  datatype Guncelleme = Yok | Cakisma(message: string) | Guncellendi(banka: Satir)

  /** The outcome of `delete`. */
  datatype Silme = Silinemedi(message: string) | Silindi(message: string, softDelete: bool)

  const Mevcut := "Bu isimde bir banka zaten mevcut"
  const Bulunamadi := "Banka bulunamadı"

  /** `getAll`'s filter: active rows, or every row with `includeInactive`. */
  predicate Gorunur(b: Banka, includeInactive: bool)
  {
    includeInactive || b.aktif
  }

  class BankaStore {
    var bankalar: map<nat, Banka>
    var nextId: nat

    ghost predicate Valid()
      reads this
    {
      nextId >= 1 && forall id :: id in bankalar ==> 1 <= id < nextId
    }

    constructor ()
      ensures Valid() && bankalar == map[]
    {
      bankalar := map[];
      nextId := 1;
    }

    predicate AdVar(ad: string)
      reads this
    {
      AdVarIn(bankalar, ad)
    }

    /** The rows visited so far are exactly the visible ones outside `kalan`. */
    ghost predicate Gorulenler(r: seq<Satir>, kalan: set<nat>, includeInactive: bool)
      reads this
    {
      forall p :: p in r <==> p.0 in bankalar && p.0 !in kalan && p.1 == bankalar[p.0] && Gorunur(p.1, includeInactive)
    }

    /** `getAll`: the visible rows, each once, in name order. */
    method GetAll(includeInactive: bool) returns (r: seq<Satir>)
      ensures Sirali(r) && IdTekil(r)
      ensures forall p :: p in r <==> p.0 in bankalar && p.1 == bankalar[p.0] && Gorunur(p.1, includeInactive)
    {
      r := [];
      var kalan := bankalar.Keys;
      while kalan != {}
        invariant kalan <= bankalar.Keys
        invariant Sirali(r) && IdTekil(r)
        invariant Gorulenler(r, kalan, includeInactive)
        decreases |kalan|
      {
        var sec :| sec in kalan;
        if Gorunur(bankalar[sec], includeInactive) {
          AdaGoreEkleSirali(r, (sec, bankalar[sec]));
          AdaGoreEkleTekil(r, (sec, bankalar[sec]));
          r := AdaGoreEkle(r, (sec, bankalar[sec]));
        }
        kalan := kalan - {sec};
      }
    }

    /** `search`, with the `LIKE '%term%'` test as a parameter: the first
     *  `limit` active rows that match, in name order. All the matches are
     *  returned when there are no more than `limit` of them, and any match
     *  left out sorts after every row returned. */
    method Search(eslesir: string -> bool, limit: nat) returns (r: seq<Satir>)
      ensures Sirali(r) && IdTekil(r)
      ensures |r| == if |Eslesenler(bankalar, eslesir)| <= limit then |Eslesenler(bankalar, eslesir)| else limit
      ensures forall p :: p in r ==> p.0 in bankalar && p.1 == bankalar[p.0] && p.1.aktif && eslesir(p.1.ad)
      ensures forall id :: id in Eslesenler(bankalar, eslesir) && (id, bankalar[id]) !in r ==>
                forall p :: p in r ==> Onde(p.1.ad, bankalar[id].ad)
    {
      var aktifler := GetAll(false);
      var uyan: seq<Satir> := [];
      for i := 0 to |aktifler|
        invariant uyan == Uyanlar(aktifler[..i], eslesir)
      {
        assert aktifler[..i + 1][..i] == aktifler[..i];
        if eslesir(aktifler[i].1.ad) {
          uyan := uyan + [aktifler[i]];
        }
      }
      assert aktifler[..|aktifler|] == aktifler;
      UyanlarSirali(aktifler, eslesir);
      UyanlarTekil(aktifler, eslesir);
      UyanlarTam(aktifler, eslesir);
      EslesenSayisi(bankalar, uyan, eslesir);
      IlkSonrakiler(uyan, limit);
      Onek(uyan, if |uyan| <= limit then |uyan| else limit);
      assert uyan[..|uyan|] == uyan;
      r := Ilk(uyan, limit);
      forall id | id in Eslesenler(bankalar, eslesir) ensures (id, bankalar[id]) in uyan {
      }
    }

    /** `create`: a known name gives back its row, reactivated if it was
     *  inactive, and adds no row; an unknown one is inserted, trimmed and
     *  active. */
    method Create(ad: string) returns (b: Satir)
      requires Valid()
      modifies this
      ensures Valid()
      ensures b.0 in bankalar && bankalar[b.0] == b.1 && b.1.aktif
      ensures old(AdVar(ad)) ==>
                && b.1.ad == ad && b.0 in old(bankalar)
                && bankalar == old(bankalar)[b.0 := Banka(ad, true)]
      ensures !old(AdVar(ad)) ==>
                && b.0 !in old(bankalar)
                && bankalar == old(bankalar)[b.0 := Banka(Trim(ad), true)]
      ensures Trim(ad) == ad && old(AdlarTekil(bankalar)) ==> AdlarTekil(bankalar)
    {
      if AdVar(ad) {
        var id :| id in bankalar && bankalar[id].ad == ad;
        var yeni := Banka(ad, true);
        if !bankalar[id].aktif {
          if AdlarTekil(bankalar) { YeniAdTekil(bankalar, id, yeni); }
          bankalar := bankalar[id := yeni];
        } else {
          assert bankalar[id] == yeni;
          assert bankalar == old(bankalar)[id := yeni];
        }
        return (id, yeni);
      }
      var id := nextId;
      var yeni := Banka(Trim(ad), true);
      if Trim(ad) == ad && AdlarTekil(bankalar) { YeniSatirTekil(bankalar, id, yeni); }
      bankalar := bankalar[id := yeni];
      nextId := nextId + 1;
      b := (id, yeni);
    }

    /** `update`'s name check: the row `getByAd` finds under the name is
     *  another row than `id`. */
    method BaskaSahip(id: nat, ad: string) returns (c: bool)
      ensures c ==> exists o :: o in bankalar && o != id && bankalar[o].ad == ad
      ensures !c && AdlarTekil(bankalar) && id in bankalar ==>
                forall o :: o in bankalar && o != id ==> bankalar[o].ad != ad
    {
      c := false;
      if AdVar(ad) {
        var dup :| dup in bankalar && bankalar[dup].ad == ad;
        c := dup != id;
      }
    }

    /** `update`: null for a missing id, an error when another row has the
     *  name, otherwise that row alone is renamed (trimmed). */
    method Update(id: nat, ad: string) returns (r: Guncelleme)
      requires Valid()
      modifies this
      ensures Valid() && nextId == old(nextId)
      ensures id !in old(bankalar) ==> r == Yok
      ensures r.Yok? || r.Cakisma? ==> bankalar == old(bankalar)
      ensures id in old(bankalar) && old(AdlarTekil(bankalar)) ==>
                (r.Cakisma? <==> exists o :: o in old(bankalar) && o != id && old(bankalar)[o].ad == ad)
      ensures r.Cakisma? ==> r.message == Mevcut
      ensures r.Guncellendi? ==>
                && id in old(bankalar)
                && bankalar == old(bankalar)[id := old(bankalar)[id].(ad := Trim(ad))]
                && r.banka == (id, bankalar[id])
      ensures r.Guncellendi? && Trim(ad) == ad && old(AdlarTekil(bankalar)) ==> AdlarTekil(bankalar)
    {
      if id !in bankalar {
        return Yok;
      }
      var cakisir := BaskaSahip(id, ad);
      if cakisir {
        return Cakisma(Mevcut);
      }
      var yeni := bankalar[id].(ad := Trim(ad));
      if Trim(ad) == ad && AdlarTekil(bankalar) {
        YeniAdTekil(bankalar, id, yeni);
      }
      bankalar := bankalar[id := yeni];
      r := Guncellendi((id, yeni));
    }

    /** `delete`, with the number of documents naming the bank as a
     *  parameter: a used bank is only deactivated, an unused one deleted. */
    method Remove(id: nat, evrakSayisi: nat) returns (r: Silme)
      requires Valid()
      modifies this
      ensures Valid() && nextId == old(nextId)
      ensures id !in old(bankalar) ==> r == Silinemedi(Bulunamadi) && bankalar == old(bankalar)
      ensures id in old(bankalar) && evrakSayisi > 0 ==>
                && r == Silindi("Banka pasif yapıldı (" + NatToString(evrakSayisi) + " evrakta kullanılıyor)", true)
                && bankalar == old(bankalar)[id := old(bankalar)[id].(aktif := false)]
      ensures id in old(bankalar) && evrakSayisi == 0 ==>
                r == Silindi("Banka silindi", false) && bankalar == old(bankalar) - {id}
    {
      if id !in bankalar {
        return Silinemedi(Bulunamadi);
      }
      if evrakSayisi > 0 {
        bankalar := bankalar[id := bankalar[id].(aktif := false)];
        return Silindi("Banka pasif yapıldı (" + NatToString(evrakSayisi) + " evrakta kullanılıyor)", true);
      }
      bankalar := bankalar - {id};
      r := Silindi("Banka silindi", false);
    }
  }
}
