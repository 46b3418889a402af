/** `backend/src/utils/tcmb.js`: the exchange rates of the central bank,
 *  kept for an hour in a module-level cache. Fetching and parsing the XML
 *  is outside the model: a call receives the outcome of the fetch it would
 *  make (`None` when it throws). Times are milliseconds since the epoch; the
 *  ISO strings of the answers are those numbers. */
module Tcmb {
  import opened Wrappers

  const SupportedCurrencies: seq<string> := ["USD", "EUR", "GBP", "CHF"]

  /** `CACHE_DURATION`: one hour. */
  const CacheDuration: int := 60 * 60 * 1000

  /** A `kurlar` object: the rates present (a missing or null rate is
   *  absent from the map) and the bulletin date. */
  datatype Kurlar = Kurlar(rates: map<string, real>, tarih: Option<string>)

  /** The emergency answer when nothing can be had: TRY is 1, every other
   *  rate and the date are null. */
  const Fallback := Kurlar(map["TRY" := 1.0], None)

  /** The answer of `getKurlar`. `updatedAt` and `expiresAt` are absent in
   *  the unavailable answer, `expiresAt` also in the stale one. */
  datatype Yanit = Yanit(
    kurlar: Kurlar, cached: bool, stale: bool, unavailable: bool,
    updatedAt: Option<int>, expiresAt: Option<int>, error: Option<string>)

  const EskiVeri := "TCMB erişilemedi, eski veriler gösteriliyor"
  const CacheBos := "TCMB erişilemedi ve cache boş. Kurları manuel girin."

  /** `kurCache.timestamp` used as a condition: null and 0 are falsy. */
  predicate Damgali(timestamp: Option<int>)
  {
    timestamp.Some? && timestamp.value != 0
  }

  /** `cacheValid`: data and a timestamp are present and less than an hour
   *  has passed since it. */
  predicate Gecerli(data: Option<Kurlar>, timestamp: Option<int>, now: int)
  {
    data.Some? && Damgali(timestamp) && now - timestamp.value < CacheDuration
  }

  /** One call of `getKurlar`: the answer and the new cache. */
  function Getir(data: Option<Kurlar>, timestamp: Option<int>, forceRefresh: bool, now: int,
                 fetched: Option<Kurlar>): (r: (Yanit, Option<Kurlar>, Option<int>))
  {
    if Gecerli(data, timestamp, now) && !forceRefresh then
      (Yanit(data.value, true, false, false, Some(timestamp.value), Some(timestamp.value + CacheDuration), None),
       data, timestamp)
    else if fetched.Some? then
      (Yanit(fetched.value, false, false, false, Some(now), Some(now + CacheDuration), None), fetched, Some(now))
    else if data.Some? then
      (Yanit(data.value, true, true, false, timestamp, None, Some(EskiVeri)), data, timestamp)
    else
      (Yanit(Fallback, false, false, true, None, None, Some(CacheBos)), data, timestamp)
  }

  /** The cache is served, without a fetch and without change, exactly when
   *  it is valid and no refresh is forced. */
  lemma CacheServedIff(data: Option<Kurlar>, timestamp: Option<int>, forceRefresh: bool, now: int,
                       fetched: Option<Kurlar>)
    ensures var r := Getir(data, timestamp, forceRefresh, now, fetched);
      (r.0.cached && !r.0.stale) <==> Gecerli(data, timestamp, now) && !forceRefresh
    ensures var r := Getir(data, timestamp, forceRefresh, now, fetched);
      Gecerli(data, timestamp, now) && !forceRefresh ==>
        r.0.kurlar == data.value && r.1 == data && r.2 == timestamp
        && r.0.expiresAt == Some(timestamp.value + CacheDuration)
    ensures Gecerli(data, timestamp, now) && !forceRefresh ==>
      forall f :: Getir(data, timestamp, forceRefresh, now, f) == Getir(data, timestamp, forceRefresh, now, fetched)
  {
  }

  /** Otherwise a successful fetch replaces the cache, stamped `now`, and is
   *  answered uncached. */
  lemma FetchReplacesCache(data: Option<Kurlar>, timestamp: Option<int>, forceRefresh: bool, now: int, k: Kurlar)
    requires !(Gecerli(data, timestamp, now) && !forceRefresh)
    ensures var r := Getir(data, timestamp, forceRefresh, now, Some(k));
      r.1 == Some(k) && r.2 == Some(now) && r.0.kurlar == k && !r.0.cached && r.0.error.None?
  {
  }

  /** A failed fetch never changes the cache; with old data it answers that
   *  data as stale, with none the fallback rates as unavailable. */
  lemma FailedFetchKeepsCache(data: Option<Kurlar>, timestamp: Option<int>, forceRefresh: bool, now: int)
    requires !(Gecerli(data, timestamp, now) && !forceRefresh)
    ensures var r := Getir(data, timestamp, forceRefresh, now, None);
      r.1 == data && r.2 == timestamp
    ensures var r := Getir(data, timestamp, forceRefresh, now, None);
      data.Some? ==> r.0.kurlar == data.value && r.0.cached && r.0.stale && !r.0.unavailable
    ensures var r := Getir(data, timestamp, forceRefresh, now, None);
      data.None? ==> r.0.unavailable && !r.0.cached && r.0.kurlar.rates == map["TRY" := 1.0]
                     && r.0.kurlar.tarih.None? && r.0.updatedAt.None?
    ensures var r := Getir(data, timestamp, forceRefresh, now, None);
      data.None? ==> forall c :: c in SupportedCurrencies ==> c !in r.0.kurlar.rates
  {
  }

  /** Within the hour after a fetch at `t` (a non-zero time), an unforced
   *  call is answered from the cache with the fetched rates. */
  lemma FreshFetchServedForAnHour(data: Option<Kurlar>, timestamp: Option<int>, forceRefresh: bool,
                                  t: int, k: Kurlar, now: int, f: Option<Kurlar>)
    requires !(Gecerli(data, timestamp, t) && !forceRefresh) && t != 0
    requires t <= now < t + CacheDuration
    ensures var r := Getir(data, timestamp, forceRefresh, t, Some(k));
      var r2 := Getir(r.1, r.2, false, now, f);
      r2.0.cached && !r2.0.stale && r2.0.kurlar == k && r2.1 == Some(k) && r2.0.updatedAt == Some(t)
  {
  }

  /** `Math.round(ms / 1000 / 60)`: the nearest whole minute, halves up. */
  function Dakika(ms: int): (m: int)
    ensures m * 60000 - 30000 <= ms < m * 60000 + 30000
  {
    (ms + 30000) / 60000
  }

  /** The answer of `getCacheStatus`. */
  datatype CacheStatus =
    | Empty
    | Status(valid: bool, ageMinutes: int, expiresInMinutes: int, data: Option<Kurlar>)

  /** `getCacheStatus` as a function of the cache. */
  function Durum(data: Option<Kurlar>, timestamp: Option<int>, now: int): (s: CacheStatus)
    ensures s.Empty? <==> !Damgali(timestamp)
    ensures s.Status? ==> (s.valid <==> now - timestamp.value < CacheDuration)
    ensures s.Status? && !s.valid ==> s.expiresInMinutes == 0
    ensures s.Status? && s.valid ==> 0 <= s.expiresInMinutes
    ensures s.Status? && s.valid && now >= timestamp.value ==> s.expiresInMinutes <= 60
    ensures s.Status? ==> s.data == data && s.ageMinutes == Dakika(now - timestamp.value)
  {
    if !Damgali(timestamp) then Empty
    else
      var age := now - timestamp.value;
      var valid := age < CacheDuration;
      Status(valid, Dakika(age), if valid then Dakika(CacheDuration - age) else 0, data)
  }

  /** `kurlar[code] || null`: a present, non-zero rate. */
  function Kur(k: Kurlar, code: string): (r: Option<real>)
    ensures r.Some? <==> code in k.rates && k.rates[code] != 0.0
    ensures r.Some? ==> r.value == k.rates[code]
  {
    if code in k.rates && k.rates[code] != 0.0 then Some(k.rates[code]) else None
  }

  /** Without a cache and without the bulletin, every rate but TRY is null. */
  lemma FallbackOnlyTry(code: string)
    ensures Kur(Fallback, code).Some? <==> code == "TRY"
  {
  }

  /** The module-level `kurCache` (its `error` field is always null). */
  class KurCache {
    var data: Option<Kurlar>
    var timestamp: Option<int>

    /** Data and timestamp are set and cleared together. */
    ghost predicate Valid()
      reads this
    {
      data.Some? <==> timestamp.Some?
    }

    constructor ()
      ensures Valid() && data.None? && timestamp.None?
    {
      data := None;
      timestamp := None;
    }

    /** `getKurlar(forceRefresh)` at time `now`, the fetch giving `fetched`. */
    method GetKurlar(forceRefresh: bool, now: int, fetched: Option<Kurlar>) returns (y: Yanit)
      requires Valid()
      modifies this
      ensures Valid()
      ensures (y, data, timestamp) == Getir(old(data), old(timestamp), forceRefresh, now, fetched)
    {
      var cacheValid := data.Some? && Damgali(timestamp) && now - timestamp.value < CacheDuration;
      if cacheValid && !forceRefresh {
        return Yanit(data.value, true, false, false, Some(timestamp.value),
                     Some(timestamp.value + CacheDuration), None);
      }
      if fetched.Some? {
        data := fetched;
        timestamp := Some(now);
        return Yanit(fetched.value, false, false, false, Some(now), Some(now + CacheDuration), None);
      }
      if data.Some? {
        return Yanit(data.value, true, true, false, timestamp, None, Some(EskiVeri));
      }
      return Yanit(Fallback, false, false, true, None, None, Some(CacheBos));
    }

    /** `getKur(code)`: 1 for TRY without touching the cache; otherwise the
     *  rate of an unforced `getKurlar`, or null. */
    method GetKur(code: string, now: int, fetched: Option<Kurlar>) returns (r: Option<real>)
      requires Valid()
      modifies this
      ensures Valid()
      ensures code == "TRY" ==> r == Some(1.0) && data == old(data) && timestamp == old(timestamp)
      ensures code != "TRY" ==>
        var g := Getir(old(data), old(timestamp), false, now, fetched);
        r == Kur(g.0.kurlar, code) && data == g.1 && timestamp == g.2
    {
      if code == "TRY" {
        return Some(1.0);
      }
      var y := GetKurlar(false, now, fetched);
      r := Kur(y.kurlar, code);
    }

    /** `clearCache`: back to empty. */
    method ClearCache()
      modifies this
      ensures Valid() && data.None? && timestamp.None?
      ensures Durum(data, timestamp, 0) == Empty
    {
      data := None;
      timestamp := None;
    }

    /** `getCacheStatus` at time `now`. */
    function GetCacheStatus(now: int): (s: CacheStatus)
      reads this
      ensures s == Durum(data, timestamp, now)
      ensures s.Empty? ==> !Gecerli(data, timestamp, now)
    {
      Durum(data, timestamp, now)
    }
  }
}
