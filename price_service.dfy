/**
 * The USD price cache of backend/services/priceService.js: one module-level
 * record `{ prices, at }` that `getPrices` serves while it is younger than
 * `CACHE_MS` and refreshes from a single CoinGecko request otherwise.
 *
 * The clock and the HTTP reply are parameters. A price is a `real`; a quote
 * that is missing or does not parse as a number is `None`.
 */
module PriceService {
  import opened Base

  /** The default time to live of the cache, in milliseconds. */
  const DefaultCacheMs: int := 600_000

  /** `parseInt(PRICE_CACHE_MS, 10) || 600_000`: an unset, unparseable or zero setting falls back. */
  function CacheMs(setting: Option<int>): (ms: int)
    ensures setting.Some? && setting.value != 0 ==> ms == setting.value
    ensures setting.None? || setting.value == 0 ==> ms == DefaultCacheMs
    ensures ms != 0
  {
    if setting.Some? && setting.value != 0 then setting.value else DefaultCacheMs
  }

  datatype Prices = Prices(btc: real, ltc: real, sol: real, trx: real)

  const Zeros := Prices(0.0, 0.0, 0.0, 0.0)

  /**
   * The parsed `usd` quote of each CoinGecko id: the `bitcoin`, `litecoin`,
   * `solana` and `tron` entries of the response body.
   */
  datatype Quotes = Quotes(bitcoin: Option<real>, litecoin: Option<real>, solana: Option<real>, tron: Option<real>)

  /**
   * What the request produced. `Response` carries the HTTP status and the
   * body, `None` when it is empty. `Thrown` is a timeout or network error.
   */
  datatype Reply = Response(status: int, body: Option<Quotes>) | Thrown

  /**
   * The request is made with `validateStatus: s => s === 200`, so the
   * HTTP client itself throws on any other status.
   */
  predicate Throws(reply: Reply) {
    reply.Thrown? || reply.status != 200
  }

  /** `Number(q) || 0`. */
  function PriceOf(q: Option<real>): (p: real)
    ensures q.Some? ==> p == q.value
    ensures q.None? ==> p == 0.0
  {
    if q.Some? then q.value else 0.0
  }

  /** The four prices of a body, each missing or invalid quote as 0. */
  function PricesOf(d: Quotes): (p: Prices)
    ensures p.btc == PriceOf(d.bitcoin) && p.ltc == PriceOf(d.litecoin)
    ensures p.sol == PriceOf(d.solana) && p.trx == PriceOf(d.tron)
  {
    Prices(PriceOf(d.bitcoin), PriceOf(d.litecoin), PriceOf(d.solana), PriceOf(d.tron))
  }

  /** The cache record; `prices` is `null` until the first successful fetch. */
  datatype Cache = Cache(prices: Option<Prices>, at: int)

  const Empty := Cache(None, 0)

  /** The cached prices may be served at `now`. */
  predicate Fresh(c: Cache, ttl: int, now: int) {
    c.prices.Some? && now - c.at < ttl
  }

  /** The prices one `getPrices` call returns, and the cache it leaves. */
  datatype Served = Served(prices: Prices, cache: Cache)

  /**
   * One `getPrices` call at `now`. The reply is consulted only when the
   * cache is not fresh.
   */
  function GetPricesSpec(c: Cache, ttl: int, now: int, reply: Reply): (s: Served)
    // a fresh cache is served as is, whatever the network would say
    ensures Fresh(c, ttl, now) ==> s == Served(c.prices.value, c)
    // a thrown request falls back to the last prices, else zeros
    ensures !Fresh(c, ttl, now) && Throws(reply) ==>
      s.cache == c && s.prices == c.prices.GetOr(Zeros)
    // an empty body gives zeros and keeps the cache
    ensures !Fresh(c, ttl, now) && !Throws(reply) && reply.body.None? ==> s == Served(Zeros, c)
    // a body replaces the cache, stamped with now
    ensures !Fresh(c, ttl, now) && !Throws(reply) && reply.body.Some? ==>
      s.cache == Cache(Some(s.prices), now) && s.prices == PricesOf(reply.body.value)
  {
    if Fresh(c, ttl, now) then Served(c.prices.value, c)
    else if Throws(reply) then Served(c.prices.GetOr(Zeros), c)
    else if reply.body.None? then Served(Zeros, c)
    else
      var p := PricesOf(reply.body.value);
      Served(p, Cache(Some(p), now))
  }

  /** The cache only ever changes by a successful fetch stamped with the call's clock. */
  lemma CacheChangesOnlyOnFetch(c: Cache, ttl: int, now: int, reply: Reply)
    ensures var s := GetPricesSpec(c, ttl, now, reply);
      s.cache == c || (s.cache == Cache(Some(s.prices), now) && reply.Response? && reply.status == 200 && reply.body.Some?)
  {
  }

  /**
   * After a fetch at `now`, every later call within the time to live is
   * answered from the cache with the same prices, whatever its reply.
   */
  lemma FetchedThenServed(c: Cache, ttl: int, now: int, reply: Reply, later: int, reply2: Reply)
    requires !Fresh(c, ttl, now) && reply.Response? && reply.status == 200 && reply.body.Some?
    requires now <= later < now + ttl
    ensures var s := GetPricesSpec(c, ttl, now, reply);
      GetPricesSpec(s.cache, ttl, later, reply2) == s
  {
    var s := GetPricesSpec(c, ttl, now, reply);
    assert s.cache == Cache(Some(s.prices), now);
    assert Fresh(s.cache, ttl, later);
  }

  /** Once prices are cached, a failing request never returns zeros in their place. */
  lemma CachedSurvivesFailure(c: Cache, ttl: int, now: int, reply: Reply)
    requires c.prices.Some? && Throws(reply)
    ensures GetPricesSpec(c, ttl, now, reply) == Served(c.prices.value, c)
  {
  }

  /** The module-level `cache` object and its getters. */
  class PriceCache {
    var cache: Cache
    const ttl: int

    constructor (setting: Option<int>)
      ensures cache == Empty && ttl == CacheMs(setting)
    {
      cache := Empty;
      ttl := CacheMs(setting);
    }

    /** `getPrices()`: serve, refresh or fall back, updating the cache in place. */
    method GetPrices(now: int, reply: Reply) returns (p: Prices)
      modifies this
      ensures Served(p, cache) == GetPricesSpec(old(cache), ttl, now, reply)
    {
      if cache.prices.Some? && now - cache.at < ttl {
        return cache.prices.value;
      }
      if reply.Thrown? || reply.status != 200 {
        // the client threw: the catch block
        if cache.prices.Some? {
          return cache.prices.value;
        }
        return Zeros;
      }
      if reply.body.None? {
        return Zeros;
      }
      var d := reply.body.value;
      var fetched := Prices(PriceOf(d.bitcoin), PriceOf(d.litecoin), PriceOf(d.solana), PriceOf(d.tron));
      cache := cache.(prices := Some(fetched));
      cache := cache.(at := now);
      p := fetched;
    }

    /** `getBtcUsd()`. */
    method GetBtcUsd(now: int, reply: Reply) returns (usd: real)
      modifies this
      ensures var s := GetPricesSpec(old(cache), ttl, now, reply); usd == s.prices.btc && cache == s.cache
    {
      var p := GetPrices(now, reply);
      usd := p.btc;
    }

    /** `getLtcUsd()`. */
    method GetLtcUsd(now: int, reply: Reply) returns (usd: real)
      modifies this
      ensures var s := GetPricesSpec(old(cache), ttl, now, reply); usd == s.prices.ltc && cache == s.cache
    {
      var p := GetPrices(now, reply);
      usd := p.ltc;
    }

    /** `getSolUsd()`. */
    method GetSolUsd(now: int, reply: Reply) returns (usd: real)
      modifies this
      ensures var s := GetPricesSpec(old(cache), ttl, now, reply); usd == s.prices.sol && cache == s.cache
    {
      var p := GetPrices(now, reply);
      usd := p.sol;
    }

    /** `getTrxUsd()`. */
    method GetTrxUsd(now: int, reply: Reply) returns (usd: real)
      modifies this
      ensures var s := GetPricesSpec(old(cache), ttl, now, reply); usd == s.prices.trx && cache == s.cache
    {
      var p := GetPrices(now, reply);
      usd := p.trx;
    }
  }
}
