/**
 * The balance aggregator (`provider.Adapter`): resolves the chain provider for a symbol,
 * reads the crypto balance and the fiat rate through their TTL caches, and composes a
 * `BalanceResult`; the batch variant answers every request in its own slot.
 *
 * The functions below give the outcome of each step as a function of the two caches'
 * contents; the methods of `Adapter` run the steps on the real caches and are proved to
 * agree with them. The chain providers and the rate service are oracles: function values
 * the model calls but does not look inside.
 */
module Aggregator {
  import opened Wrappers
  import opened Errors
  import opened Text
  import opened Domain
  import opened Ports
  import opened TtlCache

  const RateCacheTTL: int := 5 * Second
  const BalanceCacheTTL: int := 30 * Second
  const DefaultFiat: string := "USD"
  const TestnetSuffix: string := "_TESTNET"

  /** The rate service's answer; `change24h` may be missing from it. */
  datatype RateResponse = RateResponse(rate: real, change24h: Option<real>)

  /** The fiat-rate client: called with the rate symbol and the fiat symbol exactly as given. */
  datatype RateService = RateService(getRate: (string, string) -> Result<RateResponse, Error>)

  /** `CachedRateResult`: what the rate cache stores, with a missing change already read as 0. */
  datatype CachedRate = CachedRate(rate: real, change24h: real)

  /** The contents of the balance cache and of the rate cache. */
  datatype Caches = Caches(balances: Items<real>, rates: Items<CachedRate>)

  function FiatOrDefault(fiatSymbol: string): string {
    if fiatSymbol == "" then DefaultFiat else fiatSymbol
  }

  function BalanceKey(symbol: string, addr: string): string {
    "balance:" + Upper(symbol) + ":" + addr
  }

  /** The symbol the rate service is asked about: the raw symbol without a trailing `_TESTNET`. */
  function RateSymbol(symbol: string): string {
    TrimSuffix(symbol, TestnetSuffix)
  }

  function RateKey(symbol: string, fiatSymbol: string): string {
    "rate:" + Upper(RateSymbol(symbol)) + ":" + Upper(fiatSymbol)
  }

  /**
   * `getCachedOrFetchBalance`: the result and the balance cache afterwards. A balance it
   * returns is live under its key afterwards, a failure leaves the cache as it was, and no
   * other key's lookup changes.
   */
  function FetchBalance(balances: Items<real>, prov: CryptoProvider, symbol: string, addr: string, now: int)
    : (r: (Result<real, Error>, Items<real>))
    ensures r.0.Ok? ==> Find(r.1, BalanceKey(symbol, addr), now) == Some(r.0.value)
    ensures r.0.Err? ==> r.1 == balances
    ensures forall k :: k != BalanceKey(symbol, addr) ==> Find(r.1, k, now) == Find(balances, k, now)
  {
    var key := BalanceKey(symbol, addr);
    match Find(balances, key, now)
    case Some(cached) => (Ok(cached), balances)
    case None =>
      match prov.getBalance(addr)
      case Err(e) => (Err(Wrapped("failed to get balance from provider", e)), balances)
      case Ok(balance) => (Ok(balance), balances[key := CacheItem(balance, now + BalanceCacheTTL)])
  }

  function ToCachedRate(resp: RateResponse): CachedRate {
    CachedRate(resp.rate, resp.change24h.GetOr(0.0))
  }

  /**
   * `getCachedOrFetchRate`: the result and the rate cache afterwards. A rate it returns is
   * live under its key afterwards, a failure leaves the cache as it was, and no other key's
   * lookup changes.
   */
  function FetchRate(rateItems: Items<CachedRate>, rates: RateService, symbol: string, fiatSymbol: string, now: int)
    : (r: (Result<CachedRate, Error>, Items<CachedRate>))
    ensures r.0.Ok? ==> Find(r.1, RateKey(symbol, fiatSymbol), now) == Some(r.0.value)
    ensures r.0.Err? ==> r.1 == rateItems
    ensures forall k :: k != RateKey(symbol, fiatSymbol) ==> Find(r.1, k, now) == Find(rateItems, k, now)
  {
    var key := RateKey(symbol, fiatSymbol);
    match Find(rateItems, key, now)
    case Some(cached) => (Ok(cached), rateItems)
    case None =>
      match rates.getRate(RateSymbol(symbol), fiatSymbol)
      case Err(e) => (Err(Wrapped("failed to get rate from CMC", e)), rateItems)
      case Ok(resp) =>
        var cached := ToCachedRate(resp);
        (Ok(cached), rateItems[key := CacheItem(cached, now + RateCacheTTL)])
  }

  /** `buildBalanceResult`: upper-cased symbols, the address echoed, values scaled by the balance. */
  function BuildBalanceResult(symbol: string, addr: string, fiatSymbol: string, cryptoBalance: real, rate: real, change24h: real)
    : (r: BalanceResult)
    ensures r.cryptoSymbol == Upper(symbol) && r.fiatSymbol == Upper(fiatSymbol) && r.address == addr
    ensures r.cryptoBalance == cryptoBalance && r.exchangeRate == rate
    ensures r.fiatValue == r.cryptoBalance * r.exchangeRate
    ensures r.change24h == cryptoBalance * change24h
    ensures r.error == None
  {
    BalanceResult(
      cryptoSymbol := Upper(symbol),
      address := addr,
      cryptoBalance := cryptoBalance,
      fiatSymbol := Upper(fiatSymbol),
      fiatValue := cryptoBalance * rate,
      exchangeRate := rate,
      change24h := cryptoBalance * change24h,
      error := None)
  }

  /**
   * `GetBalance` as a function of the caches: its result and the caches afterwards. An
   * unknown symbol fails before any cache is touched; a success carries the request's
   * symbols and address and leaves both the balance and the rate it used live in the caches.
   */
  function Resolve(providers: map<string, CryptoProvider>, rates: RateService, caches: Caches,
                   symbol: string, addr: string, fiatSymbol: string, now: int)
    : (r: (Result<BalanceResult, Error>, Caches))
    ensures Upper(symbol) !in providers ==> r == (Err(ProviderNotFound(symbol)), caches)
    ensures r.0.Ok? ==>
      var res := r.0.value;
      && res.cryptoSymbol == Upper(symbol) && res.address == addr
      && res.fiatSymbol == Upper(FiatOrDefault(fiatSymbol)) && res.error == None
      && res.fiatValue == res.cryptoBalance * res.exchangeRate
      && Find(r.1.balances, BalanceKey(symbol, addr), now) == Some(res.cryptoBalance)
      && Find(r.1.rates, RateKey(symbol, FiatOrDefault(fiatSymbol)), now).Some?
      && Find(r.1.rates, RateKey(symbol, FiatOrDefault(fiatSymbol)), now).value.rate == res.exchangeRate
  {
    var fiat := FiatOrDefault(fiatSymbol);
    if Upper(symbol) !in providers then
      (Err(ProviderNotFound(symbol)), caches)
    else
      var (balance, balances') := FetchBalance(caches.balances, providers[Upper(symbol)], symbol, addr, now);
      match balance
      case Err(e) => (Err(e), Caches(balances', caches.rates))
      case Ok(cryptoBalance) =>
        var (rate, rates') := FetchRate(caches.rates, rates, symbol, fiat, now);
        match rate
        case Err(e) => (Err(e), Caches(balances', rates'))
        case Ok(r) =>
          (Ok(BuildBalanceResult(symbol, addr, fiat, cryptoBalance, r.rate, r.change24h)), Caches(balances', rates'))
  }

  /** The slot of a failed batch request: symbols upper-cased (the fiat one not defaulted), numbers zero. */
  function ErrorSlot(req: BalanceRequest, e: Error): (r: BalanceResult)
    ensures r.cryptoSymbol == Upper(req.cryptoSymbol) && r.address == req.address
    ensures r.error.Some? && r.fiatValue == r.cryptoBalance * r.exchangeRate
  {
    BalanceResult(
      cryptoSymbol := Upper(req.cryptoSymbol),
      address := req.address,
      cryptoBalance := 0.0,
      fiatSymbol := Upper(req.fiatSymbol),
      fiatValue := 0.0,
      exchangeRate := 0.0,
      change24h := 0.0,
      error := Some(Message(e)))
  }

  function Slot(req: BalanceRequest, r: Result<BalanceResult, Error>): BalanceResult {
    match r
    case Ok(result) => result
    case Err(e) => ErrorSlot(req, e)
  }

  /**
   * `GetBatchBalances` with the requests resolved one after another, left to right: the
   * slots and the caches afterwards. There is one slot per request, and each slot, failed
   * or not, echoes its own request's upper-cased symbol and address.
   */
  function Batch(providers: map<string, CryptoProvider>, rates: RateService, caches: Caches,
                 requests: seq<BalanceRequest>, now: int)
    : (r: (seq<BalanceResult>, Caches))
    ensures |r.0| == |requests|
    ensures forall i :: 0 <= i < |requests| ==>
      r.0[i].cryptoSymbol == Upper(requests[i].cryptoSymbol) && r.0[i].address == requests[i].address
    decreases |requests|
  {
    if requests == [] then ([], caches)
    else
      var (slots, caches') := Batch(providers, rates, caches, requests[..|requests| - 1], now);
      var req := requests[|requests| - 1];
      var (r, caches'') := Resolve(providers, rates, caches', req.cryptoSymbol, req.address, req.fiatSymbol, now);
      (slots + [Slot(req, r)], caches'')
  }

  /** The caches' contents just before request `i` of a batch is resolved. */
  function CachesBefore(providers: map<string, CryptoProvider>, rates: RateService, caches: Caches,
                        requests: seq<BalanceRequest>, i: nat, now: int): Caches
    requires i <= |requests|
  {
    Batch(providers, rates, caches, requests[..i], now).1
  }

  class Adapter {
    const rates: RateService
    const providers: map<string, CryptoProvider>
    const rateCache: Cache<CachedRate>
    const balanceCache: Cache<real>

    ghost predicate Valid()
      reads this
    {
      rateCache as object != balanceCache as object
    }

    ghost function State(): Caches
      reads this, balanceCache, rateCache
    {
      Caches(balanceCache.items, rateCache.items)
    }

    constructor (rates: RateService, providers: map<string, CryptoProvider>)
      ensures Valid()
      ensures this.rates == rates && this.providers == providers
      ensures fresh(balanceCache) && fresh(rateCache)
      ensures State() == Caches(map[], map[])
    {
      this.rates := rates;
      this.providers := providers;
      rateCache := new Cache(CachedRate(0.0, 0.0));
      balanceCache := new Cache(0.0);
    }

    method GetBalance(symbol: string, addr: string, fiatSymbol: string, now: int)
      returns (r: Result<BalanceResult, Error>)
      requires Valid()
      modifies balanceCache, rateCache
      ensures (r, State()) == Resolve(providers, rates, old(State()), symbol, addr, fiatSymbol, now)
    {
      var fiat := fiatSymbol;
      if fiat == "" {
        fiat := DefaultFiat;
      }
      var key := Upper(symbol);
      if key !in providers {
        return Err(ProviderNotFound(symbol));
      }
      var cryptoBalance :- GetCachedOrFetchBalance(providers[key], symbol, addr, now);
      var rate :- GetCachedOrFetchRate(symbol, fiat, now);
      return Ok(BuildBalanceResult(symbol, addr, fiat, cryptoBalance, rate.rate, rate.change24h));
    }

    method GetCachedOrFetchBalance(prov: CryptoProvider, symbol: string, addr: string, now: int)
      returns (r: Result<real, Error>)
      requires Valid()
      modifies balanceCache
      ensures (r, balanceCache.items) == FetchBalance(old(balanceCache.items), prov, symbol, addr, now)
    {
      var key := BalanceKey(symbol, addr);
      var cached, found := balanceCache.Get(key, now);
      if found {
        return Ok(cached);
      }
      var balance := prov.getBalance(addr);
      if balance.Err? {
        return Err(Wrapped("failed to get balance from provider", balance.error));
      }
      balanceCache.Set(key, balance.value, BalanceCacheTTL, now);
      return Ok(balance.value);
    }

    method GetCachedOrFetchRate(symbol: string, fiatSymbol: string, now: int)
      returns (r: Result<CachedRate, Error>)
      requires Valid()
      modifies rateCache
      ensures (r, rateCache.items) == FetchRate(old(rateCache.items), rates, symbol, fiatSymbol, now)
    {
      var rateSymbol := TrimSuffix(symbol, TestnetSuffix);
      var key := "rate:" + Upper(rateSymbol) + ":" + Upper(fiatSymbol);
      var cached, found := rateCache.Get(key, now);
      if found {
        return Ok(cached);
      }
      var resp := rates.getRate(rateSymbol, fiatSymbol);
      if resp.Err? {
        return Err(Wrapped("failed to get rate from CMC", resp.error));
      }
      var change24h := 0.0;
      if resp.value.change24h.Some? {
        change24h := resp.value.change24h.value;
      }
      var result := CachedRate(resp.value.rate, change24h);
      rateCache.Set(key, result, RateCacheTTL, now);
      return Ok(result);
    }

    /** `GetBalances` is `GetBatchBalances`. */
    method GetBalances(requests: seq<BalanceRequest>, now: int)
      returns (results: seq<BalanceResult>, err: Option<Error>)
      requires Valid()
      modifies balanceCache, rateCache
      ensures err == None
      ensures (results, State()) == Batch(providers, rates, old(State()), requests, now)
    {
      results, err := GetBatchBalances(requests, now);
    }

    /** Fills the preallocated result slots in request order; a failed request never fails the batch. */
    method GetBatchBalances(requests: seq<BalanceRequest>, now: int)
      returns (results: seq<BalanceResult>, err: Option<Error>)
      requires Valid()
      modifies balanceCache, rateCache
      ensures err == None
      ensures (results, State()) == Batch(providers, rates, old(State()), requests, now)
    {
      var slots := new BalanceResult[|requests|](_ => ErrorSlot(BalanceRequest("", "", ""), Opaque("")));
      for i := 0 to |requests|
        invariant (slots[..i], State()) == Batch(providers, rates, old(State()), requests[..i], now)
      {
        var req := requests[i];
        var r := GetBalance(req.cryptoSymbol, req.address, req.fiatSymbol, now);
        slots[i] := Slot(req, r);
        ghost var upTo := requests[..i + 1];
        assert upTo[..|upTo| - 1] == requests[..i] && upTo[|upTo| - 1] == req;
        assert slots[..i + 1] == slots[..i] + [Slot(req, r)];
      }
      assert requests[..|requests|] == requests && slots[..] == slots[..|requests|];
      return slots[..], None;
    }
  }

  // ---------------------------------------------------------------------------------------
  // Properties of a single resolution

  /** An empty fiat symbol is resolved exactly as "USD". */
  lemma EmptyFiatMeansUsd(providers: map<string, CryptoProvider>, rates: RateService, caches: Caches,
                          symbol: string, addr: string, now: int)
    ensures Resolve(providers, rates, caches, symbol, addr, "", now)
         == Resolve(providers, rates, caches, symbol, addr, DefaultFiat, now)
  {
  }

  /**
   * An unknown symbol fails naming the symbol as given, touches no cache, and the outcome
   * does not depend on any provider or on the rate service: neither is asked.
   */
  lemma UnknownSymbolFails(providers: map<string, CryptoProvider>, rates: RateService, rates': RateService,
                           caches: Caches, symbol: string, addr: string, fiatSymbol: string, now: int)
    requires Upper(symbol) !in providers
    ensures Resolve(providers, rates, caches, symbol, addr, fiatSymbol, now) == (Err(ProviderNotFound(symbol)), caches)
    ensures Resolve(providers, rates, caches, symbol, addr, fiatSymbol, now)
         == Resolve(providers, rates', caches, symbol, addr, fiatSymbol, now)
  {
  }

  /** A balance cache hit answers from the cache: the result is the same whatever the provider does. */
  lemma BalanceHitSkipsProvider(balances: Items<real>, prov: CryptoProvider, prov': CryptoProvider,
                                symbol: string, addr: string, now: int)
    requires Find(balances, BalanceKey(symbol, addr), now).Some?
    ensures FetchBalance(balances, prov, symbol, addr, now)
         == (Ok(Find(balances, BalanceKey(symbol, addr), now).value), balances)
    ensures FetchBalance(balances, prov, symbol, addr, now) == FetchBalance(balances, prov', symbol, addr, now)
  {
  }

  /** A live rate entry answers from the cache: the result is the same whatever the rate service does. */
  lemma RateHitSkipsService(rateItems: Items<CachedRate>, rates: RateService, rates': RateService,
                            symbol: string, fiatSymbol: string, now: int)
    requires Find(rateItems, RateKey(symbol, fiatSymbol), now).Some?
    ensures FetchRate(rateItems, rates, symbol, fiatSymbol, now)
         == (Ok(Find(rateItems, RateKey(symbol, fiatSymbol), now).value), rateItems)
    ensures FetchRate(rateItems, rates, symbol, fiatSymbol, now) == FetchRate(rateItems, rates', symbol, fiatSymbol, now)
  {
  }

  /** On a miss, a provider success is cached for 30 s; a provider error is wrapped and not cached. */
  lemma BalanceMiss(balances: Items<real>, prov: CryptoProvider, symbol: string, addr: string, now: int)
    requires Find(balances, BalanceKey(symbol, addr), now).None?
    ensures var (r, balances') := FetchBalance(balances, prov, symbol, addr, now);
      match prov.getBalance(addr)
      case Ok(b) => r == Ok(b) && balances' == balances[BalanceKey(symbol, addr) := CacheItem(b, now + 30 * Second)]
                    && Find(balances', BalanceKey(symbol, addr), now + 30 * Second) == Some(b)
      case Err(e) => r == Err(Wrapped("failed to get balance from provider", e)) && balances' == balances
  {
  }

  /**
   * On a rate miss the service is asked with the raw symbol minus `_TESTNET` and the fiat
   * symbol as given (neither upper-cased), and a success is cached under the upper-cased key for 5 s.
   */
  lemma RateMiss(rateItems: Items<CachedRate>, rates: RateService, symbol: string, fiatSymbol: string, now: int)
    requires Find(rateItems, RateKey(symbol, fiatSymbol), now).None?
    ensures var (r, rateItems') := FetchRate(rateItems, rates, symbol, fiatSymbol, now);
      match rates.getRate(TrimSuffix(symbol, "_TESTNET"), fiatSymbol)
      case Ok(resp) =>
        r == Ok(CachedRate(resp.rate, if resp.change24h.Some? then resp.change24h.value else 0.0))
        && rateItems' == rateItems[RateKey(symbol, fiatSymbol) := CacheItem(r.value, now + 5 * Second)]
      case Err(e) => r == Err(Wrapped("failed to get rate from CMC", e)) && rateItems' == rateItems
  {
  }

  /** A symbol with `_TESTNET` appended is rated under the same key as the symbol itself. */
  lemma TestnetSharesRateKey(base: string, fiatSymbol: string)
    requires !HasSuffix(base, TestnetSuffix)
    ensures RateSymbol(base + TestnetSuffix) == RateSymbol(base) == base
    ensures RateKey(base + TestnetSuffix, fiatSymbol) == RateKey(base, fiatSymbol)
  {
    TrimAppendedSuffix(base, TestnetSuffix);
  }

  /**
   * The suffix is trimmed before upper-casing and case-sensitively: `btc_testnet` reaches the
   * testnet provider (its lookup upper-cases) but is rated as `btc_testnet`, not as `btc`.
   */
  lemma RateSymbolIsCaseSensitive()
    ensures Upper("btc_testnet") == "BTC_TESTNET"
    ensures RateSymbol("btc_testnet") == "btc_testnet"
    ensures RateSymbol("BTC_TESTNET") == "BTC"
  {
    var lower, upper := "btc_testnet", "BTC_TESTNET";
    forall k | 0 <= k < |lower|
      ensures Upper(lower)[k] == upper[k]
    {
      assert Upper(lower)[k] == UpperChar(lower[k]);
    }
    assert lower[3..] != TestnetSuffix by {
      assert lower[3..][1] == 't' && TestnetSuffix[1] == 'T';
    }
    assert upper[3..] == TestnetSuffix && upper[..3] == "BTC";
  }

  /** A balance failure is returned as is, the rate cache is untouched and the rate service is not asked. */
  lemma BalanceErrorShortCircuits(providers: map<string, CryptoProvider>, rates: RateService, rates': RateService,
                                  caches: Caches, symbol: string, addr: string, fiatSymbol: string, now: int)
    requires Upper(symbol) in providers
    requires FetchBalance(caches.balances, providers[Upper(symbol)], symbol, addr, now).0.Err?
    ensures var (r, caches') := Resolve(providers, rates, caches, symbol, addr, fiatSymbol, now);
      r == FetchBalance(caches.balances, providers[Upper(symbol)], symbol, addr, now).0.PropagateFailure()
      && caches'.rates == caches.rates
    ensures Resolve(providers, rates, caches, symbol, addr, fiatSymbol, now)
         == Resolve(providers, rates', caches, symbol, addr, fiatSymbol, now)
  {
  }

  /**
   * A successful resolution upper-cases both symbols (the fiat one after defaulting),
   * echoes the address, and scales the rate and the 24h change by the balance.
   */
  lemma ResolvedResult(providers: map<string, CryptoProvider>, rates: RateService, caches: Caches,
                       symbol: string, addr: string, fiatSymbol: string, now: int)
    requires Resolve(providers, rates, caches, symbol, addr, fiatSymbol, now).0.Ok?
    ensures var res := Resolve(providers, rates, caches, symbol, addr, fiatSymbol, now).0.value;
      var balance := FetchBalance(caches.balances, providers[Upper(symbol)], symbol, addr, now).0;
      var rate := FetchRate(caches.rates, rates, symbol, FiatOrDefault(fiatSymbol), now).0;
      && Upper(symbol) in providers && balance.Ok? && rate.Ok?
      && res.cryptoSymbol == Upper(symbol)
      && res.address == addr
      && res.fiatSymbol == Upper(FiatOrDefault(fiatSymbol))
      && res.cryptoBalance == balance.value
      && res.exchangeRate == rate.value.rate
      && res.fiatValue == balance.value * rate.value.rate
      && res.change24h == balance.value * rate.value.change24h
      && res.error == None
  {
  }

  // ---------------------------------------------------------------------------------------
  // Properties of a batch

  /**
   * A batch has one slot per request, and slot `i` is the answer to request `i` given the
   * caches as the earlier requests left them.
   */
  lemma {:induction false} BatchSlots(providers: map<string, CryptoProvider>, rates: RateService, caches: Caches,
                                      requests: seq<BalanceRequest>, now: int)
    ensures var slots := Batch(providers, rates, caches, requests, now).0;
      && |slots| == |requests|
      && forall i :: 0 <= i < |requests| ==>
           slots[i] == Slot(requests[i],
                            Resolve(providers, rates, CachesBefore(providers, rates, caches, requests, i, now),
                                    requests[i].cryptoSymbol, requests[i].address, requests[i].fiatSymbol, now).0)
    decreases |requests|
  {
    if requests != [] {
      var n := |requests| - 1;
      var prefix := requests[..n];
      BatchSlots(providers, rates, caches, prefix, now);
      var slots := Batch(providers, rates, caches, requests, now).0;
      forall i | 0 <= i < |requests|
        ensures slots[i] == Slot(requests[i],
                                 Resolve(providers, rates, CachesBefore(providers, rates, caches, requests, i, now),
                                         requests[i].cryptoSymbol, requests[i].address, requests[i].fiatSymbol, now).0)
      {
        if i < n {
          assert requests[..i] == prefix[..i];
          assert prefix[i] == requests[i];
        } else {
          assert requests[..i] == prefix;
        }
      }
    }
  }

  /**
   * Every slot echoes its request's address and upper-cased symbol. A failed slot has
   * zero numbers, an error text, and the request's fiat symbol upper-cased but not
   * defaulted; a successful slot has the defaulted fiat symbol and no error.
   */
  lemma SlotShape(providers: map<string, CryptoProvider>, rates: RateService, caches: Caches,
                  req: BalanceRequest, now: int)
    ensures var s := Slot(req, Resolve(providers, rates, caches, req.cryptoSymbol, req.address, req.fiatSymbol, now).0);
      && s.cryptoSymbol == Upper(req.cryptoSymbol)
      && s.address == req.address
      && (s.error.Some? ==>
            s.fiatSymbol == Upper(req.fiatSymbol)
            && s.cryptoBalance == 0.0 && s.fiatValue == 0.0 && s.exchangeRate == 0.0 && s.change24h == 0.0)
      && (s.error.None? ==>
            s.fiatSymbol == Upper(FiatOrDefault(req.fiatSymbol)) && s.fiatValue == s.cryptoBalance * s.exchangeRate)
  {
  }

  /** A request with an unknown symbol gets the "provider not found" slot; it does not disturb the others. */
  lemma UnknownSymbolSlot(providers: map<string, CryptoProvider>, rates: RateService, caches: Caches,
                          requests: seq<BalanceRequest>, i: nat, now: int)
    requires i < |requests| && Upper(requests[i].cryptoSymbol) !in providers
    ensures var slots := Batch(providers, rates, caches, requests, now).0;
      |slots| == |requests| &&
      slots[i] == ErrorSlot(requests[i], ProviderNotFound(requests[i].cryptoSymbol)) &&
      slots[i].error == Some("provider not found for symbol: " + requests[i].cryptoSymbol)
    ensures CachesBefore(providers, rates, caches, requests, i + 1, now)
         == CachesBefore(providers, rates, caches, requests, i, now)
  {
    BatchSlots(providers, rates, caches, requests, now);
    assert requests[..i + 1][..i] == requests[..i];
  }
}
