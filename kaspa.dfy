/**
 * The Kaspa provider's adapter: it memoises each kpub's receive-then-change address list,
 * posts the whole list to a block explorer's balances endpoint in one request, and adds up
 * the per-address balances in KAS.
 */
module Kaspa {
  import opened Wrappers
  import opened Errors
  import opened Hd
  import opened KaspaWallet

  const SompiPerKas: real := 100_000_000.0

  /** How many receive and how many change addresses are derived per kpub. */
  const DeriveCount: nat := 1000

  const BalancesPath: string := "/addresses/balances"
  const HttpStatusOk: nat := 200

  /** One entry of the explorer's answer. */
  datatype BalanceEntry = BalanceEntry(address: string, balance: real)

  /** The JSON object posted to the explorer. */
  type Payload = map<string, seq<string>>

  /** `encoding/json` for the two shapes exchanged with the explorer. */
  datatype JsonCodec = JsonCodec(
    marshal: Payload -> Result<string, Error>,
    unmarshal: string -> Result<seq<BalanceEntry>, Error>)

  /** An HTTP response: status, the body `io.ReadAll` returned, and the error it reported. */
  datatype Response = Response(statusCode: nat, body: string, readError: Option<Error>)

  /** `net/http` as the adapter uses it: building the POST request for a URL, and sending it. */
  datatype Http = Http(
    newRequest: string -> Option<Error>,
    send: (string, string) -> Result<Response, Error>)

  /** `postJSON`: the response body of a 200 answer; any other status is `ErrUnexpectedStatus` with the code and body. */
  function PostJson(http: Http, url: string, data: string): (r: Result<string, Error>)
    ensures http.newRequest(url).None? && http.send(url, data).Ok? && http.send(url, data).value.statusCode != HttpStatusOk ==>
      r == Err(UnexpectedStatus(http.send(url, data).value.statusCode, http.send(url, data).value.body))
    ensures r.Ok? <==>
      http.newRequest(url).None? && http.send(url, data).Ok?
      && http.send(url, data).value.statusCode == HttpStatusOk && http.send(url, data).value.readError.None?
    ensures r.Ok? ==> r.value == http.send(url, data).value.body
  {
    match http.newRequest(url)
    case Some(e) => Err(Wrapped("failed to create request", e))
    case None =>
      match http.send(url, data)
      case Err(e) => Err(Wrapped("request failed", e))
      case Ok(resp) =>
        if resp.statusCode != HttpStatusOk then Err(UnexpectedStatus(resp.statusCode, resp.body))
        else if resp.readError.Some? then Err(Wrapped("could not read response body", resp.readError.value))
        else Ok(resp.body)
  }

  method PostJsonRequest(http: Http, url: string, data: string) returns (r: Result<string, Error>)
    ensures r == PostJson(http, url, data)
  {
    var failure := http.newRequest(url);
    if failure.Some? {
      return Err(Wrapped("failed to create request", failure.value));
    }
    var resp := http.send(url, data);
    if resp.Err? {
      return Err(Wrapped("request failed", resp.error));
    }
    if resp.value.statusCode != HttpStatusOk {
      return Err(UnexpectedStatus(resp.value.statusCode, resp.value.body));
    }
    if resp.value.readError.Some? {
      return Err(Wrapped("could not read response body", resp.value.readError.value));
    }
    return Ok(resp.value.body);
  }

  /** The request body: one key, `addresses`, holding the full list in order. */
  function RequestPayload(addresses: seq<string>): (p: Payload)
    ensures p.Keys == {"addresses"} && p["addresses"] == addresses
  {
    map["addresses" := addresses]
  }

  /**
   * `fetchBalances`: marshal, post to the balances endpoint, unmarshal. A success means the
   * list was marshalled and the explorer answered it with status 200.
   */
  function FetchBalances(json: JsonCodec, http: Http, explorerURL: string, addresses: seq<string>)
    : (r: Result<seq<BalanceEntry>, Error>)
    ensures json.marshal(RequestPayload(addresses)).Err? ==>
      r == Err(Wrapped("failed to marshal payload", json.marshal(RequestPayload(addresses)).error))
    ensures r.Ok? ==>
      && json.marshal(RequestPayload(addresses)).Ok?
      && http.send(explorerURL + BalancesPath, json.marshal(RequestPayload(addresses)).value).Ok?
      && http.send(explorerURL + BalancesPath, json.marshal(RequestPayload(addresses)).value).value.statusCode == HttpStatusOk
  {
    match json.marshal(RequestPayload(addresses))
    case Err(e) => Err(Wrapped("failed to marshal payload", e))
    case Ok(data) =>
      match PostJson(http, explorerURL + BalancesPath, data)
      case Err(e) => Err(e)
      case Ok(body) =>
        match json.unmarshal(body)
        case Err(e) => Err(Wrapped("failed to unmarshal response", e))
        case Ok(entries) => Ok(entries)
  }

  /** The explorer is asked once, at `<explorerURL>/addresses/balances`, about exactly the given list; its failures pass through unwrapped. */
  lemma FetchAsksForTheList(json: JsonCodec, http: Http, explorerURL: string, addresses: seq<string>)
    requires json.marshal(RequestPayload(addresses)).Ok?
    ensures var data := json.marshal(RequestPayload(addresses)).value;
      var posted := PostJson(http, explorerURL + "/addresses/balances", data);
      && (posted.Err? ==> FetchBalances(json, http, explorerURL, addresses) == Err(posted.error))
      && (posted.Ok? && json.unmarshal(posted.value).Ok? ==>
            FetchBalances(json, http, explorerURL, addresses) == json.unmarshal(posted.value))
  {
  }

  /** KAS over the entries, accumulated one entry at a time as the source does; never negative for non-negative balances. */
  function TotalKas(entries: seq<BalanceEntry>): (total: real)
    ensures (forall k :: 0 <= k < |entries| ==> entries[k].balance >= 0.0) ==> total >= 0.0
  {
    if entries == [] then 0.0
    else TotalKas(entries[..|entries| - 1]) + entries[|entries| - 1].balance / SompiPerKas
  }

  /** Sompi over the entries. */
  function TotalSompi(entries: seq<BalanceEntry>): real {
    if entries == [] then 0.0 else entries[0].balance + TotalSompi(entries[1..])
  }

  /** Dividing each balance by 10^8 and adding is dividing the sompi total by 10^8. */
  lemma {:induction false} TotalKasIsScaledSompi(entries: seq<BalanceEntry>)
    ensures TotalKas(entries) * SompiPerKas == TotalSompi(entries)
    decreases |entries|
  {
    if entries != [] {
      var init := entries[..|entries| - 1];
      var last := entries[|entries| - 1];
      TotalKasIsScaledSompi(init);
      SompiSnoc(init, last);
      assert entries == init + [last];
    }
  }

  lemma {:induction false} SompiSnoc(init: seq<BalanceEntry>, last: BalanceEntry)
    ensures TotalSompi(init + [last]) == TotalSompi(init) + last.balance
    decreases |init|
  {
    if init == [] {
      assert init + [last] == [last];
    } else {
      assert (init + [last])[1..] == init[1..] + [last];
      SompiSnoc(init[1..], last);
    }
  }

  /** The summing loop of `GetBalance`. */
  method SumBalances(entries: seq<BalanceEntry>) returns (bal: real)
    ensures bal == TotalKas(entries)
  {
    bal := 0.0;
    for k := 0 to |entries|
      invariant bal == TotalKas(entries[..k])
    {
      assert entries[..k + 1][..k] == entries[..k];
      bal := bal + entries[k].balance / SompiPerKas;
    }
    assert entries[..|entries|] == entries;
  }

  /** The list `GetBalance` queries for `kpub`: receive addresses then change addresses. */
  function AddressList(kc: Keychain, encode: AddressEncoder, kpub: string): (r: Result<seq<string>, Error>)
    ensures var w := WalletAddresses(kc, encode, kpub, DeriveCount, DeriveCount);
      && (r.Ok? <==> w.Ok?)
      && (w.Err? ==> r == Err(w.error))
      && (w.Ok? ==> r.value == w.value.0 + w.value.1)
  {
    match WalletAddresses(kc, encode, kpub, DeriveCount, DeriveCount)
    case Err(e) => Err(e)
    case Ok(w) => Ok(w.0 + w.1)
  }

  /** A memoised list holds at most 1000 receive addresses followed by at most 1000 change addresses. */
  lemma AddressListBound(kc: Keychain, encode: AddressEncoder, kpub: string)
    requires AddressList(kc, encode, kpub).Ok?
    ensures |AddressList(kc, encode, kpub).value| <= 2 * DeriveCount
  {
    var key := kc.parse(kpub).value;
    SuccessesSpec(AddressStep(kc, encode, kc.derive(key, 0).value), DeriveCount);
    SuccessesSpec(AddressStep(kc, encode, kc.derive(key, 1).value), DeriveCount);
  }

  /** The derivation half of `GetBalance`'s memo miss: receive then change addresses, or the derivation's error. */
  method DeriveList(kc: Keychain, encode: AddressEncoder, kpub: string) returns (list: Result<seq<string>, Error>)
    ensures list == AddressList(kc, encode, kpub)
  {
    var derived := DeriveAddresses(kc, encode, kpub, DeriveCount, DeriveCount);
    if derived.Err? {
      return Err(derived.error);
    }
    return Ok(derived.value.0 + derived.value.1);
  }

  /** Memoising a list a derivation produced keeps every memoised list equal to its derivation. */
  lemma MemoStaysCoherent(kc: Keychain, encode: AddressEncoder, memo: map<string, seq<string>>,
                          kpub: string, list: seq<string>)
    requires forall k :: k in memo ==> AddressList(kc, encode, k) == Ok(memo[k])
    requires AddressList(kc, encode, kpub) == Ok(list)
    ensures forall k :: k in memo[kpub := list] ==> AddressList(kc, encode, k) == Ok(memo[kpub := list][k])
  {
  }

  class Adapter {
    const explorerURL: string
    /** The memo: kpub to its address list. */
    var cache: map<string, seq<string>>
    const keychain: Keychain
    const encode: AddressEncoder
    const json: JsonCodec
    /** How many derivations have run. */
    ghost var derivations: nat

    /** Every memoised list is the one a derivation would produce. */
    predicate Valid()
      reads this
    {
      forall kpub :: kpub in cache ==> AddressList(keychain, encode, kpub) == Ok(cache[kpub])
    }

    /** `NewAdapter`: an empty memo. */
    constructor (explorerURL: string, keychain: Keychain, encode: AddressEncoder, json: JsonCodec)
      ensures Valid() && cache == map[] && derivations == 0
      ensures this.explorerURL == explorerURL && this.keychain == keychain && this.encode == encode && this.json == json
    {
      this.explorerURL := explorerURL;
      this.keychain := keychain;
      this.encode := encode;
      this.json := json;
      cache := map[];
      derivations := 0;
    }

    /** `fetchBalances`. */
    method FetchBalancesFor(http: Http, addresses: seq<string>) returns (r: Result<seq<BalanceEntry>, Error>)
      ensures r == FetchBalances(json, http, explorerURL, addresses)
    {
      var data := json.marshal(RequestPayload(addresses));
      if data.Err? {
        return Err(Wrapped("failed to marshal payload", data.error));
      }
      var body := PostJsonRequest(http, explorerURL + BalancesPath, data.value);
      if body.Err? {
        return Err(body.error);
      }
      var entries := json.unmarshal(body.value);
      if entries.Err? {
        return Err(Wrapped("failed to unmarshal response", entries.error));
      }
      return Ok(entries.value);
    }

    /**
     * `GetBalance`: the list comes from the memo or, once per kpub, from a derivation whose
     * failure is returned without memoising anything. A new list is memoised before the
     * explorer is asked, so it stays memoised when the request fails.
     */
    method GetBalance(kpub: string, http: Http) returns (r: Result<real, Error>)
      requires Valid()
      modifies this
      ensures Valid()
      ensures derivations == old(derivations) + (if kpub in old(cache) then 0 else 1)
      ensures var list := AddressList(keychain, encode, kpub);
        && cache == (if list.Ok? then old(cache)[kpub := list.value] else old(cache))
        && (list.Err? ==> r == Err(list.error))
        && (list.Ok? ==>
              var fetched := FetchBalances(json, http, explorerURL, list.value);
              r == if fetched.Ok? then Ok(TotalKas(fetched.value)) else Err(fetched.error))
    {
      var addresses := AddressesFor(kpub);
      if addresses.Err? {
        return Err(addresses.error);
      }
      var res := FetchBalancesFor(http, addresses.value);
      if res.Err? {
        return Err(res.error);
      }
      var bal := SumBalances(res.value);
      return Ok(bal);
    }

    /** The memo half of `GetBalance`: a memoised list, or a derivation that is memoised when it succeeds. */
    method AddressesFor(kpub: string) returns (list: Result<seq<string>, Error>)
      requires Valid()
      modifies this
      ensures Valid()
      ensures list == AddressList(keychain, encode, kpub)
      ensures cache == (if list.Ok? then old(cache)[kpub := list.value] else old(cache))
      ensures derivations == old(derivations) + (if kpub in old(cache) then 0 else 1)
    {
      if kpub in cache {
        assert cache[kpub := cache[kpub]] == cache;
        return Ok(cache[kpub]);
      }
      list := DeriveList(keychain, encode, kpub);
      derivations := derivations + 1;
      if list.Ok? {
        MemoStaysCoherent(keychain, encode, cache, kpub, list.value);
        cache := cache[kpub := list.value];
      }
    }
  }
}
