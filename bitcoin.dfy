/**
 * The Bitcoin provider's adapter: it memoises each xpub's Taproot address list and queries
 * an Electrum server for the list's balance with a bounded retry, reconnecting when the
 * client is shut down or a query is cancelled or times out.
 */
module Bitcoin {
  import opened Wrappers
  import opened Errors
  import opened Retry
  import opened ElectrumWallet

  const DefaultExternalCount: nat := 10
  const DefaultChangeCount: nat := 10

  /**
   * The adapter calls the derivation and the balance lookup without a network flag, while
   * the wallet functions take one; the model passes mainnet.
   */
  const IsTestnet: bool := false

  /** The error context of `makeTaprootAddress` failures in `deriveAddresses`. */
  const AddressContext: string := "make taproot address"

  /** Every list in `memo` is the one a derivation with the default counts produces for its xpub. */
  predicate Memoised(codec: Codec, isTestnet: bool, memo: map<string, seq<Address>>) {
    forall xpub :: xpub in memo ==>
      AddressList(codec, xpub, DefaultExternalCount, DefaultChangeCount, isTestnet) == Ok(memo[xpub])
  }

  class Adapter {
    var electrumClient: ElectrumClient?
    /** The memo: xpub to its external addresses followed by its change addresses. */
    var addresses: map<string, seq<Address>>
    const electrumAddress: string
    /** The Taproot address codec and the BIP32 library. */
    const codec: Codec
    /** How many connections have been installed, and how many address derivations run. */
    ghost var connections: nat
    ghost var derivations: nat

    /** A client is installed, and every memoised list is the one a derivation would produce. */
    predicate Valid()
      reads this
    {
      && electrumClient != null
      && codec.makeAddressContext == AddressContext
      && Memoised(codec, IsTestnet, addresses)
    }

    /** `NewAdapter`: an empty memo, then a first connection. */
    constructor (electrumAddress: string, codec: Codec, dials: seq<Dial>)
      requires codec.makeAddressContext == AddressContext && Connects(dials)
      ensures Valid()
      ensures addresses == map[] && this.electrumAddress == electrumAddress && this.codec == codec
      ensures connections == 1 && derivations == 0
    {
      this.electrumAddress := electrumAddress;
      this.codec := codec;
      addresses := map[];
      electrumClient := null;
      connections := 0;
      derivations := 0;
      new;
      ConnectWithRetry(dials);
    }

    /**
     * `connectWithRetry`: dials until a connection comes up and installs that fresh client.
     * The source loops forever on an unreachable server; the model is handed a schedule in
     * which some dial succeeds.
     */
    method ConnectWithRetry(dials: seq<Dial>)
      requires Connects(dials)
      modifies this
      ensures electrumClient != null && fresh(electrumClient) && electrumClient.serverAddress == electrumAddress
      ensures connections == old(connections) + 1
      ensures addresses == old(addresses) && derivations == old(derivations)
    {
      var k := 0;
      while !dials[k].Up?
        invariant 0 <= k < |dials| && exists m :: k <= m < |dials| && dials[m].Up?
        decreases |dials| - k
      {
        k := k + 1;
      }
      electrumClient := new ElectrumClient(electrumAddress);
      connections := connections + 1;
    }

    /**
     * `GetBalance`: the address list comes from the memo or, once per xpub, from a derivation
     * whose failure is returned without memoising anything; then the retry loop runs over it.
     */
    method GetBalance(xpub: string, net: ElectrumNetwork) returns (r: Result<real, Error>)
      requires Valid() && Reachable(net)
      modifies this
      ensures Valid()
      ensures derivations == old(derivations) + (if xpub in old(addresses) then 0 else 1)
      ensures var list := AddressList(codec, xpub, DefaultExternalCount, DefaultChangeCount, IsTestnet);
        && addresses == (if list.Ok? then old(addresses)[xpub := list.value] else old(addresses))
        && (list.Err? ==> r == Err(list.error) && connections == old(connections) && electrumClient == old(electrumClient))
        && (list.Ok? ==>
              var attempts := BalanceAttempts(codec, net, list.value, IsTestnet);
              r == Run(attempts, 0.0) && connections == old(connections) + ReconnectsFrom(attempts, 0))
    {
      var list := AddressesFor(xpub);
      if list.Err? {
        return Err(list.error);
      }
      r := BalanceWithRetry(list.value, net);
    }

    /** The memo half of `GetBalance`: a memoised list, or a derivation that is memoised when it succeeds. */
    method AddressesFor(xpub: string) returns (list: Result<seq<Address>, Error>)
      requires Valid()
      modifies this
      ensures Valid()
      ensures list == AddressList(codec, xpub, DefaultExternalCount, DefaultChangeCount, IsTestnet)
      ensures addresses == (if list.Ok? then old(addresses)[xpub := list.value] else old(addresses))
      ensures derivations == old(derivations) + (if xpub in old(addresses) then 0 else 1)
      ensures electrumClient == old(electrumClient) && connections == old(connections)
    {
      if xpub in addresses {
        assert addresses[xpub := addresses[xpub]] == addresses;
        return Ok(addresses[xpub]);
      }
      var wallet := DeriveWallet(codec, xpub, DefaultExternalCount, DefaultChangeCount, IsTestnet);
      derivations := derivations + 1;
      if wallet.Err? {
        return Err(wallet.error);
      }
      list := Ok(wallet.value.0 + wallet.value.1);
      assert list == AddressList(codec, xpub, DefaultExternalCount, DefaultChangeCount, IsTestnet);
      addresses := addresses[xpub := list.value];
    }

    /**
     * One pass of the retry loop, which sees `a`: a shut-down client costs a reconnect;
     * otherwise the balance is queried, a success ends the loop, and a failure becomes the
     * last error and, when it is a cancellation or a deadline, costs a reconnect.
     */
    method TryOnce(i: nat, list: seq<Address>, net: ElectrumNetwork, ghost a: Attempt<real>, lastErr: Option<Error>)
      returns (done: bool, balance: Result<real, Error>, nextErr: Option<Error>)
      requires Valid() && Reachable(net)
      requires a == if net.isShutdown(i) then Dead else Reply(XpubBalance(codec, net.server(i), list, IsTestnet))
      modifies this
      ensures Valid() && addresses == old(addresses) && derivations == old(derivations)
      ensures done <==> Succeeded(a)
      ensures done ==> balance == a.result && connections == old(connections)
      ensures nextErr == LastErrorAfter(a, lastErr)
      ensures connections == old(connections) + if !done && Reconnects(a) then 1 else 0
    {
      nextErr := lastErr;
      if net.isShutdown(i) {
        ConnectWithRetry(net.dials(i));
        return false, Ok(0.0), nextErr;
      }
      balance := GetXpubBalance(codec, net.server(i), list, IsTestnet);
      if balance.Ok? {
        return true, balance, nextErr;
      }
      nextErr := Some(balance.error);
      done := false;
      if IsContextError(balance.error) {
        ConnectWithRetry(net.dials(i));
      }
    }

    /** The retry half of `GetBalance`: at most three attempts over the address list. */
    method BalanceWithRetry(list: seq<Address>, net: ElectrumNetwork) returns (r: Result<real, Error>)
      requires Valid() && Reachable(net)
      modifies this
      ensures Valid()
      ensures addresses == old(addresses) && derivations == old(derivations)
      ensures var attempts := BalanceAttempts(codec, net, list, IsTestnet);
        r == Run(attempts, 0.0) && connections == old(connections) + ReconnectsFrom(attempts, 0)
    {
      ghost var attempts := BalanceAttempts(codec, net, list, IsTestnet);
      var lastErr: Option<Error> := None;
      for i := 0 to MaxRetryAttempts
        invariant Valid() && addresses == old(addresses) && derivations == old(derivations)
        invariant Run(attempts, 0.0) == RunFrom(attempts, i, lastErr, 0.0)
        invariant ReconnectsFrom(attempts, 0) == connections - old(connections) + ReconnectsFrom(attempts, i)
      {
        var done, balance;
        done, balance, lastErr := TryOnce(i, list, net, attempts(i), lastErr);
        if done {
          return balance;
        }
      }
      return Exhausted(lastErr, 0.0);
    }
  }
}
