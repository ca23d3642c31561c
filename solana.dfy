/**
 * The Solana provider's adapter: it decodes the base58 public key, then asks an RPC node for
 * the finalized balance with a bounded retry. `getClient` hands out nothing while the
 * adapter is not connected, which the retry loop treats as a dead handle.
 */
module Solana {
  import opened Wrappers
  import opened Errors
  import opened Retry

  const LamportsPerSol: real := 1_000_000_000.0

  /** A decoded Solana public key. */
  datatype PublicKey = PublicKey(bytes: seq<bv8>)

  /** An `rpc.Client` for `rpcURL`. */
  class RpcClient {
    const rpcURL: string

    constructor (rpcURL: string)
      ensures this.rpcURL == rpcURL
    {
      this.rpcURL := rpcURL;
    }
  }

  /**
   * What the node does during one `GetBalance` call, by attempt number: its finalized
   * `GetBalance` answer in lamports for the key, and how the clients (with their
   * `GetVersion` probe) of a reconnect after that attempt turn out.
   */
  datatype RpcNetwork = RpcNetwork(
    getBalance: (nat, PublicKey) -> Result<nat, Error>,
    dials: nat -> seq<Dial>)

  ghost predicate Reachable(net: RpcNetwork) {
    forall i: nat :: Connects(net.dials(i))
  }

  /** The lamport-to-SOL conversion of a successful answer. */
  function InSol(r: Result<nat, Error>): (e: Result<real, Error>)
    ensures r.Ok? <==> e.Ok?
    ensures r.Err? ==> e == Err(r.error)
  {
    match r
    case Ok(lamports) => Ok(lamports as real / LamportsPerSol)
    case Err(err) => Err(err)
  }

  /** A balance in SOL, scaled back by 10^9, is exactly the lamport balance. */
  lemma InSolExact(r: Result<nat, Error>)
    requires r.Ok?
    ensures InSol(r).value * LamportsPerSol == r.value as real
  {
  }

  /**
   * What retry attempt `i` sees: only the first can find the adapter disconnected, since
   * every reconnect leaves it connected; all others query the node.
   */
  function BalanceAttempts(connectedAtStart: bool, net: RpcNetwork, key: PublicKey): nat -> Attempt<real> {
    (i: nat) => if i == 0 && !connectedAtStart then Dead else Reply(InSol(net.getBalance(i, key)))
  }

  /**
   * A disconnected adapter spends its first attempt on reconnecting: the node is queried at
   * most twice, and the reconnect is counted on top of those the queries cause.
   */
  lemma DisconnectedBurnsFirstAttempt(net: RpcNetwork, key: PublicKey)
    ensures var attempts := BalanceAttempts(false, net, key);
      && Run(attempts, 0.0) == RunFrom(attempts, 1, None, 0.0)
      && ReconnectsFrom(attempts, 0) == 1 + ReconnectsFrom(attempts, 1)
  {
    var attempts := BalanceAttempts(false, net, key);
    assert attempts(0) == Dead;
  }

  /** A connected adapter whose queries fail only with errors other than cancellations and deadlines never reconnects. */
  lemma ConnectedPlainFailuresKeepConnection(net: RpcNetwork, key: PublicKey)
    requires forall i: nat :: i < MaxRetryAttempts && net.getBalance(i, key).Err? ==> !IsContextError(net.getBalance(i, key).error)
    ensures ReconnectsFrom(BalanceAttempts(true, net, key), 0) == 0
  {
    var attempts := BalanceAttempts(true, net, key);
    assert forall j: nat :: attempts(j) == Reply(InSol(net.getBalance(j, key)));
    PlainErrorsNeverReconnect(attempts, 0);
  }

  class Adapter {
    var client: RpcClient?
    var connected: bool
    const rpcURL: string
    /** `solana.PublicKeyFromBase58`: base58 decoding of a 32-byte key. */
    const publicKeyFromBase58: string -> Result<PublicKey, Error>
    /** How many connections have been installed. */
    ghost var connections: nat

    /** A connected adapter holds a client. */
    predicate Valid()
      reads this
    {
      connected ==> client != null
    }

    /** `NewAdapter`: connects before returning. */
    constructor (rpcURL: string, publicKeyFromBase58: string -> Result<PublicKey, Error>, dials: seq<Dial>)
      requires Connects(dials)
      ensures Valid() && connected && client != null && this.rpcURL == rpcURL && connections == 1
      ensures this.publicKeyFromBase58 == publicKeyFromBase58
    {
      this.rpcURL := rpcURL;
      this.publicKeyFromBase58 := publicKeyFromBase58;
      client := null;
      connected := false;
      connections := 0;
      new;
      ConnectWithRetry(dials);
    }

    /**
     * `connectWithRetry`: every client whose probe fails marks the adapter disconnected; the
     * first that answers is installed and marks it connected. The source loops forever on an
     * unreachable node; the model is handed a schedule in which some dial succeeds.
     */
    method ConnectWithRetry(dials: seq<Dial>)
      requires Connects(dials)
      modifies this
      ensures Valid() && connected && client != null && fresh(client) && client.rpcURL == rpcURL
      ensures connections == old(connections) + 1
    {
      var k := 0;
      while !dials[k].Up?
        invariant 0 <= k < |dials| && exists m :: k <= m < |dials| && dials[m].Up?
        invariant connections == old(connections)
        decreases |dials| - k
      {
        connected := false;
        k := k + 1;
      }
      client := new RpcClient(rpcURL);
      connected := true;
      connections := connections + 1;
    }

    /** `getClient`: the client while connected, nothing otherwise. */
    method GetClient() returns (c: RpcClient?)
      requires Valid()
      ensures c == null <==> !connected
      ensures c != null ==> c == client
    {
      if !connected {
        return null;
      }
      return client;
    }

    /** `Close`: drops the client and the connection, whatever the state. */
    method Close()
      modifies this
      ensures client == null && !connected && Valid()
      ensures connections == old(connections)
    {
      client := null;
      connected := false;
    }

    /**
     * One pass of `GetBalance`'s retry loop, which sees `a`: a missing client costs a
     * reconnect; otherwise the node is queried, a success ends the loop, and a failure
     * becomes the last error and, when it is a cancellation or a deadline, costs a reconnect.
     */
    method TryOnce(i: nat, key: PublicKey, net: RpcNetwork, ghost a: Attempt<real>, lastErr: Option<Error>)
      returns (done: bool, balance: Result<real, Error>, nextErr: Option<Error>)
      requires Valid() && Reachable(net)
      requires a == if connected then Reply(InSol(net.getBalance(i, key))) else Dead
      modifies this
      ensures Valid() && connected
      ensures done <==> Succeeded(a)
      ensures done ==> balance == a.result && connections == old(connections)
      ensures nextErr == LastErrorAfter(a, lastErr)
      ensures connections == old(connections) + if !done && Reconnects(a) then 1 else 0
    {
      nextErr := lastErr;
      var c := GetClient();
      if c == null {
        ConnectWithRetry(net.dials(i));
        return false, Ok(0.0), nextErr;
      }
      balance := InSol(net.getBalance(i, key));
      if balance.Ok? {
        return true, balance, nextErr;
      }
      nextErr := Some(balance.error);
      done := false;
      if IsContextError(balance.error) {
        ConnectWithRetry(net.dials(i));
      }
    }

    /**
     * `GetBalance`: an address that does not decode as a base58 public key is rejected at
     * once; otherwise at most three attempts are made, and the adapter is connected afterwards.
     */
    method GetBalance(address: string, net: RpcNetwork) returns (r: Result<real, Error>)
      requires Valid() && Reachable(net)
      modifies this
      ensures Valid()
      ensures publicKeyFromBase58(address).Err? ==>
        r == Err(InvalidSolanaAddress) && client == old(client) && connected == old(connected) && connections == old(connections)
      ensures publicKeyFromBase58(address).Ok? ==>
        var attempts := BalanceAttempts(old(connected), net, publicKeyFromBase58(address).value);
        && r == Run(attempts, 0.0)
        && connections == old(connections) + ReconnectsFrom(attempts, 0)
        && connected
    {
      var key := publicKeyFromBase58(address);
      if key.Err? {
        return Err(InvalidSolanaAddress);
      }
      r := QueryWithRetry(key.value, net);
    }

    /** The retry loop of `GetBalance` for a decoded key. */
    method QueryWithRetry(key: PublicKey, net: RpcNetwork) returns (r: Result<real, Error>)
      requires Valid() && Reachable(net)
      modifies this
      ensures Valid() && connected
      ensures var attempts := BalanceAttempts(old(connected), net, key);
        && r == Run(attempts, 0.0)
        && connections == old(connections) + ReconnectsFrom(attempts, 0)
    {
      ghost var attempts := BalanceAttempts(connected, net, key);
      var lastErr: Option<Error> := None;
      for i := 0 to MaxRetryAttempts
        invariant Valid()
        invariant i > 0 ==> connected
        invariant i == 0 ==> connected == old(connected) && connections == old(connections)
        invariant Run(attempts, 0.0) == RunFrom(attempts, i, lastErr, 0.0)
        invariant ReconnectsFrom(attempts, 0) == connections - old(connections) + ReconnectsFrom(attempts, i)
      {
        var done, balance;
        done, balance, lastErr := TryOnce(i, key, net, attempts(i), lastErr);
        if done {
          return balance;
        }
      }
      return Exhausted(lastErr, 0.0);
    }
  }
}
