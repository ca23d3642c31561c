/**
 * The Ethereum provider's adapter: it validates the address, then asks a JSON-RPC node for
 * the balance with a bounded retry. `getClient` hands out nothing while the adapter is not
 * connected, which the retry loop treats as a dead handle.
 */
module Ethereum {
  import opened Wrappers
  import opened Errors
  import opened Retry

  const WeiPerEther: real := 1_000_000_000_000_000_000.0

  /** Bytes in an Ethereum address (`common.AddressLength`). */
  const AddressLength: nat := 20

  predicate Has0xPrefix(s: string) {
    |s| >= 2 && s[0] == '0' && (s[1] == 'x' || s[1] == 'X')
  }

  predicate IsHexChar(c: char) {
    ('0' <= c <= '9') || ('a' <= c <= 'f') || ('A' <= c <= 'F')
  }

  /** `common.IsHexAddress`: 40 hex digits, optionally after a `0x` or `0X` prefix. */
  function IsHexAddress(s: string): (valid: bool)
    ensures valid ==> |s| == 40 || (|s| == 42 && Has0xPrefix(s))
    ensures valid ==> forall k :: (if Has0xPrefix(s) then 2 else 0) <= k < |s| ==> IsHexChar(s[k])
  {
    var body := if Has0xPrefix(s) then s[2..] else s;
    |body| == 2 * AddressLength && |body| % 2 == 0 && forall k :: 0 <= k < |body| ==> IsHexChar(body[k])
  }

  /** A valid address is 40 or 42 characters long. */
  lemma HexAddressLength(s: string)
    requires IsHexAddress(s)
    ensures |s| == 40 || (|s| == 42 && Has0xPrefix(s))
  {
  }

  /** The prefix is optional, and either case of `x` is accepted. */
  lemma PrefixOptional(digits: string)
    requires |digits| == 40 && forall k :: 0 <= k < 40 ==> IsHexChar(digits[k])
    ensures IsHexAddress(digits) && IsHexAddress("0x" + digits) && IsHexAddress("0X" + digits)
    ensures !IsHexAddress("0x" + digits[1..])
  {
    assert ("0x" + digits)[2..] == digits && ("0X" + digits)[2..] == digits;
    assert ("0x" + digits[1..])[2..] == digits[1..];
  }

  /** An `ethclient.Client` dialled to `rpcURL`. */
  class RpcClient {
    const rpcURL: string

    constructor (rpcURL: string)
      ensures this.rpcURL == rpcURL
    {
      this.rpcURL := rpcURL;
    }
  }

  /**
   * What the node does during one `GetBalance` call, by attempt number: its `BalanceAt`
   * answer in wei for the address, and how the dials (with their `NetworkID` probe) of a
   * reconnect after that attempt turn out.
   */
  datatype RpcNetwork = RpcNetwork(
    balanceAt: (nat, string) -> Result<nat, Error>,
    dials: nat -> seq<Dial>)

  ghost predicate Reachable(net: RpcNetwork) {
    forall i: nat :: Connects(net.dials(i))
  }

  /** The wei-to-ether conversion of a successful answer. */
  function InEther(r: Result<nat, Error>): (e: Result<real, Error>)
    ensures r.Ok? <==> e.Ok?
    ensures r.Err? ==> e == Err(r.error)
  {
    match r
    case Ok(wei) => Ok(wei as real / WeiPerEther)
    case Err(err) => Err(err)
  }

  /** A balance in ether, scaled back by 10^18, is exactly the wei balance. */
  lemma InEtherExact(r: Result<nat, Error>)
    requires r.Ok?
    ensures InEther(r).value * WeiPerEther == r.value as real
  {
  }

  /**
   * What retry attempt `i` sees: only the first can find the adapter disconnected, since
   * every reconnect leaves it connected; all others query the node.
   */
  function BalanceAttempts(connectedAtStart: bool, net: RpcNetwork, address: string): nat -> Attempt<real> {
    (i: nat) => if i == 0 && !connectedAtStart then Dead else Reply(InEther(net.balanceAt(i, address)))
  }

  /**
   * A disconnected adapter spends its first attempt on reconnecting: the node is queried at
   * most twice, and the reconnect is counted on top of those the queries cause.
   */
  lemma DisconnectedBurnsFirstAttempt(net: RpcNetwork, address: string)
    ensures var attempts := BalanceAttempts(false, net, address);
      && Run(attempts, 0.0) == RunFrom(attempts, 1, None, 0.0)
      && ReconnectsFrom(attempts, 0) == 1 + ReconnectsFrom(attempts, 1)
  {
    var attempts := BalanceAttempts(false, net, address);
    assert attempts(0) == Dead;
  }

  /** A connected adapter whose queries fail only with errors other than cancellations and deadlines never reconnects. */
  lemma ConnectedPlainFailuresKeepConnection(net: RpcNetwork, address: string)
    requires forall i: nat :: i < MaxRetryAttempts && net.balanceAt(i, address).Err? ==> !IsContextError(net.balanceAt(i, address).error)
    ensures ReconnectsFrom(BalanceAttempts(true, net, address), 0) == 0
  {
    var attempts := BalanceAttempts(true, net, address);
    assert forall j: nat :: attempts(j) == Reply(InEther(net.balanceAt(j, address)));
    PlainErrorsNeverReconnect(attempts, 0);
  }

  class Adapter {
    var client: RpcClient?
    var connected: bool
    const rpcURL: string
    /** How many connections have been installed. */
    ghost var connections: nat

    /** A connected adapter holds a client. */
    predicate Valid()
      reads this
    {
      connected ==> client != null
    }

    /** `NewAdapter`: connects before returning. */
    constructor (rpcURL: string, dials: seq<Dial>)
      requires Connects(dials)
      ensures Valid() && connected && client != null && this.rpcURL == rpcURL && connections == 1
    {
      this.rpcURL := rpcURL;
      client := null;
      connected := false;
      connections := 0;
      new;
      ConnectWithRetry(dials);
    }

    /**
     * `connectWithRetry`: every refused dial or failed probe marks the adapter disconnected;
     * the first that comes up is installed and marks it connected. The source loops forever
     * on an unreachable node; the model is handed a schedule in which some dial succeeds.
     */
    method ConnectWithRetry(dials: seq<Dial>)
      requires Connects(dials)
      modifies this
      ensures Valid() && connected && client != null && fresh(client) && client.rpcURL == rpcURL
      ensures connections == old(connections) + 1
    {
      var k := 0;
      while !dials[k].Up?
        invariant 0 <= k < |dials| && exists m :: k <= m < |dials| && dials[m].Up?
        invariant connections == old(connections)
        decreases |dials| - k
      {
        connected := false;
        k := k + 1;
      }
      client := new RpcClient(rpcURL);
      connected := true;
      connections := connections + 1;
    }

    /** `getClient`: the client while connected, nothing otherwise. */
    method GetClient() returns (c: RpcClient?)
      requires Valid()
      ensures c == null <==> !connected
      ensures c != null ==> c == client
    {
      if !connected {
        return null;
      }
      return client;
    }

    /** `Close`: drops the client and the connection, if there is a client. */
    method Close()
      modifies this
      ensures old(client) != null ==> client == null && !connected
      ensures old(client) == null ==> client == null && connected == old(connected)
      ensures connections == old(connections)
      ensures old(Valid()) ==> Valid()
    {
      if client != null {
        client := null;
        connected := false;
      }
    }

    /**
     * One pass of `GetBalance`'s retry loop, which sees `a`: a missing client costs a
     * reconnect; otherwise the node is queried, a success ends the loop, and a failure
     * becomes the last error and, when it is a cancellation or a deadline, costs a reconnect.
     */
    method TryOnce(i: nat, address: string, net: RpcNetwork, ghost a: Attempt<real>, lastErr: Option<Error>)
      returns (done: bool, balance: Result<real, Error>, nextErr: Option<Error>)
      requires Valid() && Reachable(net)
      requires a == if connected then Reply(InEther(net.balanceAt(i, address))) else Dead
      modifies this
      ensures Valid() && connected
      ensures done <==> Succeeded(a)
      ensures done ==> balance == a.result && connections == old(connections)
      ensures nextErr == LastErrorAfter(a, lastErr)
      ensures connections == old(connections) + if !done && Reconnects(a) then 1 else 0
    {
      nextErr := lastErr;
      var c := GetClient();
      if c == null {
        ConnectWithRetry(net.dials(i));
        return false, Ok(0.0), nextErr;
      }
      balance := InEther(net.balanceAt(i, address));
      if balance.Ok? {
        return true, balance, nextErr;
      }
      nextErr := Some(balance.error);
      done := false;
      if IsContextError(balance.error) {
        ConnectWithRetry(net.dials(i));
      }
    }

    /**
     * `GetBalance`: an address that is not a hex address is rejected at once; otherwise at
     * most three attempts are made, and the adapter is connected afterwards.
     */
    method GetBalance(address: string, net: RpcNetwork) returns (r: Result<real, Error>)
      requires Valid() && Reachable(net)
      modifies this
      ensures Valid()
      ensures !IsHexAddress(address) ==>
        r == Err(InvalidEthereumAddress) && client == old(client) && connected == old(connected) && connections == old(connections)
      ensures IsHexAddress(address) ==>
        var attempts := BalanceAttempts(old(connected), net, address);
        && r == Run(attempts, 0.0)
        && connections == old(connections) + ReconnectsFrom(attempts, 0)
        && connected
    {
      if !IsHexAddress(address) {
        return Err(InvalidEthereumAddress);
      }
      r := QueryWithRetry(address, net);
    }

    /** The retry loop of `GetBalance` for a valid address. */
    method QueryWithRetry(address: string, net: RpcNetwork) returns (r: Result<real, Error>)
      requires Valid() && Reachable(net)
      modifies this
      ensures Valid() && connected
      ensures var attempts := BalanceAttempts(old(connected), net, address);
        && r == Run(attempts, 0.0)
        && connections == old(connections) + ReconnectsFrom(attempts, 0)
    {
      ghost var attempts := BalanceAttempts(connected, net, address);
      var lastErr: Option<Error> := None;
      for i := 0 to MaxRetryAttempts
        invariant Valid()
        invariant i > 0 ==> connected
        invariant i == 0 ==> connected == old(connected) && connections == old(connections)
        invariant Run(attempts, 0.0) == RunFrom(attempts, i, lastErr, 0.0)
        invariant ReconnectsFrom(attempts, 0) == connections - old(connections) + ReconnectsFrom(attempts, i)
      {
        var done, balance;
        done, balance, lastErr := TryOnce(i, address, net, attempts(i), lastErr);
        if done {
          return balance;
        }
      }
      return Exhausted(lastErr, 0.0);
    }
  }
}
