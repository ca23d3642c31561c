/**
 * The wallet logic shared, line for line, by the Bitcoin (Taproot) and Litecoin (P2WPKH)
 * providers: choosing the chain roots from an extended key, deriving a run of addresses,
 * turning an address into an Electrum scripthash, and summing satoshis over addresses.
 * The two files differ only in the address encoder and its error context, which a `Codec`
 * carries; the cryptography and the encodings stay uninterpreted.
 */
module ElectrumWallet {
  import opened Wrappers
  import opened Errors
  import opened Text
  import opened Hd
  import Retry

  const SatoshiPerCoin: real := 100_000_000.0
  const AccountDepth: nat := 3
  const ExternalChain: Uint32 := 0
  const ChangeChain: Uint32 := 1

  /** A SHA-256 digest, as `sha256.Sum256` returns it. */
  type Digest = s: Bytes | |s| == 32 witness seq(32, _ => 0)

  /** A decoded address (`btcutil.Address`); `encoded` is what `EncodeAddress()` returns. */
  datatype Address = Address(encoded: string)

  datatype Codec = Codec(
    keychain: Keychain,
    makeAddress: (PublicKey, bool) -> Result<Address, Error>,  // makeTaprootAddress / makeLitecoinAddress
    makeAddressContext: string,                                // "make taproot address" / "make litecoin address"
    decodeAddress: (string, bool) -> Result<Address, Error>,   // btcutil.DecodeAddress with the network's params
    payToAddrScript: Address -> Result<Bytes, Error>,          // txscript.PayToAddrScript
    sha256: Bytes -> Digest)                                   // sha256.Sum256

  /** `GetBalance` of an Electrum server: confirmed and unconfirmed satoshis of a scripthash. */
  datatype ElectrumBalance = ElectrumBalance(confirmed: int, unconfirmed: int)

  datatype ElectrumServer = ElectrumServer(getBalance: string -> Result<ElectrumBalance, Error>)

  // ---------------------------------------------------------------------------------------
  // Scripthash

  /** `s` back to front. */
  function Reversed(s: Bytes): (r: Bytes)
    ensures |r| == |s|
    ensures forall k :: 0 <= k < |s| ==> r[k] == s[|s| - 1 - k]
  {
    seq(|s|, k requires 0 <= k < |s| => s[|s| - 1 - k])
  }

  /** Reversing is its own inverse, so no digest information is lost. */
  lemma ReversedInvolution(s: Bytes)
    ensures Reversed(Reversed(s)) == s
  {
    forall k | 0 <= k < |s|
      ensures Reversed(Reversed(s))[k] == s[k]
    {
      assert Reversed(s)[|s| - 1 - k] == s[k];
    }
  }

  /** The two-index swap loop of `addressToScripthash`, on the digest's byte array. */
  method ReverseInPlace(h: array<bv8>)
    modifies h
    ensures h[..] == Reversed(old(h[..]))
  {
    ghost var original := h[..];
    var n := h.Length;
    if n == 0 {
      return;
    }
    var i, j := 0, n - 1;
    while i < j
      invariant 0 <= i <= j + 1 <= n && j == n - 1 - i
      invariant forall k :: 0 <= k < i ==> h[k] == original[n - 1 - k]
      invariant forall k :: j < k < n ==> h[k] == original[n - 1 - k]
      invariant forall k :: i <= k <= j ==> h[k] == original[k]
      decreases j - i
    {
      var tmp := h[i];
      h[i] := h[j];
      h[j] := tmp;
      i, j := i + 1, j - 1;
    }
  }

  /** `addressToScripthash`: decode, build the output script, hash, reverse, hex-encode. */
  function Scripthash(codec: Codec, addr: string, isTestnet: bool): (r: Result<string, Error>)
    ensures codec.decodeAddress(addr, isTestnet).Err? ==>
      r == Err(Wrapped("failed to decode address", codec.decodeAddress(addr, isTestnet).error))
    ensures codec.decodeAddress(addr, isTestnet).Ok? && codec.payToAddrScript(codec.decodeAddress(addr, isTestnet).value).Err? ==>
      r == Err(Wrapped("failed to create script", codec.payToAddrScript(codec.decodeAddress(addr, isTestnet).value).error))
  {
    match codec.decodeAddress(addr, isTestnet)
    case Err(e) => Err(Wrapped("failed to decode address", e))
    case Ok(a) =>
      match codec.payToAddrScript(a)
      case Err(e) => Err(Wrapped("failed to create script", e))
      case Ok(script) => Ok(HexEncode(Reversed(codec.sha256(script))))
  }

  /**
   * A scripthash is 64 hex digits: the digest of the output script read from its last byte
   * to its first, two digits per byte.
   */
  lemma ScripthashIsReversedDigest(codec: Codec, addr: string, isTestnet: bool, script: Bytes)
    requires codec.decodeAddress(addr, isTestnet).Ok?
    requires codec.payToAddrScript(codec.decodeAddress(addr, isTestnet).value) == Ok(script)
    ensures var r := Scripthash(codec, addr, isTestnet);
      && r.Ok? && |r.value| == 64
      && forall k :: 0 <= k < 32 ==>
           r.value[2 * k] == HighDigit(codec.sha256(script)[31 - k])
           && r.value[2 * k + 1] == LowDigit(codec.sha256(script)[31 - k])
  {
    var digest := codec.sha256(script);
    var reversed := Reversed(digest);
    var hex := HexEncode(reversed);
    assert Scripthash(codec, addr, isTestnet) == Ok(hex);
    forall k | 0 <= k < 32
      ensures hex[2 * k] == HighDigit(digest[31 - k])
      ensures hex[2 * k + 1] == LowDigit(digest[31 - k])
    {
      assert reversed[k] == digest[31 - k];
    }
  }

  method AddressToScripthash(codec: Codec, addr: string, isTestnet: bool) returns (r: Result<string, Error>)
    ensures r == Scripthash(codec, addr, isTestnet)
  {
    var a := codec.decodeAddress(addr, isTestnet);
    if a.Err? {
      return Err(Wrapped("failed to decode address", a.error));
    }
    var script := codec.payToAddrScript(a.value);
    if script.Err? {
      return Err(Wrapped("failed to create script", script.error));
    }
    var digest := codec.sha256(script.value);
    var h := new bv8[|digest|](k requires 0 <= k < |digest| => digest[k]);
    assert h[..] == digest;
    ReverseInPlace(h);
    return Ok(HexEncode(h[..]));
  }

  // ---------------------------------------------------------------------------------------
  // Derivation

  /**
   * `deriveChainKeys`: an account-level key (depth 3) yields its children 0 (external) and
   * 1 (change); a key at any other depth is itself the external root and has no change root.
   */
  function ChainRoots(kc: Keychain, key: ExtendedKey): (r: Result<(ExtendedKey, Option<ExtendedKey>), Error>)
    ensures key.depth != AccountDepth ==> r == Ok((key, None))
    ensures key.depth == AccountDepth ==>
      (r.Ok? <==> kc.derive(key, ExternalChain).Ok? && kc.derive(key, ChangeChain).Ok?)
    ensures key.depth == AccountDepth && r.Ok? ==>
      r.value == (kc.derive(key, ExternalChain).value, Some(kc.derive(key, ChangeChain).value))
    ensures key.depth == AccountDepth && kc.derive(key, ExternalChain).Err? ==>
      r == Err(Wrapped("derive external chain", kc.derive(key, ExternalChain).error))
    ensures key.depth == AccountDepth && kc.derive(key, ExternalChain).Ok? && kc.derive(key, ChangeChain).Err? ==>
      r == Err(Wrapped("derive change chain", kc.derive(key, ChangeChain).error))
  {
    if key.depth == AccountDepth then
      var ext :- WrapError(kc.derive(key, ExternalChain), "derive external chain");
      var change :- WrapError(kc.derive(key, ChangeChain), "derive change chain");
      Ok((ext, Some(change)))
    else
      Ok((key, None))
  }

  /** `fmt.Errorf("<context>: %w", err)` on the error path, the value untouched otherwise. */
  function WrapError<T>(r: Result<T, Error>, context: string): (w: Result<T, Error>)
    ensures r.Ok? ==> w == r
    ensures r.Err? ==> w == Err(Wrapped(context, r.error))
  {
    match r
    case Ok(v) => Ok(v)
    case Err(e) => Err(Wrapped(context, e))
  }

  /** One iteration of `deriveAddresses`: index check, child key, public key, address. */
  function AddressAt(codec: Codec, root: ExtendedKey, i: nat, isTestnet: bool): (r: Result<Address, Error>)
    ensures i > MaxIndex ==> r == Err(IndexOutOfRange)
  {
    if i > MaxIndex then Err(IndexOutOfRange)
    else
      var child :- WrapError(codec.keychain.derive(root, i), "derive child " + DecimalString(i));
      var pub :- WrapError(codec.keychain.ecPubKey(child), "get public key for child " + DecimalString(i));
      WrapError(codec.makeAddress(pub, isTestnet), codec.makeAddressContext + " for child " + DecimalString(i))
  }

  /** Runs `step` on the indices `i` up to `count` in order: all the results, or the first failure. */
  function Collect<T>(step: nat -> Result<T, Error>, i: nat, count: nat): Result<seq<T>, Error>
    decreases count - i
  {
    if i >= count then Ok([])
    else
      var a :- step(i);
      Prepend([a], Collect(step, i + 1, count))
  }

  /** Prefixes a successful result's list; a failure passes through. */
  function Prepend<T>(prefix: seq<T>, r: Result<seq<T>, Error>): (p: Result<seq<T>, Error>)
    ensures r.Err? ==> p == r
    ensures r.Ok? ==> p == Ok(prefix + r.value)
  {
    if r.Ok? then Ok(prefix + r.value) else r
  }

  /**
   * Collecting from index `i` succeeds iff every step succeeds; it then yields one result
   * per index, in index order. Otherwise it fails with the error of the first failing step
   * and no partial list.
   */
  lemma {:induction false} CollectSpec<T>(step: nat -> Result<T, Error>, i: nat, count: nat)
    requires i <= count
    ensures var r := Collect(step, i, count);
      && (r.Ok? <==> forall j :: i <= j < count ==> step(j).Ok?)
      && (r.Ok? ==> |r.value| == count - i)
      && (r.Ok? ==> forall j :: i <= j < count ==> r.value[j - i] == step(j).value)
      && (r.Err? ==> exists j :: i <= j < count && step(j) == Err(r.error)
                                && forall k :: i <= k < j ==> step(k).Ok?)
    decreases count - i
  {
    if i < count {
      CollectSpec(step, i + 1, count);
      var r := Collect(step, i, count);
      var rest := Collect(step, i + 1, count);
      if step(i).Ok? && rest.Ok? {
        assert r.value == [step(i).value] + rest.value;
        forall j | i < j < count
          ensures r.value[j - i] == step(j).value
        {
          assert r.value[j - i] == rest.value[j - (i + 1)];
        }
      }
    }
  }

  /** One iteration of `deriveAddresses` at every index, for a fixed root. */
  function AddressStep(codec: Codec, root: ExtendedKey, isTestnet: bool): nat -> Result<Address, Error> {
    (i: nat) => AddressAt(codec, root, i, isTestnet)
  }

  /** `deriveAddresses`: no root means no addresses and no error; a success has one address per index. */
  function Derived(codec: Codec, root: Option<ExtendedKey>, count: nat, isTestnet: bool): (r: Result<seq<Address>, Error>)
    ensures root.None? ==> r == Ok([])
    ensures root.Some? && r.Ok? ==> |r.value| == count
    ensures root.Some? && count > 0 && AddressAt(codec, root.value, 0, isTestnet).Err? ==>
      r == Err(AddressAt(codec, root.value, 0, isTestnet).error)
  {
    match root
    case None => Ok([])
    case Some(key) =>
      CollectSpec(AddressStep(codec, key, isTestnet), 0, count);
      Collect(AddressStep(codec, key, isTestnet), 0, count)
  }

  /**
   * With a root, derivation succeeds iff every index does, and then yields exactly `count`
   * addresses, element `j` derived from child `j`; otherwise the error is that of the first
   * failing index.
   */
  lemma DerivedSpec(codec: Codec, root: ExtendedKey, count: nat, isTestnet: bool)
    ensures var r := Derived(codec, Some(root), count, isTestnet);
      && (r.Ok? <==> forall j :: 0 <= j < count ==> AddressAt(codec, root, j, isTestnet).Ok?)
      && (r.Ok? ==> |r.value| == count)
      && (r.Ok? ==> forall j :: 0 <= j < count ==> r.value[j] == AddressAt(codec, root, j, isTestnet).value)
      && (r.Err? ==> exists j :: 0 <= j < count && AddressAt(codec, root, j, isTestnet) == Err(r.error)
                                && forall k :: 0 <= k < j ==> AddressAt(codec, root, k, isTestnet).Ok?)
  {
    var step := AddressStep(codec, root, isTestnet);
    CollectSpec(step, 0, count);
    assert Derived(codec, Some(root), count, isTestnet) == Collect(step, 0, count);
    assert forall j :: step(j) == AddressAt(codec, root, j, isTestnet);
  }

  /** Asking for more than 2^31 addresses fails with `ErrIndexOutOfRange` unless an earlier index failed first. */
  lemma BeyondUint32Rejected(codec: Codec, root: ExtendedKey, count: nat, isTestnet: bool)
    requires count > MaxIndex + 1
    requires forall j :: 0 <= j <= MaxIndex ==> AddressAt(codec, root, j, isTestnet).Ok?
    ensures Derived(codec, Some(root), count, isTestnet) == Err(IndexOutOfRange)
  {
    DerivedSpec(codec, root, count, isTestnet);
    assert AddressAt(codec, root, MaxIndex + 1, isTestnet).Err?;
  }

  /** The body of `deriveAddresses`'s loop for index `i`: index check, child key, public key, address. */
  method DeriveChild(codec: Codec, root: ExtendedKey, i: nat, isTestnet: bool) returns (r: Result<Address, Error>)
    ensures r == AddressAt(codec, root, i, isTestnet)
  {
    if i > MaxIndex {
      return Err(IndexOutOfRange);
    }
    var child := codec.keychain.derive(root, i);
    if child.Err? {
      return Err(Wrapped("derive child " + DecimalString(i), child.error));
    }
    var pub := codec.keychain.ecPubKey(child.value);
    if pub.Err? {
      return Err(Wrapped("get public key for child " + DecimalString(i), pub.error));
    }
    var addr := codec.makeAddress(pub.value, isTestnet);
    if addr.Err? {
      return Err(Wrapped(codec.makeAddressContext + " for child " + DecimalString(i), addr.error));
    }
    return Ok(addr.value);
  }

  method DeriveAddresses(codec: Codec, root: Option<ExtendedKey>, count: nat, isTestnet: bool) returns (r: Result<seq<Address>, Error>)
    ensures r == Derived(codec, root, count, isTestnet)
  {
    if root.None? {
      return Ok([]);
    }
    var key := root.value;
    ghost var step := AddressStep(codec, key, isTestnet);
    var addresses: seq<Address> := [];
    ghost var all := Collect(step, 0, count);
    assert all.Ok? ==> [] + all.value == all.value;
    for i := 0 to count
      invariant all == Prepend(addresses, Collect(step, i, count))
    {
      var addr := DeriveChild(codec, key, i, isTestnet);
      if addr.Err? {
        return Err(addr.error);
      }
      assert step(i) == Ok(addr.value);
      ghost var rest := Collect(step, i + 1, count);
      assert rest.Ok? ==> addresses + ([addr.value] + rest.value) == (addresses + [addr.value]) + rest.value;
      addresses := addresses + [addr.value];
    }
    assert addresses == addresses + [];
    return Ok(addresses);
  }

  /** `deriveTaprootAddresses` / `deriveLitecoinAddresses`: external and change lists of one extended key. */
  function WalletAddresses(codec: Codec, xpub: string, externalCount: nat, changeCount: nat, isTestnet: bool)
    : (r: Result<(seq<Address>, seq<Address>), Error>)
    ensures codec.keychain.parse(xpub).Err? ==> r == Err(Wrapped("bad xpub", codec.keychain.parse(xpub).error))
    ensures r.Ok? ==> |r.value.0| == externalCount
    ensures r.Ok? ==> |r.value.1| == changeCount || r.value.1 == []
  {
    var key :- WrapError(codec.keychain.parse(xpub), "bad xpub");
    var roots :- ChainRoots(codec.keychain, key);
    var external :- WrapError(Derived(codec, Some(roots.0), externalCount, isTestnet), "derive external addresses");
    var change :- WrapError(Derived(codec, roots.1, changeCount, isTestnet), "derive change addresses");
    Ok((external, change))
  }

  method DeriveWallet(codec: Codec, xpub: string, externalCount: nat, changeCount: nat, isTestnet: bool)
    returns (r: Result<(seq<Address>, seq<Address>), Error>)
    ensures r == WalletAddresses(codec, xpub, externalCount, changeCount, isTestnet)
  {
    var key := codec.keychain.parse(xpub);
    if key.Err? {
      return Err(Wrapped("bad xpub", key.error));
    }
    var roots := ChainRoots(codec.keychain, key.value);
    if roots.Err? {
      return Err(roots.error);
    }
    var external := DeriveAddresses(codec, Some(roots.value.0), externalCount, isTestnet);
    if external.Err? {
      return Err(Wrapped("derive external addresses", external.error));
    }
    var change := DeriveAddresses(codec, roots.value.1, changeCount, isTestnet);
    if change.Err? {
      return Err(Wrapped("derive change addresses", change.error));
    }
    return Ok((external.value, change.value));
  }

  /** A string that does not parse as an extended key fails with "bad xpub" before any derivation. */
  lemma BadXpub(codec: Codec, xpub: string, externalCount: nat, changeCount: nat, isTestnet: bool)
    requires codec.keychain.parse(xpub).Err?
    ensures WalletAddresses(codec, xpub, externalCount, changeCount, isTestnet)
         == Err(Wrapped("bad xpub", codec.keychain.parse(xpub).error))
  {
  }

  /**
   * A key that is not at account depth derives its external addresses from itself and has
   * no change addresses, whatever the change count.
   */
  lemma NonAccountKeyHasNoChange(codec: Codec, xpub: string, externalCount: nat, changeCount: nat, isTestnet: bool)
    requires codec.keychain.parse(xpub).Ok? && codec.keychain.parse(xpub).value.depth != AccountDepth
    ensures var key := codec.keychain.parse(xpub).value;
      var r := WalletAddresses(codec, xpub, externalCount, changeCount, isTestnet);
      && (r.Ok? <==> Derived(codec, Some(key), externalCount, isTestnet).Ok?)
      && (r.Ok? ==> r.value == (Derived(codec, Some(key), externalCount, isTestnet).value, []))
  {
  }

  /**
   * An account-level key whose derivations all succeed yields exactly `externalCount`
   * addresses from child 0 and `changeCount` from child 1, each in index order.
   */
  lemma AccountKeyWallet(codec: Codec, xpub: string, externalCount: nat, changeCount: nat, isTestnet: bool)
    requires codec.keychain.parse(xpub).Ok?
    requires var key := codec.keychain.parse(xpub).value;
      key.depth == AccountDepth
      && codec.keychain.derive(key, ExternalChain).Ok? && codec.keychain.derive(key, ChangeChain).Ok?
    requires var key := codec.keychain.parse(xpub).value;
      && (forall j :: 0 <= j < externalCount ==> AddressAt(codec, codec.keychain.derive(key, ExternalChain).value, j, isTestnet).Ok?)
      && (forall j :: 0 <= j < changeCount ==> AddressAt(codec, codec.keychain.derive(key, ChangeChain).value, j, isTestnet).Ok?)
    ensures var key := codec.keychain.parse(xpub).value;
      var ext := codec.keychain.derive(key, ExternalChain).value;
      var ch := codec.keychain.derive(key, ChangeChain).value;
      var r := WalletAddresses(codec, xpub, externalCount, changeCount, isTestnet);
      && r.Ok? && |r.value.0| == externalCount && |r.value.1| == changeCount
      && (forall j :: 0 <= j < externalCount ==> r.value.0[j] == AddressAt(codec, ext, j, isTestnet).value)
      && (forall j :: 0 <= j < changeCount ==> r.value.1[j] == AddressAt(codec, ch, j, isTestnet).value)
  {
    var key := codec.keychain.parse(xpub).value;
    DerivedSpec(codec, codec.keychain.derive(key, ExternalChain).value, externalCount, isTestnet);
    DerivedSpec(codec, codec.keychain.derive(key, ChangeChain).value, changeCount, isTestnet);
  }

  // ---------------------------------------------------------------------------------------
  // Balance

  /** `getAddressBalance`: confirmed plus unconfirmed satoshis of one address's scripthash. */
  function AddressSats(codec: Codec, server: ElectrumServer, addr: Address, isTestnet: bool): (r: Result<int, Error>)
    ensures Scripthash(codec, addr.encoded, isTestnet).Err? ==> r == Err(Scripthash(codec, addr.encoded, isTestnet).error)
  {
    var sh :- Scripthash(codec, addr.encoded, isTestnet);
    var bal :- WrapError(server.getBalance(sh), "get balance from electrum");
    Ok(bal.confirmed + bal.unconfirmed)
  }

  method GetAddressBalance(codec: Codec, server: ElectrumServer, addr: Address, isTestnet: bool) returns (r: Result<int, Error>)
    ensures r == AddressSats(codec, server, addr, isTestnet)
  {
    var sh := AddressToScripthash(codec, addr.encoded, isTestnet);
    if sh.Err? {
      return Err(sh.error);
    }
    var bal := server.getBalance(sh.value);
    if bal.Err? {
      return Err(Wrapped("get balance from electrum", bal.error));
    }
    return Ok(bal.value.confirmed + bal.value.unconfirmed);
  }

  /** Satoshis over `addrs`: the sum of the per-address amounts, or the first failure. */
  function TotalSats(codec: Codec, server: ElectrumServer, addrs: seq<Address>, isTestnet: bool): (r: Result<int, Error>)
    ensures r.Ok? ==> forall k :: 0 <= k < |addrs| ==> AddressSats(codec, server, addrs[k], isTestnet).Ok?
    ensures addrs != [] && AddressSats(codec, server, addrs[0], isTestnet).Err? ==>
      r == Err(AddressSats(codec, server, addrs[0], isTestnet).error)
  {
    if addrs == [] then Ok(0)
    else
      var head :- AddressSats(codec, server, addrs[0], isTestnet);
      var rest :- TotalSats(codec, server, addrs[1..], isTestnet);
      Ok(head + rest)
  }

  /** `getXpubBalance`: the satoshi total in whole coins. */
  function XpubBalance(codec: Codec, server: ElectrumServer, addrs: seq<Address>, isTestnet: bool): (r: Result<real, Error>)
    ensures r.Ok? <==> TotalSats(codec, server, addrs, isTestnet).Ok?
    ensures r.Err? ==> r.error == TotalSats(codec, server, addrs, isTestnet).error
  {
    match TotalSats(codec, server, addrs, isTestnet)
    case Ok(sats) => Ok(sats as real / SatoshiPerCoin)
    case Err(e) => Err(e)
  }

  /** A balance in whole coins, scaled back by 10^8, is exactly the satoshi total. */
  lemma XpubBalanceInSatoshis(codec: Codec, server: ElectrumServer, addrs: seq<Address>, isTestnet: bool)
    requires XpubBalance(codec, server, addrs, isTestnet).Ok?
    ensures XpubBalance(codec, server, addrs, isTestnet).value * SatoshiPerCoin
         == TotalSats(codec, server, addrs, isTestnet).value as real
  {
  }

  /**
   * One successful pass of `getXpubBalance`'s loop: once the addresses before `k` have a total,
   * a successful lookup at `k` extends it by that address's amount.
   */
  lemma RunningTotalExtends(codec: Codec, server: ElectrumServer, addrs: seq<Address>, isTestnet: bool, k: nat)
    requires k < |addrs|
    requires TotalSats(codec, server, addrs[..k], isTestnet).Ok?
    requires AddressSats(codec, server, addrs[k], isTestnet).Ok?
    ensures TotalSats(codec, server, addrs[..k + 1], isTestnet)
      == Ok(TotalSats(codec, server, addrs[..k], isTestnet).value + AddressSats(codec, server, addrs[k], isTestnet).value)
  {
    var single := [addrs[k]];
    assert TotalSats(codec, server, single, isTestnet) == AddressSats(codec, server, addrs[k], isTestnet) by {
      assert single[0] == addrs[k] && single[1..] == [];
    }
    PrefixGrows(addrs, k);
    TotalSatsConcat(codec, server, addrs[..k], single, isTestnet);
  }

  /**
   * A failing pass of `getXpubBalance`'s loop: once the addresses before `k` have a total,
   * a failing lookup at `k` is the error of the total over all of `addrs`.
   */
  lemma RunningTotalStops(codec: Codec, server: ElectrumServer, addrs: seq<Address>, isTestnet: bool, k: nat)
    requires k < |addrs|
    requires TotalSats(codec, server, addrs[..k], isTestnet).Ok?
    requires AddressSats(codec, server, addrs[k], isTestnet).Err?
    ensures TotalSats(codec, server, addrs, isTestnet) == Err(AddressSats(codec, server, addrs[k], isTestnet).error)
  {
    var rest := addrs[k..];
    assert rest[0] == addrs[k];
    assert addrs == addrs[..k] + rest;
    TotalSatsConcat(codec, server, addrs[..k], rest, isTestnet);
  }

  /** A prefix one longer is the shorter prefix followed by the next element. */
  lemma PrefixGrows<T>(s: seq<T>, k: nat)
    requires k < |s|
    ensures s[..k + 1] == s[..k] + [s[k]]
  {
  }

  method GetXpubBalance(codec: Codec, server: ElectrumServer, addrs: seq<Address>, isTestnet: bool) returns (r: Result<real, Error>)
    ensures r == XpubBalance(codec, server, addrs, isTestnet)
  {
    var totalSats := 0;
    for k := 0 to |addrs|
      invariant TotalSats(codec, server, addrs[..k], isTestnet) == Ok(totalSats)
    {
      var sats := GetAddressBalance(codec, server, addrs[k], isTestnet);
      if sats.Err? {
        RunningTotalStops(codec, server, addrs, isTestnet, k);
        return Err(sats.error);
      }
      RunningTotalExtends(codec, server, addrs, isTestnet, k);
      totalSats := totalSats + sats.value;
    }
    assert addrs[..|addrs|] == addrs;
    return Ok(totalSats as real / SatoshiPerCoin);
  }




  /**
   * The total succeeds iff every address's lookup does, and is then the sum of the two
   * lists' totals over any split: all or nothing, in any grouping.
   */
  lemma {:induction false} TotalSatsConcat(codec: Codec, server: ElectrumServer, a: seq<Address>, b: seq<Address>, isTestnet: bool)
    ensures var ta := TotalSats(codec, server, a, isTestnet);
      var tb := TotalSats(codec, server, b, isTestnet);
      var t := TotalSats(codec, server, a + b, isTestnet);
      && (t.Ok? <==> ta.Ok? && tb.Ok?)
      && (t.Ok? ==> t.value == ta.value + tb.value)
      && (ta.Ok? && tb.Err? ==> t == tb)
  {
    if a != [] {
      assert (a + b)[0] == a[0] && (a + b)[1..] == a[1..] + b;
      TotalSatsConcat(codec, server, a[1..], b, isTestnet);
    } else {
      assert a + b == b;
    }
  }

  /** A lookup failing for any address fails the whole total, with the first failing address's error. */
  lemma {:induction false} TotalSatsAllOrNothing(codec: Codec, server: ElectrumServer, addrs: seq<Address>, isTestnet: bool)
    ensures var t := TotalSats(codec, server, addrs, isTestnet);
      && (t.Ok? <==> forall j :: 0 <= j < |addrs| ==> AddressSats(codec, server, addrs[j], isTestnet).Ok?)
      && (t.Err? ==> exists j :: 0 <= j < |addrs| && AddressSats(codec, server, addrs[j], isTestnet) == Err(t.error)
                                && forall k :: 0 <= k < j ==> AddressSats(codec, server, addrs[k], isTestnet).Ok?)
  {
    if addrs != [] {
      TotalSatsAllOrNothing(codec, server, addrs[1..], isTestnet);
      assert forall j :: 1 <= j < |addrs| ==> addrs[1..][j - 1] == addrs[j];
      var t := TotalSats(codec, server, addrs, isTestnet);
      if t.Err? && AddressSats(codec, server, addrs[0], isTestnet).Ok? {
        var j :| 0 <= j < |addrs[1..]| && AddressSats(codec, server, addrs[1..][j], isTestnet) == Err(t.error)
                 && forall k :: 0 <= k < j ==> AddressSats(codec, server, addrs[1..][k], isTestnet).Ok?;
        assert AddressSats(codec, server, addrs[j + 1], isTestnet) == Err(t.error);
      }
    }
  }

  /** Every address holding the same amount: the balance is that amount times the number of addresses, in coins. */
  lemma {:induction false} UniformBalance(codec: Codec, server: ElectrumServer, addrs: seq<Address>, isTestnet: bool, sats: int)
    requires forall j :: 0 <= j < |addrs| ==> AddressSats(codec, server, addrs[j], isTestnet) == Ok(sats)
    ensures XpubBalance(codec, server, addrs, isTestnet) == Ok((|addrs| * sats) as real / SatoshiPerCoin)
  {
    UniformTotal(codec, server, addrs, isTestnet, sats);
  }

  lemma {:induction false} UniformTotal(codec: Codec, server: ElectrumServer, addrs: seq<Address>, isTestnet: bool, sats: int)
    requires forall j :: 0 <= j < |addrs| ==> AddressSats(codec, server, addrs[j], isTestnet) == Ok(sats)
    ensures TotalSats(codec, server, addrs, isTestnet) == Ok(|addrs| * sats)
  {
    if addrs != [] {
      var tail := addrs[1..];
      assert |addrs| * sats == sats + |tail| * sats;
      assert forall j :: 0 <= j < |tail| ==> tail[j] == addrs[j + 1];
      UniformTotal(codec, server, tail, isTestnet, sats);
      assert AddressSats(codec, server, addrs[0], isTestnet) == Ok(sats);
    }
  }

  // ---------------------------------------------------------------------------------------
  // The connection to the Electrum server

  /** A connection made by `electrum.NewClientTCP` to the server at `serverAddress`. */
  class ElectrumClient {
    const serverAddress: string

    constructor (serverAddress: string)
      ensures this.serverAddress == serverAddress
    {
      this.serverAddress := serverAddress;
    }
  }

  /**
   * What the outside world does during one `GetBalance` call, by attempt number: whether the
   * installed client is found shut down, how the server answers queries, and how the
   * connection attempts of a reconnect after that attempt turn out.
   */
  datatype ElectrumNetwork = ElectrumNetwork(
    isShutdown: nat -> bool,
    server: nat -> ElectrumServer,
    dials: nat -> seq<Retry.Dial>)

  /** Every reconnect eventually gets through, as `connectWithRetry` waits for. */
  ghost predicate Reachable(net: ElectrumNetwork) {
    forall i: nat :: Retry.Connects(net.dials(i))
  }

  /** What retry attempt `i` of `GetBalance` sees: a shut-down client, or the server's answer for `addrs`. */
  function BalanceAttempts(codec: Codec, net: ElectrumNetwork, addrs: seq<Address>, isTestnet: bool): nat -> Retry.Attempt<real> {
    (i: nat) => if net.isShutdown(i) then Retry.Dead else Retry.Reply(XpubBalance(codec, net.server(i), addrs, isTestnet))
  }

  /** The address list `GetBalance` queries for `xpub`: external then change addresses. */
  function AddressList(codec: Codec, xpub: string, externalCount: nat, changeCount: nat, isTestnet: bool): (r: Result<seq<Address>, Error>)
    ensures var w := WalletAddresses(codec, xpub, externalCount, changeCount, isTestnet);
      && (r.Ok? <==> w.Ok?)
      && (w.Err? ==> r == Err(w.error))
      && (w.Ok? ==> r.value == w.value.0 + w.value.1)
  {
    match WalletAddresses(codec, xpub, externalCount, changeCount, isTestnet)
    case Err(e) => Err(e)
    case Ok(w) => Ok(w.0 + w.1)
  }
}

