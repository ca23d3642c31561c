/**
 * Kaspa address derivation. Unlike the Bitcoin family it always derives the receive branch
 * from child 0 and the change branch from child 1, and its per-index loop is lenient: an
 * index whose child key, public key, key length or address encoding fails is skipped rather
 * than aborting the run; only an index beyond the non-hardened range aborts.
 */
module KaspaWallet {
  import opened Wrappers
  import opened Errors
  import opened Hd

  /** Length of a compressed secp256k1 public key; the address payload drops its first byte. */
  const PubKeyLength: nat := 33

  /** `util.NewAddressPublicKey` with the Kaspa bech32 prefix, then `EncodeAddress`. */
  type AddressEncoder = Bytes -> Result<string, Error>

  /** One iteration of `derive`: the address of index `i`, or nothing when the index is skipped. */
  function AddressAt(kc: Keychain, encode: AddressEncoder, branch: ExtendedKey, i: Uint32): (a: Option<string>)
    ensures a.Some? <==>
      && kc.derive(branch, i).Ok?
      && kc.ecPubKey(kc.derive(branch, i).value).Ok?
      && |kc.ecPubKey(kc.derive(branch, i).value).value.compressed| == PubKeyLength
      && encode(kc.ecPubKey(kc.derive(branch, i).value).value.compressed[1..]).Ok?
    ensures a.Some? ==>
      var key := kc.ecPubKey(kc.derive(branch, i).value).value.compressed;
      |key[1..]| == 32 && a.value == encode(key[1..]).value
  {
    match kc.derive(branch, i)
    case Err(_) => None
    case Ok(child) =>
      match kc.ecPubKey(child)
      case Err(_) => None
      case Ok(pub) =>
        if |pub.compressed| != PubKeyLength then None
        else
          match encode(pub.compressed[1..])
          case Err(_) => None
          case Ok(addr) => Some(addr)
  }

  /** Every index's outcome for a fixed branch; indices past the `uint32` range have none. */
  function AddressStep(kc: Keychain, encode: AddressEncoder, branch: ExtendedKey): nat -> Option<string> {
    (i: nat) => if i < 0x1_0000_0000 then AddressAt(kc, encode, branch, i) else None
  }

  /** The outcomes of indices below `n` that produced an address, in index order: at most `n` of them. */
  function Successes<T>(step: nat -> Option<T>, n: nat): (s: seq<T>)
    ensures |s| <= n
  {
    if n == 0 then []
    else Successes(step, n - 1) + (if step(n - 1).Some? then [step(n - 1).value] else [])
  }

  /** The indices below `n` that produced an address, in increasing order. */
  function SuccessIndices<T>(step: nat -> Option<T>, n: nat): seq<nat> {
    if n == 0 then []
    else SuccessIndices(step, n - 1) + (if step(n - 1).Some? then [n - 1] else [])
  }

  /**
   * The lenient loop keeps exactly the indices that produced an address: at most `n` of
   * them, strictly increasing, and the k-th kept result is the k-th such index's address.
   */
  lemma {:induction false} SuccessesSpec<T>(step: nat -> Option<T>, n: nat)
    ensures var s := Successes(step, n);
      var idx := SuccessIndices(step, n);
      && |s| == |idx| <= n
      && (forall k :: 0 <= k < |idx| ==> idx[k] < n && step(idx[k]).Some? && s[k] == step(idx[k]).value)
      && (forall k, m :: 0 <= k < m < |idx| ==> idx[k] < idx[m])
      && (forall j :: 0 <= j < n && step(j).Some? ==> j in idx)
  {
    if n > 0 {
      SuccessesSpec(step, n - 1);
    }
  }

  /** `derive`: the addresses of the indices below `count` that produced one, or `ErrIndexOutOfRange` past 2^31 indices. */
  function Derived(kc: Keychain, encode: AddressEncoder, branch: ExtendedKey, count: nat): (r: Result<seq<string>, Error>)
    ensures r.Err? <==> count > MaxIndex + 1
    ensures r.Err? ==> r.error == IndexOutOfRange
  {
    if count > MaxIndex + 1 then Err(IndexOutOfRange) else Ok(Successes(AddressStep(kc, encode, branch), count))
  }

  method Derive(kc: Keychain, encode: AddressEncoder, branch: ExtendedKey, count: nat) returns (r: Result<seq<string>, Error>)
    ensures r == Derived(kc, encode, branch, count)
  {
    ghost var step := AddressStep(kc, encode, branch);
    var addrs: seq<string> := [];
    for i := 0 to count
      invariant i <= MaxIndex + 1
      invariant addrs == Successes(step, i)
    {
      if i > MaxIndex {
        return Err(IndexOutOfRange);
      }
      assert step(i) == AddressAt(kc, encode, branch, i);
      var child := kc.derive(branch, i);
      if child.Err? {
        continue;
      }
      var pubKey := kc.ecPubKey(child.value);
      if pubKey.Err? {
        continue;
      }
      var pubKeyBytes := pubKey.value.compressed;
      if |pubKeyBytes| != PubKeyLength {
        continue;
      }
      var addr := encode(pubKeyBytes[1..]);
      if addr.Err? {
        continue;
      }
      addrs := addrs + [addr.value];
    }
    return Ok(addrs);
  }

  /** `deriveAddresses`: receive addresses from child 0, change addresses from child 1, whatever the key's depth. */
  function WalletAddresses(kc: Keychain, encode: AddressEncoder, xpub: string, nRecv: nat, nChange: nat)
    : (r: Result<(seq<string>, seq<string>), Error>)
    ensures kc.parse(xpub).Err? ==> r == Err(Wrapped("invalid xpub", kc.parse(xpub).error))
    ensures r.Ok? ==> |r.value.0| <= nRecv && |r.value.1| <= nChange
    ensures r.Ok? ==> nRecv <= MaxIndex + 1 && nChange <= MaxIndex + 1
  {
    match kc.parse(xpub)
    case Err(e) => Err(Wrapped("invalid xpub", e))
    case Ok(key) =>
      match kc.derive(key, 0)
      case Err(e) => Err(Wrapped("failed to derive receive branch", e))
      case Ok(recvBranch) =>
        match kc.derive(key, 1)
        case Err(e) => Err(Wrapped("failed to derive change branch", e))
        case Ok(changeBranch) =>
          match Derived(kc, encode, recvBranch, nRecv)
          case Err(e) => Err(Wrapped("failed to derive receive addresses", e))
          case Ok(recv) =>
            match Derived(kc, encode, changeBranch, nChange)
            case Err(e) => Err(Wrapped("failed to derive change addresses", e))
            case Ok(change) => Ok((recv, change))
  }

  method DeriveAddresses(kc: Keychain, encode: AddressEncoder, xpub: string, nRecv: nat, nChange: nat)
    returns (r: Result<(seq<string>, seq<string>), Error>)
    ensures r == WalletAddresses(kc, encode, xpub, nRecv, nChange)
  {
    var key := kc.parse(xpub);
    if key.Err? {
      return Err(Wrapped("invalid xpub", key.error));
    }
    var recvBranch := kc.derive(key.value, 0);
    if recvBranch.Err? {
      return Err(Wrapped("failed to derive receive branch", recvBranch.error));
    }
    var changeBranch := kc.derive(key.value, 1);
    if changeBranch.Err? {
      return Err(Wrapped("failed to derive change branch", changeBranch.error));
    }
    var recv := Derive(kc, encode, recvBranch.value, nRecv);
    if recv.Err? {
      return Err(Wrapped("failed to derive receive addresses", recv.error));
    }
    var change := Derive(kc, encode, changeBranch.value, nChange);
    if change.Err? {
      return Err(Wrapped("failed to derive change addresses", change.error));
    }
    return Ok((recv.value, change.value));
  }

  /**
   * Within the index range, the outcome is decided by the key and its two branches alone:
   * an unparsable key or a failing branch aborts, and otherwise the lists are the skipping
   * derivations from children 0 and 1, whatever the key's depth.
   */
  lemma BranchesFixed(kc: Keychain, encode: AddressEncoder, xpub: string, nRecv: nat, nChange: nat)
    requires nRecv <= MaxIndex + 1 && nChange <= MaxIndex + 1
    ensures var r := WalletAddresses(kc, encode, xpub, nRecv, nChange);
      && (r.Ok? <==> kc.parse(xpub).Ok? && kc.derive(kc.parse(xpub).value, 0).Ok? && kc.derive(kc.parse(xpub).value, 1).Ok?)
      && (r.Ok? ==>
            var key := kc.parse(xpub).value;
            r.value == (Successes(AddressStep(kc, encode, kc.derive(key, 0).value), nRecv),
                        Successes(AddressStep(kc, encode, kc.derive(key, 1).value), nChange)))
  {
  }

  /** With every index succeeding, the receive list holds one address per index, child `j` at position `j`. */
  lemma {:induction false} AllIndicesSucceed<T>(step: nat -> Option<T>, n: nat)
    requires forall j :: 0 <= j < n ==> step(j).Some?
    ensures |Successes(step, n)| == n
    ensures forall j :: 0 <= j < n ==> Successes(step, n)[j] == step(j).value
  {
    if n > 0 {
      AllIndicesSucceed(step, n - 1);
    }
  }
}
