/**
 * BIP32 extended keys as the chain code uses them, through `hdkeychain`. Parsing, child
 * derivation and public-key extraction are library calls the model does not look inside:
 * a `Keychain` holds them as functions, so every property proved here holds for whatever
 * those functions compute.
 */
module Hd {
  import opened Wrappers
  import opened Errors

  type Bytes = seq<bv8>

  /** A derivation index as `Derive` takes it (`uint32`). */
  type Uint32 = x: nat | x < 0x1_0000_0000

  /** The largest index the derivation loops accept: they stay below the hardened range. */
  const MaxIndex: nat := 0x7FFF_FFFF

  /** An extended public key; `depth` is what `key.Depth()` reports, the rest is opaque. */
  datatype ExtendedKey = ExtendedKey(depth: nat, serialized: Bytes)

  /** A secp256k1 public key, by its `SerializeCompressed()` bytes. */
  datatype PublicKey = PublicKey(compressed: Bytes)

  datatype Keychain = Keychain(
    parse: string -> Result<ExtendedKey, Error>,                  // hdkeychain.NewKeyFromString
    derive: (ExtendedKey, Uint32) -> Result<ExtendedKey, Error>,  // ExtendedKey.Derive
    ecPubKey: ExtendedKey -> Result<PublicKey, Error>)            // ExtendedKey.ECPubKey
}
