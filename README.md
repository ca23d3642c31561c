# crypto-wallet-rest balance engine, in Dafny

This project models the balance-resolution engine of crypto-wallet-rest, a REST service that
reports wallet balances in crypto and fiat. The model covers five parts:

- **The generic TTL cache** (`TtlCache`). It is a string-keyed map of value/expiry entries.
  An entry stays alive up to and including its expiry instant, and expired entries linger
  until a sweep.
- **The balance aggregator** (`Aggregator`). It defaults the fiat symbol to USD and picks the
  provider by the upper-cased symbol. The balance is read through a 30-second cache, and the
  rate through a 5-second cache keyed by the symbol with any `_TESTNET` trimmed. It composes
  a `BalanceResult`, and it answers a batch slot by slot, turning errors into error slots.
- **Bitcoin-family wallets** (`ElectrumWallet`, shared by `Bitcoin` and `Litecoin`, whose
  files hold the same code apart from the address encoder). It covers:
  - chain-root selection by key depth;
  - the all-or-nothing address derivation loop;
  - the in-place byte reversal that turns a SHA-256 digest into an Electrum scripthash;
  - the all-or-nothing satoshi sum.
  The `ElectrumWallet` members cite bitcoin/crypto.go. The functions of the same names in
  litecoin/crypto.go (lines 40-192) are the same code and are modelled by the same members.
- **Kaspa** (`KaspaWallet`, `Kaspa`). It covers:
  - the lenient derivation loop, which skips failing indices;
  - the per-kpub memo of receive then change addresses;
  - the explorer request with its status check;
  - the KAS sum.
- **The chain adapters with a bounded retry** (`Retry`, `Bitcoin`, `Litecoin`, `Ethereum`,
  `Solana`). An adapter makes at most three attempts. A dead or missing client handle burns
  an attempt on a reconnect. A cancellation or deadline costs a reconnect. After the last
  attempt the last error is returned.

Some parts of the system are parameters of the model rather than modelled code:

- **Library calls are function-valued fields of datatypes.** This covers BIP32 parsing and
  derivation, public keys, address encoders and decoders, output scripts, SHA-256, base58
  and JSON. The proved properties hold for whatever those functions compute.
- **Outside services are oracles indexed by attempt number.** These are the provider and
  rate services, the Electrum server, the Ethereum and Solana nodes, and HTTP.
- **Time is an explicit `now` argument, in nanoseconds.**

Every imperative method is tied by its postcondition to a specification function. The lemmas
state the promised properties about those functions. `Valid()` predicates are the class
invariants:

- a connected adapter holds a client;
- every memoised address list is the one a fresh derivation would produce, so the memo is
  transparent.

Ghost counters record how many connections and derivations a call made.

Where the design description and the code differ, the model follows the code:

- The rate service receives the raw symbol (minus a case-sensitive `_TESTNET`) and the raw
  fiat symbol. Only the cache key is upper-cased. So `btc_testnet` is rated as `btc_testnet`
  (`Aggregator.RateSymbolIsCaseSensitive`).
- Error slots upper-case the request's fiat symbol but do not default it to USD.

## Model

| member | source | states |
|---|---|---|
| TtlCache.Find | internal/adapters/provider/cache.go:57-72 | a lookup finds a value iff the key is present and `now` is not after its expiry, and then it is the stored value |
| TtlCache.ExpiryBoundary | internal/adapters/provider/cache.go:17-19 | an entry is still live at its expiry instant and expired one nanosecond later (strict `After`), and once expired it stays expired |
| TtlCache.Unexpired | internal/adapters/provider/cache.go:94-103 | a sweep keeps exactly the entries not expired at `now`, each with its value and expiry unchanged |
| TtlCache.Cache.constructor | internal/adapters/provider/cache.go:25-33 | a new cache is empty |
| TtlCache.Cache.Set | internal/adapters/provider/cache.go:46-54 | the key now maps to the value with expiry `now + ttl`; every other entry is untouched |
| TtlCache.Cache.Get | internal/adapters/provider/cache.go:57-72 | found iff present and unexpired; the stored value when found, the zero value otherwise; the map is not changed |
| TtlCache.Cache.Delete | internal/adapters/provider/cache.go:74-79 | exactly the given key is removed |
| TtlCache.Cache.CleanupExpiredItems | internal/adapters/provider/cache.go:94-103 | the sweep loop leaves exactly `Unexpired(old items, now)` |
| TtlCache.SetThenFind | internal/adapters/provider/cache.go:46-72 | Set then Get at a time not after the expiry returns exactly the stored value, and nothing afterwards |
| TtlCache.TtlAtSetInstant | internal/adapters/provider/cache.go:17-19 | at the instant of the Set, TTL 0 is found and a negative TTL is never found (strict `After`) |
| TtlCache.LastWriteWins | internal/adapters/provider/cache.go:50-53 | a second Set on a key replaces the first |
| TtlCache.DeleteOnlyThatKey | internal/adapters/provider/cache.go:74-79 | after Delete the key is absent, and every other key's lookup is unchanged |
| TtlCache.SweepPreservesFind | internal/adapters/provider/cache.go:94-103 | at a fixed `now` a sweep changes no lookup's answer |
| TtlCache.SweepIdempotent | internal/adapters/provider/cache.go:94-103 | sweeping twice at the same `now` equals sweeping once |
| Text.Upper | internal/adapters/provider/adapter.go:57 | `strings.ToUpper` keeps the length and capitalises each lower-case ASCII letter |
| Text.UpperIdempotent | internal/adapters/provider/adapter.go:93 | upper-casing an upper-cased symbol changes nothing |
| Text.UpperConcat | internal/adapters/provider/adapter.go:76 | upper-casing distributes over concatenation |
| Text.TrimSuffix | internal/adapters/provider/adapter.go:92 | `strings.TrimSuffix` removes the suffix once when present (case-sensitively) and returns the input otherwise |
| Text.TrimAppendedSuffix | internal/adapters/provider/adapter.go:92 | trimming undoes appending the suffix |
| Text.DecimalString | internal/adapters/crypto/providers/kaspa/adapter.go:105 | `%d`: at least one decimal digit, no leading zero, and the digits denote exactly the number printed |
| Text.DecimalStringInjective | internal/adapters/crypto/providers/bitcoin/crypto.go:119 | distinct numbers print as distinct decimal strings, so the index in a "derive child" message identifies the child |
| Text.HexEncode | internal/adapters/crypto/providers/bitcoin/crypto.go:51 | `hex.EncodeToString`: two lower-case hex digits per byte, high nibble first |
| Errors.WrappedMessage | internal/adapters/provider/adapter.go:84 | a `%w`-wrapped error's text starts with its context and ends with its cause's text |
| Errors.IsContextError | internal/adapters/crypto/providers/bitcoin/provider.go:72 | `errors.Is(err, context.Canceled) || errors.Is(err, context.DeadlineExceeded)` holds iff the innermost cause under the wrappings is a cancellation or a deadline |
| Errors.ContextErrorThroughWrapping | internal/adapters/crypto/providers/bitcoin/provider.go:72-74 | `errors.Is` sees a cancellation or deadline through any number of wrappings, and never invents one |
| Aggregator.BuildBalanceResult | internal/adapters/provider/adapter.go:123-136 | upper-cased symbols, the echoed address, fiat value = balance × rate, 24h change = balance × change, no error |
| Aggregator.FetchBalance | internal/adapters/provider/adapter.go:75-89 | a balance returned is live under `balance:SYM:addr` afterwards; a failure leaves the cache as it was; no other key's lookup changes |
| Aggregator.FetchRate | internal/adapters/provider/adapter.go:91-121 | a rate returned is live under `rate:SYM:FIAT` afterwards; a failure leaves the cache as it was; no other key's lookup changes |
| Aggregator.Resolve | internal/adapters/provider/adapter.go:52-73 | an unknown symbol fails with `ErrProviderNotFoundForSymbol` and leaves the caches; a success carries the upper-cased symbol, the address and the upper-cased defaulted fiat, fiat value = balance × rate, and the balance and rate it used are live in the caches afterwards |
| Aggregator.ErrorSlot | internal/adapters/provider/adapter.go:155-167 | an error slot echoes the upper-cased symbol and the address, carries an error text, and its zeros keep fiat value = balance × rate |
| Aggregator.Batch | internal/adapters/provider/adapter.go:142-177 | one slot per request, and slot i carries request i's upper-cased symbol and address whether it failed or not |
| Aggregator.Adapter.constructor | internal/adapters/provider/adapter.go:43-50 | two fresh, distinct, empty caches |
| Aggregator.Adapter.GetBalance | internal/adapters/provider/adapter.go:52-73 | the result and both caches' new contents are those of `Resolve` on the old contents |
| Aggregator.Adapter.GetCachedOrFetchBalance | internal/adapters/provider/adapter.go:75-89 | the balance and the new balance cache are those of `FetchBalance` |
| Aggregator.Adapter.GetCachedOrFetchRate | internal/adapters/provider/adapter.go:91-121 | the rate and the new rate cache are those of `FetchRate` |
| Aggregator.Adapter.GetBalances | internal/adapters/provider/adapter.go:138-140 | identical to `GetBatchBalances` |
| Aggregator.Adapter.GetBatchBalances | internal/adapters/provider/adapter.go:142-177 | never returns an error; the slots and the caches are those of the sequential `Batch` over the requests in order |
| Aggregator.EmptyFiatMeansUsd | internal/adapters/provider/adapter.go:53-55 | an empty fiat symbol resolves exactly as "USD" |
| Aggregator.UnknownSymbolFails | internal/adapters/provider/adapter.go:57-60 | a symbol whose upper-case form has no provider fails with `ErrProviderNotFoundForSymbol` naming the original symbol; the caches are unchanged and the rate service is not consulted |
| Aggregator.BalanceHitSkipsProvider | internal/adapters/provider/adapter.go:76-80 | a live entry under `balance:SYM:addr` is returned whatever the provider would answer, and the cache is unchanged |
| Aggregator.RateHitSkipsService | internal/adapters/provider/adapter.go:95-97 | a live entry under `rate:SYM:FIAT` is returned whatever the rate service would answer, and the cache is unchanged |
| Aggregator.BalanceMiss | internal/adapters/provider/adapter.go:82-88 | on a miss a provider error is wrapped and not cached; a success is cached for 30 s |
| Aggregator.RateMiss | internal/adapters/provider/adapter.go:92-119 | on a miss the service gets the raw symbol minus `_TESTNET` and the raw fiat; a missing 24h change is 0; a success is cached for 5 s under the upper-cased key; an error is wrapped and not cached |
| Aggregator.TestnetSharesRateKey | internal/adapters/provider/adapter.go:92-93 | `SYM_TESTNET` is rated under the same key, and with the same symbol, as `SYM` |
| Aggregator.RateSymbolIsCaseSensitive | internal/adapters/provider/adapter.go:92 | `btc_testnet` is not trimmed although its provider key is `BTC_TESTNET`; `BTC_TESTNET` is rated as `BTC` |
| Aggregator.BalanceErrorShortCircuits | internal/adapters/provider/adapter.go:62-65 | a balance failure is returned as is, the rate cache is untouched and the rate service's answers are irrelevant |
| Aggregator.ResolvedResult | internal/adapters/provider/adapter.go:66-72 | a success carries the upper-cased symbol, the address, the upper-cased defaulted fiat, and the balance and rate it fetched, combined as `buildBalanceResult` does |
| Aggregator.BatchSlots | internal/adapters/provider/adapter.go:142-177 | exactly one slot per request, and slot i answers request i against the caches the earlier requests left |
| Aggregator.SlotShape | internal/adapters/provider/adapter.go:155-170 | an error slot has the upper-cased symbol and (undefaulted) fiat, the address, zeros and the error text; a success slot has the defaulted fiat and no error |
| Aggregator.UnknownSymbolSlot | internal/adapters/provider/adapter.go:155-167 | an unknown symbol gives the "provider not found for symbol: …" slot and leaves the caches as they were for the next request |
| Retry.AtMostThreeAttempts | internal/adapters/crypto/providers/bitcoin/provider.go:57 | only the first three attempts affect the result and the reconnects |
| Retry.RunFrom | internal/adapters/crypto/providers/bitcoin/provider.go:56-79 | the loop never invents an outcome: an error is the one carried in or some remaining attempt's reply, and a success is some remaining attempt's reply or the zero balance when no error was recorded |
| Retry.ReconnectsFrom | internal/adapters/crypto/providers/bitcoin/provider.go:57-74 | at most one reconnect per remaining attempt, and none once an attempt succeeds |
| Retry.FirstSuccessWins | internal/adapters/crypto/providers/bitcoin/provider.go:64-67 | the first successful attempt's value is returned; the reconnects are those caused by the attempts before it |
| Retry.ExhaustedReturnsLastError | internal/adapters/crypto/providers/bitcoin/provider.go:69-79 | without a success, the result is the error of the last attempt that queried (later ones found dead handles), or a zero balance with no error if none queried |
| Retry.PlainErrorsNeverReconnect | internal/adapters/crypto/providers/bitcoin/provider.go:72-74 | failures other than cancellations and deadlines cause no reconnect |
| Retry.TwoTimeoutsThenSuccess | internal/adapters/crypto/providers/litecoin/adapter.go:61-84 | two timeouts then a success return the value after exactly two reconnects |
| ElectrumWallet.Reversed | internal/adapters/crypto/providers/bitcoin/crypto.go:48-50 | element k of the result is element n-1-k of the input |
| ElectrumWallet.ReversedInvolution | internal/adapters/crypto/providers/bitcoin/crypto.go:48-50 | reversing twice is the identity |
| ElectrumWallet.ReverseInPlace | internal/adapters/crypto/providers/bitcoin/crypto.go:48-50 | the two-index swap loop leaves the array reversed |
| ElectrumWallet.Scripthash | internal/adapters/crypto/providers/bitcoin/crypto.go:33-52 | decode and script failures are wrapped with "failed to decode address" and "failed to create script" |
| ElectrumWallet.ScripthashIsReversedDigest | internal/adapters/crypto/providers/bitcoin/crypto.go:47-51 | a scripthash is 64 hex digits: the output script's digest from its last byte to its first |
| ElectrumWallet.AddressToScripthash | internal/adapters/crypto/providers/bitcoin/crypto.go:33-52 | computes `Scripthash`, reversing the digest in place |
| ElectrumWallet.ChainRoots | internal/adapters/crypto/providers/bitcoin/crypto.go:80-104 | depth 3 gives children 0 and 1 (each failure wrapped); any other depth gives the key itself and no change root |
| ElectrumWallet.AddressAt | internal/adapters/crypto/providers/bitcoin/crypto.go:113-115 | an index above 0x7FFFFFFF is `ErrIndexOutOfRange` |
| ElectrumWallet.DeriveChild | internal/adapters/crypto/providers/bitcoin/crypto.go:112-130 | one pass of the derivation loop computes `AddressAt`: the index check, then the child, key and address steps with their failures wrapped |
| ElectrumWallet.CollectSpec | internal/adapters/crypto/providers/bitcoin/crypto.go:111-135 | a stop-at-first-failure loop succeeds iff every step does, yields one result per index in order, and otherwise returns the first failure's error with no partial list |
| ElectrumWallet.Derived | internal/adapters/crypto/providers/bitcoin/crypto.go:106-136 | no root gives an empty list and no error; a success has exactly `count` addresses; a failing child 0 is the error returned |
| ElectrumWallet.DerivedSpec | internal/adapters/crypto/providers/bitcoin/crypto.go:106-135 | with a root, exactly `count` addresses with element j from child j, or the first failing index's error |
| ElectrumWallet.BeyondUint32Rejected | internal/adapters/crypto/providers/litecoin/crypto.go:120-122 | more than 2^31 indices end in `ErrIndexOutOfRange` |
| ElectrumWallet.DeriveAddresses | internal/adapters/crypto/providers/bitcoin/crypto.go:106-136 | the loop's result is `Derived`: no root gives an empty list and no error |
| ElectrumWallet.DeriveWallet | internal/adapters/crypto/providers/bitcoin/crypto.go:54-78 | the result is `WalletAddresses` |
| ElectrumWallet.WalletAddresses | internal/adapters/crypto/providers/bitcoin/crypto.go:54-78 | an unparsable key fails with "bad xpub"; a success has `externalCount` external addresses and either `changeCount` change addresses or none |
| ElectrumWallet.BadXpub | internal/adapters/crypto/providers/litecoin/crypto.go:64-67 | an unparsable key fails with "bad xpub" before any derivation |
| ElectrumWallet.NonAccountKeyHasNoChange | internal/adapters/crypto/providers/bitcoin/crypto.go:95-109 | a key not at depth 3 derives external addresses from itself and no change addresses, whatever the change count |
| ElectrumWallet.AccountKeyWallet | internal/adapters/crypto/providers/litecoin/crypto.go:93-101 | an account key yields `externalCount` addresses from child 0 and `changeCount` from child 1, each in index order |
| ElectrumWallet.AddressSats | internal/adapters/crypto/providers/bitcoin/crypto.go:167-181 | a scripthash failure is returned unwrapped |
| ElectrumWallet.GetAddressBalance | internal/adapters/crypto/providers/bitcoin/crypto.go:167-181 | computes `AddressSats`: confirmed plus unconfirmed, with server errors wrapped |
| ElectrumWallet.TotalSats | internal/adapters/crypto/providers/bitcoin/crypto.go:153-162 | a total exists only if every address's lookup succeeded; a failing first address's error is the result |
| ElectrumWallet.XpubBalance | internal/adapters/crypto/providers/bitcoin/crypto.go:153-165 | succeeds exactly when the satoshi total does, and fails with the total's error |
| ElectrumWallet.XpubBalanceInSatoshis | internal/adapters/crypto/providers/bitcoin/crypto.go:164 | a balance in whole coins times 10^8 is exactly the satoshi total |
| ElectrumWallet.GetXpubBalance | internal/adapters/crypto/providers/bitcoin/crypto.go:153-165 | the summing loop's result is `XpubBalance`: the satoshi total divided by 10^8, or the first failure |
| ElectrumWallet.RunningTotalExtends | internal/adapters/crypto/providers/bitcoin/crypto.go:156-161 | when the addresses before k have a total and address k's lookup succeeds, the total up to k is that total plus k's amount |
| ElectrumWallet.RunningTotalStops | internal/adapters/crypto/providers/bitcoin/crypto.go:157-160 | when the addresses before k have a total and address k's lookup fails, the whole total fails with k's error |
| ElectrumWallet.TotalSatsConcat | internal/adapters/crypto/providers/bitcoin/crypto.go:156-162 | the total over a concatenation succeeds iff both parts do, and is then their sum; when the first part succeeds and the second fails, the result is the second part's error |
| ElectrumWallet.TotalSatsAllOrNothing | internal/adapters/crypto/providers/litecoin/crypto.go:167-173 | the total succeeds iff every lookup does; otherwise it is the first failing address's error |
| ElectrumWallet.UniformBalance | internal/adapters/crypto/providers/bitcoin/crypto.go:164 | n addresses of s satoshis each give n·s/10^8 coins |
| ElectrumWallet.UniformTotal | internal/adapters/crypto/providers/bitcoin/crypto.go:156-162 | n addresses of s satoshis each total n·s satoshis |
| ElectrumWallet.AddressList | internal/adapters/crypto/providers/bitcoin/provider.go:46-52 | the memoised list is the external addresses followed by the change addresses |
| ElectrumWallet.ElectrumClient.constructor | internal/adapters/crypto/providers/bitcoin/provider.go:84 | a client is bound to the server address it was dialled with |
| Bitcoin.Adapter.constructor | internal/adapters/crypto/providers/bitcoin/provider.go:32-39 | an empty memo and one installed connection |
| Bitcoin.Adapter.ConnectWithRetry | internal/adapters/crypto/providers/bitcoin/provider.go:82-95 | returns only after installing a fresh client for the server; the memo is untouched |
| Bitcoin.Adapter.GetBalance | internal/adapters/crypto/providers/bitcoin/provider.go:41-80 | one derivation per new xpub and none for a memoised one; a derivation failure is returned with nothing memoised and no reconnect; otherwise the result is the retry run over the list, and the reconnect count is the run's |
| Bitcoin.Adapter.AddressesFor | internal/adapters/crypto/providers/bitcoin/provider.go:42-54 | the memo hit, or a derivation memoised only on success; the memo stays transparent |
| Bitcoin.Adapter.TryOnce | internal/adapters/crypto/providers/bitcoin/provider.go:58-76 | one pass of the retry loop: a shut-down client costs a reconnect; a success ends the loop; a failure becomes the last error and costs a reconnect exactly when it is a cancellation or a deadline; the memo is untouched |
| Bitcoin.Adapter.BalanceWithRetry | internal/adapters/crypto/providers/bitcoin/provider.go:56-79 | the loop's result and reconnects are those of `Retry.Run` over the attempts; a shut-down client costs a reconnect and the attempt |
| Litecoin.Adapter.constructor | internal/adapters/crypto/providers/litecoin/adapter.go:37-45 | the network flag is kept; an empty memo and one connection |
| Litecoin.Adapter.ConnectWithRetry | internal/adapters/crypto/providers/litecoin/adapter.go:87-100 | returns only after installing a fresh client for the server |
| Litecoin.Adapter.GetBalance | internal/adapters/crypto/providers/litecoin/adapter.go:47-85 | as for Bitcoin, with the adapter's network flag passed to both the derivation and the lookups |
| Litecoin.Adapter.AddressesFor | internal/adapters/crypto/providers/litecoin/adapter.go:48-59 | the memo hit, or a derivation memoised only on success |
| Litecoin.Adapter.TryOnce | internal/adapters/crypto/providers/litecoin/adapter.go:62-81 | one pass of the retry loop, as for Bitcoin, with the adapter's network flag |
| Litecoin.Adapter.BalanceWithRetry | internal/adapters/crypto/providers/litecoin/adapter.go:61-84 | the loop's result and reconnects are those of `Retry.Run` over the attempts |
| Ethereum.HexAddressLength | internal/adapters/crypto/providers/ethereum/adapter.go:50 | an accepted address has 40 characters, or 42 with a 0x prefix |
| Ethereum.PrefixOptional | internal/adapters/crypto/providers/ethereum/adapter.go:50 | 40 hex digits are accepted bare or after `0x` or `0X`; 39 are not |
| Ethereum.IsHexAddress | internal/adapters/crypto/providers/ethereum/adapter.go:50 | an accepted address has 40 characters, or 42 with a 0x prefix, and every character after the prefix is a hex digit |
| Ethereum.RpcClient.constructor | internal/adapters/crypto/providers/ethereum/adapter.go:95 | a client is bound to its URL |
| Ethereum.InEther | internal/adapters/crypto/providers/ethereum/adapter.go:69-77 | the conversion succeeds exactly when the node answered; errors pass through |
| Ethereum.InEtherExact | internal/adapters/crypto/providers/ethereum/adapter.go:69-77 | a balance in ether times 10^18 is the wei balance |
| Ethereum.DisconnectedBurnsFirstAttempt | internal/adapters/crypto/providers/ethereum/adapter.go:58-62 | a disconnected adapter spends attempt 0 on a reconnect and queries at most twice |
| Ethereum.ConnectedPlainFailuresKeepConnection | internal/adapters/crypto/providers/ethereum/adapter.go:80-85 | a connected adapter whose failures are not cancellations or deadlines never reconnects |
| Ethereum.Adapter.constructor | internal/adapters/crypto/providers/ethereum/adapter.go:41-47 | connected with a client before returning |
| Ethereum.Adapter.ConnectWithRetry | internal/adapters/crypto/providers/ethereum/adapter.go:93-119 | returns only connected with a fresh client |
| Ethereum.Adapter.GetClient | internal/adapters/crypto/providers/ethereum/adapter.go:121-128 | no client exactly when not connected |
| Ethereum.Adapter.Close | internal/adapters/crypto/providers/ethereum/adapter.go:130-138 | with a client, clears it and the connection; without one, changes nothing |
| Ethereum.Adapter.TryOnce | internal/adapters/crypto/providers/ethereum/adapter.go:58-89 | one pass of the retry loop: a missing client costs a reconnect; a success ends the loop; a failure becomes the last error and costs a reconnect exactly when it is a cancellation or a deadline |
| Ethereum.Adapter.QueryWithRetry | internal/adapters/crypto/providers/ethereum/adapter.go:56-90 | the loop's result and reconnects are those of `Retry.Run` over the attempts, and the adapter ends connected |
| Ethereum.Adapter.GetBalance | internal/adapters/crypto/providers/ethereum/adapter.go:49-91 | a non-hex address fails at once with no attempt; otherwise the result and reconnects are the retry run's, and the adapter ends connected |
| Solana.RpcClient.constructor | internal/adapters/crypto/providers/solana/provider.go:87 | a client is bound to its URL |
| Solana.InSol | internal/adapters/crypto/providers/solana/provider.go:66-69 | the conversion succeeds exactly when the node answered; errors pass through |
| Solana.InSolExact | internal/adapters/crypto/providers/solana/provider.go:66-69 | a balance in SOL times 10^9 is the lamport balance |
| Solana.DisconnectedBurnsFirstAttempt | internal/adapters/crypto/providers/solana/provider.go:56-60 | a disconnected adapter spends attempt 0 on a reconnect and queries at most twice |
| Solana.ConnectedPlainFailuresKeepConnection | internal/adapters/crypto/providers/solana/provider.go:72-77 | a connected adapter whose failures are not cancellations or deadlines never reconnects |
| Solana.Adapter.constructor | internal/adapters/crypto/providers/solana/provider.go:40-46 | connected with a client before returning |
| Solana.Adapter.ConnectWithRetry | internal/adapters/crypto/providers/solana/provider.go:85-109 | returns only connected with a fresh, probed client |
| Solana.Adapter.GetClient | internal/adapters/crypto/providers/solana/provider.go:111-118 | no client exactly when not connected |
| Solana.Adapter.Close | internal/adapters/crypto/providers/solana/provider.go:120-125 | always clears the client and the connection |
| Solana.Adapter.TryOnce | internal/adapters/crypto/providers/solana/provider.go:56-80 | one pass of the retry loop: a missing client costs a reconnect; a success ends the loop; a failure becomes the last error and costs a reconnect exactly when it is a cancellation or a deadline |
| Solana.Adapter.QueryWithRetry | internal/adapters/crypto/providers/solana/provider.go:54-82 | the loop's result and reconnects are those of `Retry.Run` over the attempts, and the adapter ends connected |
| Solana.Adapter.GetBalance | internal/adapters/crypto/providers/solana/provider.go:48-83 | an undecodable address fails at once with no attempt; otherwise the result and reconnects are the retry run's, and the adapter ends connected |
| KaspaWallet.AddressAt | internal/adapters/crypto/providers/kaspa/crypto.go:55-81 | an index yields an address iff derivation, public key, the 33-byte length and encoding all succeed; the payload is the key minus its first byte (32 bytes) |
| KaspaWallet.SuccessesSpec | internal/adapters/crypto/providers/kaspa/crypto.go:50-83 | the lenient loop keeps exactly the succeeding indices, at most `count`, strictly increasing, each with its own address |
| KaspaWallet.Successes | internal/adapters/crypto/providers/kaspa/crypto.go:46-84 | the skipping loop keeps at most one address per index |
| KaspaWallet.Derived | internal/adapters/crypto/providers/kaspa/crypto.go:51-53 | fails, with `ErrIndexOutOfRange`, iff more than 2^31 indices are asked for |
| KaspaWallet.Derive | internal/adapters/crypto/providers/kaspa/crypto.go:46-84 | the skipping loop's result is `Derived` |
| KaspaWallet.DeriveAddresses | internal/adapters/crypto/providers/kaspa/crypto.go:20-45 | the result is `WalletAddresses` |
| KaspaWallet.WalletAddresses | internal/adapters/crypto/providers/kaspa/crypto.go:20-45 | an unparsable key fails with "invalid xpub"; a success has at most `nRecv` receive and `nChange` change addresses, and the counts are within 2^31 |
| KaspaWallet.BranchesFixed | internal/adapters/crypto/providers/kaspa/crypto.go:21-44 | succeeds iff the key parses and both branches derive; the lists come from children 0 and 1 whatever the depth |
| KaspaWallet.AllIndicesSucceed | internal/adapters/crypto/providers/kaspa/crypto.go:50-83 | when no index fails, element j is index j's address and none is lost |
| Kaspa.PostJson | internal/adapters/crypto/providers/kaspa/adapter.go:88-113 | succeeds iff the request is built and sent, the status is 200 and the body reads; any other status is `ErrUnexpectedStatus` with the code and body |
| Kaspa.PostJsonRequest | internal/adapters/crypto/providers/kaspa/adapter.go:88-113 | the step-by-step rendering of `postJSON`; its result is `PostJson`'s |
| Kaspa.RequestPayload | internal/adapters/crypto/providers/kaspa/adapter.go:66-68 | the request object has the single key `addresses` holding the whole list |
| Kaspa.FetchBalances | internal/adapters/crypto/providers/kaspa/adapter.go:65-86 | a marshal failure is wrapped with "failed to marshal payload"; a success means the payload was marshalled and sent and the explorer answered 200 |
| Kaspa.FetchAsksForTheList | internal/adapters/crypto/providers/kaspa/adapter.go:65-86 | the list is posted to `/addresses/balances`; post failures pass through unwrapped |
| Kaspa.TotalKasIsScaledSompi | internal/adapters/crypto/providers/kaspa/adapter.go:53-56 | adding each balance divided by 10^8 equals the sompi total divided by 10^8 |
| Kaspa.TotalKas | internal/adapters/crypto/providers/kaspa/adapter.go:53-57 | non-negative balances give a non-negative total |
| Kaspa.SumBalances | internal/adapters/crypto/providers/kaspa/adapter.go:53-57 | the summing loop computes `TotalKas` |
| Kaspa.AddressList | internal/adapters/crypto/providers/kaspa/adapter.go:35-41 | the memoised list is the receive addresses followed by the change addresses |
| Kaspa.DeriveList | internal/adapters/crypto/providers/kaspa/adapter.go:35-41 | the derivation step of `GetBalance` computes `AddressList`: receive addresses followed by change addresses, or the derivation's error |
| Kaspa.AddressListBound | internal/adapters/crypto/providers/kaspa/adapter.go:35-41 | a memoised list has at most 2000 addresses |
| Kaspa.Adapter.constructor | internal/adapters/crypto/providers/kaspa/adapter.go:22-27 | an empty memo |
| Kaspa.Adapter.FetchBalancesFor | internal/adapters/crypto/providers/kaspa/adapter.go:65-86 | the step-by-step rendering of `fetchBalances`; its result is `FetchBalances`'s, with marshal and unmarshal failures wrapped |
| Kaspa.Adapter.GetBalance | internal/adapters/crypto/providers/kaspa/adapter.go:29-58 | one derivation per new kpub; a derivation error is returned with nothing memoised; a new list is memoised before the fetch, so a fetch failure leaves it memoised; the balance is `TotalKas` of the entries |
| Kaspa.Adapter.AddressesFor | internal/adapters/crypto/providers/kaspa/adapter.go:29-46 | the memo hit, or a derivation memoised only on success |

## Left out

- Locking, goroutines and the `WaitGroup`: the batch runs sequentially, in request order, at a single `now`.
- The background ticker of the cache: sweeps are explicit calls of `CleanupExpiredItems`.
- Sleeps, request timeouts, logging and the `Timestamp` of a result: wall-clock effects.
- Floating point: balances, rates and conversions are exact `real`s. The `big.Float` wei conversion and IEEE rounding are not modelled.
- Text.Upper: maps only ASCII letters; Go's `strings.ToUpper` also maps other Unicode letters.
- ElectrumWallet.TotalSats: sums unbounded integers. The source adds `int64(confirmed) + int64(unconfirmed)` (bitcoin/crypto.go:180, litecoin/crypto.go:191) and accumulates an `int64` total, both of which can overflow. The model takes the Electrum amounts as integers (`ElectrumBalance(confirmed: int, unconfirmed: int)`), so any truncation in the `int64` conversion of the reply's amounts is not modelled either.
- ElectrumWallet.Derived, KaspaWallet.Derived: the counts are `nat`. Go's `make(..., 0, count)` panics on a negative count, which the model cannot express; every caller passes the constants 10 and 1000.
- Cryptography and encodings: BIP32, secp256k1, the Taproot tweak, Hash160, SHA-256, bech32, base58 and JSON are function-valued parameters. The model assumes they are deterministic. The Litecoin code's use of Bitcoin network parameters is therefore not visible.
- Transports are oracles indexed by attempt number: the Electrum TCP client, ethclient, the Solana RPC client and `net/http`. The rate service and the per-chain providers are oracles as well.
- `connectWithRetry` loops forever against an unreachable server. The model hands it a finite schedule of dial outcomes that contains a success. A dial that comes up but fails its probe counts as a refused dial.
- Bitcoin.Adapter.GetBalance: the adapter calls the derivation and `getXpubBalance` with one argument fewer than the functions declare, so the source does not compile as written. The model uses the declared signatures with mainnet.
- Bitcoin.Adapter: `getClient` is a locked read of the client field, modelled as reading the field; `IsShutdown` of the installed client is an oracle per attempt.
- Litecoin.Adapter: `getClient` and `IsShutdown` are modelled as for Bitcoin.
- Ethereum: `HexToAddress` is not modelled; the node's answer is a function of the address string.
- The REST glue, configuration, bootstrap and the CORS middleware are not part of this model.
