# pump.fun launcher — a Dafny model

The launcher creates a token on the pump.fun bonding-curve program and buys
into it in one Solana transaction. It does four things, and this project
models each of them:

- It derives program addresses (PDAs): seven fixed seed lists and their owning programs (`accounts.dfy`, module `Accounts`).
- It encodes instructions: an 8-byte Anchor discriminator followed by Borsh arguments, plus a fixed, flagged account list (`pumpfun.dfy`, module `PumpFun`).
- It handles account layouts and prices, with `types.dfy` (module `Types`) covering:
  - the Borsh layouts of `BuyData`, `CreateData` and the 113-byte `GlobalAccount`;
  - the constant-product price of the initial buy, on exact integers.
- It orchestrates the launch (`rpc_client.dfy`, module `Services`):
  - `RPCClient` is a class whose `mint` field is set by `AddCreateInstruction`.
  - Three retry loops wrap the remote calls: at most three attempts, sleeping i + 1 seconds after failed attempt i.
  - It assembles the `[create, create-associated-token-account, buy]` transaction with the user as fee payer.
  - It signs with a two-key lookup and submits.

Supporting modules:

- `bytes.dfy` (`Bytes`): little-endian integers with their round trips.
- `solana.dfy` (`Solana`): keys, account metas, instructions and the well-known program addresses.
- `retry.dfy` (`Retry`): the retry policy as functions of a scripted reply sequence.
- `wrappers.dfy`: `Option` and `Result`.

Code the launcher calls but does not contain is passed in as function values. This covers SHA-256, `solana.FindProgramAddress`, the associated-token-account instruction builder, ed25519 signing, and the float slippage buffer. It is either given as parameters of the pure functions or gathered into the `Services.Library` record.

The remote node is a `Services.Node` object. The c-th call of each kind receives the c-th reply of a script, and every request is logged. The client records its sleeps in `RPCClient.sleeps` instead of sleeping.

Each derivation is a Dafny function of its arguments, so identical arguments yield identical results by construction.

Behaviour of the code worth knowing, each stated by a member below:

- Every RPC error is retried alike, up to three times; no error is treated as permanent (`Retry.RetryStopsAtFirstSuccess`).
- For a positive payment, the "negative token amount" error occurs exactly when the virtual token reserves are zero (`Types.NegativeOnlyWithoutTokenReserves`); a payment that outweighs the reserves does not cause it. The "token amount overflow" branch can never be taken (`Types.GetInitialBuyPrice`).
- `LaunchToken` returns only an error; the signature is logged, not returned.

## Model

| member | source | states |
|---|---|---|
| Bytes.FromLeLeBytes | internal/types/main.go:10-13 | Reading back the n little-endian bytes of any x < 256^n gives x (the u64 fields' encoding round trip). |
| Bytes.LeBytesFromLe | internal/types/main.go:34-44 | Re-encoding a decoded little-endian field to its width gives back the same bytes. |
| Accounts.ProgramOnlyDerivations | internal/programs/accounts.go:8-40 | The mint authority and global derivations depend on the program alone, with seeds ["mint-authority"] and ["global"]; the two seed lists differ. |
| Accounts.AssociatedBondingCurveIsTokenAccount | internal/programs/accounts.go:42-80 | Deriving the associated bonding curve for (mint, bondingCurve) is the same search as deriving the associated token account of wallet bondingCurve for mint: seeds [owner, token program, mint] under the associated-token program. |
| Accounts.LaunchSearchesDistinct | internal/programs/accounts.go:8-90 | For a launch of `mint` by `user`, each of the seven derivations is one listed (seed list, program) search: ["mint-authority"], ["bonding-curve", mint], ["global"] and ["creator-vault", user] under pump.fun; [bondingCurve, token program, mint] and [user, token program, mint] under the associated-token program; ["metadata", mpl, mint] under mpl. The seven searches are pairwise distinct, except that the user's associated token account and the associated bonding curve coincide exactly when the user is the bonding curve. |
| Accounts.SeedListsInjective | internal/programs/accounts.go:19-90 | Distinct mints give distinct bonding-curve, associated-token, metadata and creator-vault seed lists (injectivity of the inputs, not of the addresses). |
| Accounts.SeedListsWithinLimits | internal/programs/accounts.go:8-90 | Every seed list has at most 16 seeds of at most 32 bytes, so a derivation can fail only by exhausting the bump search. |
| Types.BorshString | internal/types/main.go:15-20 | A Borsh string is a 4-byte length prefix followed by the string's bytes unchanged. |
| Types.EncodeBuyData | internal/types/main.go:10-13 | Borsh `BuyData` is 16 bytes. |
| Types.EncodeCreateData | internal/types/main.go:15-20 | Borsh `CreateData` is 44 + len(name) + len(symbol) + len(uri) bytes: three length-prefixed strings and a 32-byte creator. |
| Types.DecodeStringOfEncoding | internal/types/main.go:15-20 | Decoding a Borsh string of fewer than 2^32 bytes, followed by anything, returns that string and the rest. |
| Types.CreateDataRoundTrip | internal/types/main.go:15-20 | Decoding an encoded `CreateData` (strings under 2^32 bytes) recovers it. |
| Types.EncodeGlobalAccount | internal/types/main.go:34-44 | The declaration-order Borsh encoding of `GlobalAccount` is 8 + 1 + 32 + 32 + 5·8 = 113 bytes. |
| Types.DecodeGlobalAccount | internal/types/main.go:34-44 | Decoding fails exactly when fewer than 113 bytes are given; otherwise, with a canonical bool byte, re-encoding the result gives the first 113 bytes. |
| Types.GlobalAccountRoundTrip | internal/types/main.go:34-44 | Decoding the encoding of any `GlobalAccount`, followed by any trailing bytes, recovers the record. |
| Types.BufferedAmount | internal/types/main.go:54-57 | The buffered payment is floor(21·solAmount/20), i.e. solAmount + floor(solAmount/20). |
| Types.RemainingTokens | internal/types/main.go:59-67 | The remaining-token term is the least r with r·n > k, i.e. floor(k/n) + 1, one above the exact quotient when n divides k. |
| Types.GetInitialBuyPrice | internal/types/main.go:46-87 | A zero payment yields 0; any result is at most the real token reserves; the "token amount overflow" error never occurs. |
| Types.CurveQuoteExists | internal/types/main.go:59-70 | vToken − (floor(vSol·vToken/(vSol+eff)) + 1) is the largest sale that keeps the reserve product strictly above k. |
| Types.InitialBuyPriceOnCurve | internal/types/main.go:46-87 | For a positive payment the price is that curve quote: "negative token amount" when it is below zero, otherwise the quote clamped to the real reserves. |
| Types.NegativeOnlyWithoutTokenReserves | internal/types/main.go:66-75 | For a positive payment the "negative token amount" error occurs exactly when the virtual token reserves are zero. |
| Types.InitialBuyPriceMonotone | internal/types/main.go:55-86 | For a fixed state a larger payment succeeds whenever a smaller positive one does, and successful prices never decrease. |
| Types.GoldenInitialBuyPrice | internal/types/main.go:46-87 | With the program's launch reserves as set on chain (30 SOL = 3e10 lamports virtual, 1.073e15 virtual and 7.931e14 real token units), a 0.01 SOL payment buys 375 418 603 488 token units. |
| Types.GoldenInitialBuyPriceLargeReserves | internal/types/main.go:46-87 | With 3e13 lamports of virtual SOL reserves and the same token reserves, the same payment buys 375 549 868 token units. |
| PumpFun.Discriminator | internal/programs/pumpfun.go:23-29 | A discriminator is the first 8 bytes of SHA-256 of "global:" + the instruction name. |
| PumpFun.NewBuyIx | internal/programs/pumpfun.go:13-55 | The buy instruction targets pump.fun. Its 24-byte payload is the "buy" discriminator, then the amount and the maximum SOL cost as u64 little-endian. It has 12 accounts in the source's order, with global and bonding curve derived inside. The only signer is the user (index 6), and the writable positions are exactly {1, 3, 4, 5, 6, 9}. |
| PumpFun.NewCreateIx | internal/programs/pumpfun.go:57-100 | The create instruction targets pump.fun. Its payload is the "create" discriminator followed by the Borsh `CreateData`, 52 + len(name) + len(symbol) + len(uri) bytes in all. It has 14 accounts in the source's order. The signers are exactly mint (0) and user (7), and the writable positions are exactly {0, 3, 4, 6, 7}: global is writable, the bonding curve is not. |
| PumpFun.BuyAmountOnlyChangesItsBytes | internal/programs/pumpfun.go:23-29 | Changing only the amount leaves the discriminator and bytes 16.. unchanged, and bytes 8..16 differ exactly when the amounts do. |
| PumpFun.CreatePayloadDecodes | internal/programs/pumpfun.go:64-67 | The create payload after its discriminator decodes back to the create arguments. |
| Retry.Attempts | internal/services/rpc_client.go:73-80 | A retry loop makes between one and three calls. |
| Retry.Backoff | internal/services/rpc_client.go:78-79 | The sleep after failed attempt i (0-based) is i + 1 seconds. |
| Retry.RetryStopsAtFirstSuccess | internal/services/rpc_client.go:73-83 | Every attempt before the last one made failed. The loop fails exactly when none of the first three replies succeeds, and then it made three calls and slept 1, 2 and 3 seconds. On success it slept once per failure. |
| Retry.RetryTransparent | internal/services/rpc_client.go:108-128 | Succeeding on the third attempt yields the same reply as succeeding on the first; only the call count (3 against 1) and the sleeps ([1, 2] against []) differ. |
| Services.SignerKeysOf | internal/services/rpc_client.go:95-106 | The keys an instruction needs signatures from are exactly the keys of its signer-flagged accounts. |
| Services.SignAll | internal/services/rpc_client.go:95-106 | Signing succeeds exactly when the getter has a private key for every required key; each signature is made with that key; otherwise the reported key is required and unresolved. |
| Services.Sign | internal/services/rpc_client.go:95-106 | A transaction signs exactly when the fee payer and every instruction signer resolve; signing leaves instructions, blockhash and payer unchanged. |
| Services.SignerFor | internal/services/rpc_client.go:95-103 | The lookup returns the user's private key for the user's key, the mint's for the mint's key, and nothing for any other key. |
| Services.GlobalAccountFromReply | internal/services/rpc_client.go:211-230 | A failed fetch, a missing account and empty data each give their own error before any decoding. Non-empty data succeeds exactly when it holds at least 113 bytes, and then it is the decoded layout. |
| Services.CreateIxFor | internal/services/rpc_client.go:176-190 | The create instruction's arguments decode to (name, symbol, metadata URI, creator = user). The mint is account 0, the user account 7, and both are the only signers. |
| Services.BuyIxFor | internal/services/rpc_client.go:134-174 | A fetch failure or a price failure is passed on, and the instruction is built exactly when both succeed. The buy amount is then the curve price of `solAmount`, the cost cap the slippage-buffered `solAmount`, the fee recipient (index 1) the global account's, the mint index 2 and the user index 6 and only signer. |
| Services.BuyIxForAccounts | internal/services/rpc_client.go:150-169 | The assembled buy instruction carries the "buy" discriminator and names, in order, the global account, the fetched fee recipient, the mint, the bonding curve, the associated bonding curve, the user's associated token account, the user, the system and token programs, the user's creator vault, the event authority and the program. |
| Services.CreateAndBuyShareCurveAccounts | internal/services/rpc_client.go:134-174 | The create and buy instructions of one launch name the same mint, global account, bonding curve, associated bonding curve, user and program. |
| Services.LaunchSignersResolve | internal/services/rpc_client.go:85-106 | If the associated-token-account instruction asks only the user or the mint to sign, the launch transaction always signs. |
| Services.RPCClient.constructor | internal/services/rpc_client.go:23-27 | A new client holds its node, user wallet and libraries, with no mint and no sleeps yet. |
| Services.RPCClient.AddCreateInstruction | internal/services/rpc_client.go:176-191 | The client's mint becomes the fresh wallet and nothing else changes. The instruction is built with creator = user and uri = metadataUri. |
| Services.RPCClient.GetGlobalAccount | internal/services/rpc_client.go:193-231 | A failed derivation returns before any call. Otherwise the loop requests the global account at commitment Confirmed, once per attempt. The result is the post-fetch checks applied to the loop's outcome, and the sleeps are the retry policy's. |
| Services.RPCClient.AddBuyInstruction | internal/services/rpc_client.go:134-174 | The result is the buy instruction assembled from the fetched global account, with the fetch's requests and sleeps. |
| Services.RPCClient.GetLatestBlockhashWithRetry | internal/services/rpc_client.go:72-83 | It requests at commitment Processed once per attempt and returns the retry outcome, sleeping per the policy. |
| Services.RPCClient.SendTransactionWithRetry | internal/services/rpc_client.go:108-128 | It submits the same transaction with the same options once per attempt and returns the retry outcome, sleeping per the policy. |
| Services.RPCClient.LaunchToken | internal/services/rpc_client.go:52-132 | The mint becomes the fresh wallet. A failed buy, blockhash or signing step returns its error with nothing sent, and the sleeps are those of the loops that ran. The transaction-creation error never occurs. Otherwise the signed `[create, associated-token-account, buy]` transaction, paid by the user, is sent with preflight on, commitment Processed and the blockhash's slot as minimum. The result reports the send outcome, and the sleeps are those of all three loops. Signing cannot fail when the associated-token-account instruction asks only the user or the mint to sign. |

## Left out

- internal/pinata/pinata.go (the metadata upload) and cmd/main/main.go (configuration, timing, the float conversion of the buy size) are not part of this model.
- `NewRPCClient` (reading the .env file, parsing the base58 private key) and every log line are not modelled.
- The file defining `PUMP_FUN_PROGRAM` is not part of this model; the program's published address 6EF8rrecthR5Dkzon8Nwu78hRvfCKubJ14M5uBEwF6P is used, as bytes.
- Library internals are represented by function values: SHA-256, the bump search and off-curve test of `FindProgramAddress`, the associated-token-account instruction builder, and ed25519 signing. As a result:
  - the concrete discriminator bytes are not derived;
  - derived addresses are related only through their seed lists and programs.
- The 10% float buffer `uint64(float64(solAmount) * 1.1)` is an opaque function of the `Library` record, because float64 rounding is not modelled. It is distinct from the 5% integer buffer inside the price.
- Transaction message compilation and serialization (account deduplication and ordering) are not modelled. A transaction is its instruction list, blockhash, fee payer and signatures. Its required signers are the fee payer followed by each instruction's signer-flagged keys.
- Real network calls, their latency, context deadlines (30 s in `LaunchToken`, 3 s in `AddBuyInstruction`) and `time.Sleep` are not modelled. Replies are scripted, and sleeps are recorded as a list of seconds. Whether a deadline expires during the fetch loop's 1 + 2 second sleeps is therefore outside the model.
- Services.RPCClient.LaunchToken: the "failed to add create instruction" error path is absent because `AddCreateInstruction` never fails. The fresh mint wallet is a parameter instead of being generated randomly.
- Services.GlobalAccountFromReply: the nil-result check follows the client code. Whether the RPC library ever returns a nil result without an error is not modelled: if it reports a missing account as an error instead, that account is retried and ends as `FetchFailed`, and `AccountNotFound` is never produced.
- Types.DecodeGlobalAccount: the Borsh library's treatment of a bool byte other than 0 or 1 is not known here. It is decoded as true, and the re-encoding property is stated only for canonical bytes.
- Types.BorshString: the length prefix holds the low 32 bits of the length. Round trips are stated only for strings under 2^32 bytes, which is all a Go string sent in a transaction can hold in practice.
