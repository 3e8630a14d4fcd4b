# Test helpers of an Ethereum contracts boiler-plate, in Dafny

This project models the self-contained logic in `tests/utils/helpers.ts`:

- **`Web3DebugProvider`**: a JSON-RPC provider wrapper that numbers every outbound call, logs it, and forwards it to the wrapped transport. It is the class `DebugProvider.Web3DebugProvider`. Its fields are `reqCounter` and `reqLog`. A ghost history `calls` records every call made. `Valid()` ties the fields to that history: the log equals `Replay(calls)`, the log a fresh provider holds after those calls.
- **Construction** picks `sendAsync` over `send` and the endpoint `host` over `path`. It fails with `INVALID_ARGUMENT` when neither send function exists. This is `Construct`, with the class's static `Create` on top of it.
- **Reply handling**: a transport error, then a response `error` member (section 5.1 of the JSON-RPC 2.0 Specification), then `result` (section 5). This is `HandleReply`. It is proved to invert the encoding of JSON-RPC 2.0 success and error responses.
- **Pure helpers**, in module `Helpers`:
  - `RevertError`
  - `compareAddr`, taken over naturals
  - byte-wise `xor`
  - the ERC-165 interface identifier `interfaceIdOf`: the XOR of all function selectors, as a `reduce` with no initial value
  - the signature-type suffix rule of `ethSign`

JavaScript values are the datatype `DebugProvider.Value`, with JavaScript truthiness (`Truthy`). `Null` stands for both `null` and `undefined`. The transport's single reply is an input: the two arguments of the completion callback, and whether the callback ran synchronously inside the promise executor.

Files:

- `wrappers.dfy`: `Option` and `Result`.
- `helpers.dfy`: module `Helpers`.
- `debug_provider.dfy`: module `DebugProvider`. It ends with `ExampleSession`, a client that uses only the contracts.

## Model

| member | source | states |
|---|---|---|
| `Helpers.RevertError` | tests/utils/helpers.ts:19-22 | the message always starts with the revert prefix, and equals the bare prefix exactly when the reason is missing or empty |
| `Helpers.RevertReasonRoundTrip` | tests/utils/helpers.ts:19-22 | a non-empty reason can be read back out of the message; a missing or empty reason leaves none |
| `Helpers.CompareAddr` | tests/utils/helpers.ts:112-126 | returns -1, 0 or 1 exactly when the first address is numerically smaller than, equal to or greater than the second |
| `Helpers.CompareAddrAntisymmetric` | tests/utils/helpers.ts:119-125 | swapping the operands negates the comparison |
| `Helpers.CompareAddrTransitive` | tests/utils/helpers.ts:119-125 | the order is transitive, so it can serve as a sort comparator |
| `Helpers.Xor` | tests/utils/helpers.ts:128-132 | the result has the first operand's length; byte i is `a[i] ^ b[i]`, and a missing `b[i]` counts as 0 |
| `Helpers.XorCommutative` | tests/utils/helpers.ts:131 | for operands of equal length the XOR does not depend on operand order |
| `Helpers.XorSelfInverse` | tests/utils/helpers.ts:131 | XOR-ing the same operand twice restores the first operand |
| `Helpers.Signatures` | tests/utils/helpers.ts:135-137 | each selector occurs exactly as often as there are entries whose key contains `(` and that carry it, and the first selector belongs to the first such entry |
| `Helpers.XorFoldColumns` | tests/utils/helpers.ts:139 | folding `xor` over the selectors keeps the accumulator's length; byte i becomes the XOR of byte i of every operand |
| `Helpers.ReduceXor` | tests/utils/helpers.ts:139 | an empty list is an error (`reduce` with no initial value); otherwise byte i of the result is the XOR of byte i of all selectors, over the first selector's length |
| `Helpers.ReduceXorSingle` | tests/utils/helpers.ts:139 | a single selector is its own identifier |
| `Helpers.ColumnXorPermutation` | tests/utils/helpers.ts:139 | column XORs depend only on the multiset of selectors, not on their order |
| `Helpers.ReduceXorPermutation` | tests/utils/helpers.ts:139 | reordering selectors whose first element keeps its length (every selector is 4 bytes) gives the same interface identifier |
| `Helpers.InterfaceIdOf` | tests/utils/helpers.ts:134-140 | fails exactly when no function key is a signature. Otherwise the identifier is as long as the first signature's selector, and byte i is the XOR of byte i of every signature's selector |
| `Helpers.EthSignSuffix` | tests/utils/helpers.ts:109 | the output always ends in `02` or `03`; it is unchanged exactly when the input already did, and otherwise it is the input with `02` appended |
| `Helpers.EthSignSuffixIdempotent` | tests/utils/helpers.ts:109 | applying the suffix rule twice gives the same result as applying it once |
| `DebugProvider.MakeRequest` | tests/utils/helpers.ts:67-72 | the record has version `2.0`, the given id, the method name and the params, and is never the no-request record |
| `DebugProvider.ReplayEntries` | tests/utils/helpers.ts:64-73 | after N calls from a fresh provider the log has N records, and record k holds call k under id k + 1 |
| `DebugProvider.ReplayIdsIncreasing` | tests/utils/helpers.ts:64-73 | ids are strictly increasing in issue order, so none is reused |
| `DebugProvider.HandleReply` | tests/utils/helpers.ts:75-91 | a truthy transport error is the rejection, unchanged. Otherwise a truthy response `error` rejects with its message, code and data. Otherwise the call resolves with `result`. A missing response rejects with the callback's TypeError when the transport called back synchronously, and otherwise never settles |
| `DebugProvider.HandleReplyInvertsResponses` | tests/utils/helpers.ts:76-90 | a JSON-RPC success response resolves with its result. An error response rejects with its message, code and data. A transport error wins over any response |
| `DebugProvider.Endpoint` | tests/utils/helpers.ts:41 | the endpoint is a non-empty `host`, else a non-empty `path`, else `''` |
| `DebugProvider.SelectTransport` | tests/utils/helpers.ts:43-48 | `sendAsync` when present, else `send` when present, else none |
| `DebugProvider.Construct` | tests/utils/helpers.ts:41-57 | fails with `INVALID_ARGUMENT` exactly when the provider is missing or has neither send function; otherwise picks the transport and the endpoint |
| `DebugProvider.ConstructAsWritten` | tests/utils/helpers.ts:41-57 | a missing provider raises a TypeError; any present provider behaves as `Construct` |
| `DebugProvider.MissingProviderRaisesTypeError` | tests/utils/helpers.ts:41-51 | on a missing provider the code as written raises a TypeError, where the intended result is `INVALID_ARGUMENT` |
| `DebugProvider.Web3DebugProvider.constructor` | tests/utils/helpers.ts:33-34 | the counter starts at 0 and the log starts empty |
| `DebugProvider.Web3DebugProvider.Create` | tests/utils/helpers.ts:39-60 | fails exactly as `Construct` does; on success it returns a fresh provider with an empty log and the selected transport and endpoint |
| `DebugProvider.Web3DebugProvider.Send` | tests/utils/helpers.ts:62-93 | the counter grows by one. Exactly one record `{2.0, new counter, method, params}` is appended and earlier records stay as they were, whatever the reply. The outcome is `HandleReply` of the reply |
| `DebugProvider.Web3DebugProvider.GetPastRequest` | tests/utils/helpers.ts:95-100 | an empty log gives the no-request record (id 0, null method and params). Otherwise an index inside the log gives one of its records, and an index past the oldest record gives `undefined` |
| `DebugProvider.Web3DebugProvider.PastRequestIsCall` | tests/utils/helpers.ts:95-100 | index j gives the call made j + 1 calls ago, with id N - j after N calls; 0 gives the latest |
| `DebugProvider.Web3DebugProvider.NoRequestBeforeFirstCall` | tests/utils/helpers.ts:96-98 | before any call, every index gives the no-request record |

## Left out

- `createTestWallet`: mnemonic and HD-path derivation, the environment lookup of the mnemonic, connecting the wallet, and `getSigner`. These are library calls and environment reads.
- The `JsonRpcProvider` superclass and `defineReadOnly`. They are library behaviour. `Endpoint` states only what is handed to the superclass; the optional `network` argument is not modelled.
- The asynchronous transport call and its callback-to-promise bridge. One reply is taken as input, so a transport that calls back twice or never is not modelled. JavaScript promises settle at most once.
- `Web3DebugProvider.Send`: the reply does not depend on the request it answers, because the transport is not modelled. The logged record is the request the transport receives.
- `Web3DebugProvider.GetPastRequest`: the index is a natural number. Negative or fractional JavaScript indices are not modelled.
- `Construct` and `ConstructAsWritten`: a missing provider means `null` or `undefined`. A falsy primitive provider (`0`, `false`, `''`) gets past line 41 and is rejected with `INVALID_ARGUMENT` by the guard at line 51. The model does not represent such providers.
- `HandleReply`: a transport send function that itself throws inside the promise executor is not modelled.
- `Web3DebugProvider.Create`, `Construct` and `SelectTransport`: `hasSendAsync` and `hasSend` stand for function-valued fields. A truthy non-function field makes `.bind` at line 45 or 47 raise a TypeError during construction. That case is not represented.
- `HandleReply`: `new Error(message)` converts the message to a string. The model keeps the raw message value.
- `Member`: member reads on strings and arrays (their `length`, for instance) are not modelled, because only JSON-RPC member names are read.
- `reqCounter` is a JavaScript number. It is modelled as an unbounded integer, since precision loss past 2^53 calls is out of reach.
- Numbers in JSON values are integers. Floating point and NaN are not modelled.
- `ethSign`: hashing (`keccak256`), `arrayify` and `wallet.signMessage` are cryptography from the library. Only the suffix rule is modelled, on the signature string.
- `compareAddr`: hex parsing by `BigNumber.from`, and taking `.address` from a wallet, are not modelled. Addresses are natural numbers already parsed.
- `xor` and `interfaceIdOf`: the `Buffer`, `arrayify` and `hexlify` conversions are not modelled. Values are bytes throughout, so the identifier is returned as bytes, not as a hex string. `getSighash` is not modelled: each function entry carries its selector as input.

## Findings

| source | as written | input that shows it | evidently intended | confidence | as-written member | corrected member |
|---|---|---|---|---|---|---|
| tests/utils/helpers.ts:41-57 | the argument to `super` reads `web3Provider.host` before the `if (web3Provider)` and `!web3Provider` guards run | `new Web3DebugProvider(undefined)` raises a TypeError from reading `host`, not `INVALID_ARGUMENT` | a missing provider is rejected with `INVALID_ARGUMENT`, as the guards at lines 43 and 51 intend | high, not executed | `DebugProvider.ConstructAsWritten` | `DebugProvider.Construct` |
