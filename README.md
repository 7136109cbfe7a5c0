# CyberConnect abstract-account client, modelled in Dafny

This project models the client library for CyberConnect's sponsored
ERC-4337 user operations. The model has two parts.

- **`src/schema.ts`** holds the user-operation schemas. It has two
  `0x`-prefix validators: `hexString` and `hashString`, both the regular
  expression `/^0x.*$/`. It also has the object schemas
  `UserOperationSchema` and `UnsignedUserOperationSchema`.
- **`src/index.ts`** holds the `CyberAbstract` factory:
  - the choice of entry point;
  - the four JSON-RPC request builders: `estimateTransaction`,
    `sponsorUserOperation`, `sendUserOperation` and
    `getUserOperationByHash`;
  - the `sendTransaction` flow: estimate, sponsor, sign, then submit.

## Files

- `wrappers.dfy` (module `Wrappers`): `Option`, where `None` stands for
  JavaScript's `undefined`.
- `js.dfy` (module `Js`): JavaScript values and plain objects.
  - An object is a `map<string, Value>`, so the spread `{ ...a, k: v }` is
    exactly `a + map[k := v]`.
  - `Truthy` gives JavaScript truthiness.
  - `Or` is the `||` operator.
- `regex.dfy` (module `Regex`): a backtracking matcher for the fragment of
  ECMAScript regular expressions that the validators use. The fragment is
  `^`, `$`, literal characters, `.` and `*`, with no flags.
  - `.` does not match a line terminator.
  - `test` tries every start position.
- `schema.dfy` (module `Schema`): the validators, the two operation
  shapes, their encodings as JSON objects, and the two parsers.
- `abstract.dfy` (module `Abstract`): the client.
  - The JSON-RPC transport is an oracle: a total function per remote
    method, from the request sent to the response received.
  - The signer is a function from the message to an optional signature.
  - `SendTransaction` returns the trace of every call it makes, followed by
    its result.

## Model

| member | source | states |
|---|---|---|
| Js.Get | src/index.ts:58 | reading a key gives `undefined` exactly when the key is absent, and otherwise the stored value |
| Js.Or | src/index.ts:58 | `a \|\| b` is `a` when `a` is truthy and `b` otherwise |
| Js.Truthy | src/index.ts:58 | JavaScript truthiness: `undefined`, `null`, `false`, `0` and `""` are falsy, everything else is truthy (used by `Or` and `IsSignature`) |
| Regex.AnchoredTest | src/schema.ts:15 | for a pattern that starts with `^`, `test` succeeds exactly when the pattern matches at position 0 |
| Regex.AnchoredSearchMisses | src/schema.ts:15 | a pattern that starts with `^` matches at no position after 0 |
| Regex.DotStarEnd | src/schema.ts:15 | `.*$` matches from position i exactly when no line terminator follows i |
| Schema.IsHexString | src/schema.ts:14-16 | `hexString`: `/^0x.*$/.test(val)`; its meaning is stated by `HexStringIsPrefixCheck` |
| Schema.IsHashString | src/schema.ts:18-20 | `hashString`: its own copy of the same pattern; `HashStringIsHexString` shows it accepts what `hexString` accepts |
| Schema.ValidUnsigned | src/schema.ts:36-38 | the unsigned schema's field validators: `hexString` on `sender`, `initCode`, `callData` and `paymasterAndData` |
| Schema.ValidUserOperation | src/schema.ts:22-34 | the full schema's field validators: the four `hexString` fields and the `hashString` signature |
| Schema.HexStringIsPrefixCheck | src/schema.ts:14-16 | `hexString` accepts a string exactly when it starts with `0x` and contains no line terminator after the prefix |
| Schema.HashStringIsHexString | src/schema.ts:18-20 | `hashString` accepts exactly the strings `hexString` accepts |
| Schema.ShallowCheckExamples | src/schema.ts:14-16 | the check is shallow: it accepts `0x` and `0xzz`; it rejects `0X12`, `12`, ` 0x1` and `0x1` followed by a newline |
| Schema.AddSignature | src/index.ts:133-136 | `{ ...userOperation, signature }` carries the given signature, and omitting it gives the unsigned operation back |
| Schema.OmitSignature | src/schema.ts:36-38 | `.omit({ signature: true })` on the operation record; `SignatureRoundTrip` shows it inverts `AddSignature` |
| Schema.SignatureRoundTrip | src/schema.ts:36-38 | attaching an operation's own signature to its unsigned part gives the operation back |
| Schema.AddSignatureValid | src/schema.ts:22-38 | a signed operation is valid exactly when its unsigned part is valid and its signature passes `hashString` |
| Schema.UnsignedToObject | src/schema.ts:36-38 | the unsigned operation's object has exactly the ten schema keys other than `signature` |
| Schema.ToObject | src/schema.ts:22-34 | the operation's object has exactly the eleven schema keys |
| Schema.AddSignatureAddsOneKey | src/index.ts:133-136 | on the wire, `{ ...userOperation, signature }` is the unsigned object with one key added |
| Schema.ParseUnsigned | src/schema.ts:36-38 | whatever the unsigned schema accepts has valid hex fields |
| Schema.ParseUserOperation | src/schema.ts:22-34 | whatever the full schema accepts has valid hex fields and a valid signature |
| Schema.ParseRoundTrip | src/schema.ts:22-34 | parsing an operation's object gives the operation back if it is valid, and fails otherwise |
| Schema.ParseUnsignedRoundTrip | src/schema.ts:36-38 | the same round trip for the unsigned schema |
| Schema.ParseReadsEveryField | src/schema.ts:22-34 | a successful parse found every schema key, and each holds the parsed field's value |
| Schema.ParseUnsignedReadsEveryField | src/schema.ts:36-38 | a successful unsigned parse found every unsigned schema key, and each holds the parsed field's value |
| Schema.ParseIgnoresOtherKeys | src/schema.ts:22-38 | keys outside the schema are dropped: two objects that agree on the eleven schema keys parse alike under both schemas |
| Schema.ParseUnsignedIgnoresOtherKeys | src/schema.ts:36-38 | two objects that agree on the ten unsigned keys parse alike under the unsigned schema, whatever their `signature` |
| Schema.AcceptsObjectWithValidFields | src/schema.ts:22-34 | any object carrying a valid operation's eleven fields, whatever other keys it has, is accepted as that operation |
| Schema.AcceptsObjectWithValidUnsignedFields | src/schema.ts:36-38 | any object carrying a valid unsigned operation's ten fields, whatever other keys it has, is accepted as that unsigned operation |
| Schema.MissingFieldRejected | src/schema.ts:34 | `.required()`: an object missing any schema field is rejected by each schema that names that field |
| Schema.UnsignedIsFullWithoutSignature | src/schema.ts:36-38 | an object passes the full schema exactly when it passes the unsigned schema and has a valid signature; the result is the unsigned operation with that signature attached |
| Schema.SigningValidUnsigned | src/schema.ts:22-38 | a valid unsigned object with a `hashString` signature added passes the full schema |
| Abstract.New | src/index.ts:24-29 | the entry point is the supplied one when it is present and non-empty, and `ENTRY_POINT` otherwise; the signer and the transport are kept |
| Abstract.DefaultEntryPointIsHex | src/index.ts:22 | the default entry point passes `hexString` |
| Abstract.EntryPointIsHex | src/index.ts:29 | the chosen entry point passes `hexString` whenever a supplied one does |
| Abstract.ValueOrDefault | src/index.ts:58 | the value sent is always truthy: it is the caller's value when that is truthy, and `"0"` otherwise |
| Abstract.IsSignature | src/index.ts:129-131 | the flow goes on exactly when the signer returns a non-empty string |
| Abstract.SponsorCall | src/index.ts:113-119 | the call handed to the sponsor: the caller's call spread with `value`, `nonce` and the `fast` fees (its fields are stated by `SponsorCallFields`) |
| Abstract.SponsorCallFields | src/index.ts:113-119 | the sponsor call keeps every field of the caller's call. It sets `value` to the default rule, `nonce` to null and both fee fields from the `fast` tier. It adds no `ep` |
| Abstract.SponsorCallExample | src/index.ts:113-119 | a bare call with a fast tier of 100/10 gives value `"0"`, nonce null, and fees 100 and 10 |
| Abstract.CyberAbstract.EstimateRequest | src/index.ts:53-66 | a `cc_estimateUserOperation` request whose parameters are an object and the context |
| Abstract.CyberAbstract.EstimatePayload | src/index.ts:56-63 | the estimate payload holds the caller's fields plus `value`, `nonce`, both fee fields and `ep`. Every other caller field is copied. The value follows the default rule, the nonce and fees are null, and `ep` is the client's entry point |
| Abstract.CyberAbstract.SponsorRequest | src/index.ts:73-76 | a `cc_sponsorUserOperation` request whose parameters are an object and the context |
| Abstract.CyberAbstract.SponsorPayload | src/index.ts:75 | the sponsor payload is the given call with only `ep` added or replaced, set to the client's entry point |
| Abstract.CyberAbstract.SendRequest | src/index.ts:83-86 | an `eth_sendUserOperation` request with the parameters `[userOperation, entryPoint, ctx]` |
| Abstract.CyberAbstract.LookupRequest | src/index.ts:93-96 | an `eth_getUserOperationByHash` request with the parameters `[hash, { chainId }]` |
| Abstract.CyberAbstract.GetUserOperationByHash | src/index.ts:89-97 | the record the transport returns for the lookup request, unvalidated (see `LookupIgnoresOwner`) |
| Abstract.CyberAbstract.EstimateUsed | src/index.ts:110-111 | the estimate the flow works from: the supplied one, else the estimator's answer to the original call |
| Abstract.CyberAbstract.SponsorUsed | src/index.ts:113-123 | the sponsor's answer the flow works from: the hook's, else the default sponsor's, for the call built from the `fast` tier |
| Abstract.LookupIgnoresOwner | src/index.ts:89-97 | two lookups send the same request exactly when the chain ids agree; the owner is not sent. While the server's state is unchanged, lookups on the same chain then get the same record |
| Abstract.EstimateAndSponsorAgree | src/index.ts:53-75 | the estimator and the sponsor receive objects with the same keys. The two objects agree everywhere except the two fee fields, which the sponsor gets from the `fast` tier |
| Abstract.SubmittedOperationParses | src/index.ts:79-86 | the submitted operation object parses back under `UserOperationSchema` to the operation itself when that is valid |
| Abstract.CyberAbstract.ObtainEstimate | src/index.ts:110-111 | the supplied estimate is used without a call when present; otherwise the estimator is called once with the original call |
| Abstract.CyberAbstract.ObtainSponsorship | src/index.ts:121-123 | the hook is called when supplied, and otherwise the default sponsor, in either case with the sponsor call |
| Abstract.CyberAbstract.SendTransaction | src/index.ts:99-141 | the calls are made in order: estimate (only without a supplied estimate), sponsor (the hook or the default one), sign, then submit. Each gets what the calls before it returned. Submit happens, and a result is returned, exactly when the signer gives a truthy signature. The result is the hash that `eth_sendUserOperation` returned for the sponsor's operation with the signature attached |

## Left out

- The HTTP transport is not modelled: no `viem` client, `createClient`, `mainnet` chain or `retryCount: 0`. Each remote method is an oracle function, so the model does not capture network failures, retries or the JSON encoding and key order.
- `async` and `await`: the steps of `sendTransaction` are sequential in the model, as they are in the source. No concurrency between callers is modelled.
- Exceptions thrown by the transport, the signer or the sponsor hook are not modelled. In the source they reject the promise and stop the flow at that step.
- The signer's implementation (a wallet) is a parameter of the model.
- `Abstract.CyberAbstract.GetUserOperationByHash`: its response is an opaque JSON value. The source does not validate the record it receives.
- `CyberConnectRpcSchema` and `CyberConnectActions` in `src/schema.ts` are type-level declarations only. They do not match the methods actually called, and nothing at run time uses them.
- JavaScript numbers are modelled as unbounded integers. Floating point, `NaN` and fractional gas values are not modelled.
- `val as string` in the validators is a type assertion that has no effect at run time. `RegExp.prototype.test` converts its argument with its own string conversion, so the source accepts non-strings such as the array `["0x1"]`. The model rejects every non-string value instead.
- zod drops keys outside the schema, and so does the model: the parsers never read them (`ParseIgnoresOtherKeys`). The stripped object zod returns is not built; the parsed record takes its place.
- The estimate response keeps only the three fee tiers. `sendTransaction` reads only `fast` and the other response fields are never read.
- The sponsor response's operation is typed as an unsigned operation. Extra fields a server might add, which the spread in `src/index.ts:133-136` would pass through, are not modelled.
- A `null` or `undefined` contract call is not modelled. Without a supplied estimate, `contractCall.value` throws in `estimateTransaction` (`src/index.ts:58`) before any request is built. With `override.estimatedFee` supplied, the estimator is skipped. The spread and `contractCall?.value` at `src/index.ts:114-115` then accept it, so the source sponsors `{ value: "0", nonce: null, maxFeePerGas, maxPriorityFeePerGas }`. The model has no such path.
- The `override` argument itself being `undefined` is modelled as an `Override` with both hooks absent.
