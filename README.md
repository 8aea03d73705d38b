# Ethereum JSON-RPC gateway: admission control and running-config builder

This project models two pieces of a gateway that sits in front of Ethereum
JSON-RPC endpoints ("upstreams").

- **The request admission validator** (`isValidCall` in `core/limitation.go`).
  It classifies a JSON-RPC request as allowed, `Denied` or `DecodeError`. The
  inputs are the method name, the first parameter, and two compiled sets of the
  running configuration: allowed method names, and allowed call-contract
  addresses stored in lower case. The Go code catches every panic from a failed
  type assertion or an out-of-range index with `defer`/`recover` and turns it
  into `DecodeError`. The model has no panics. Each decoding step (`Values.At`,
  `Values.AsObject`, `Values.AsString`, the RLP step) returns a `Fault`, and
  `Limitation.CheckTarget` maps any `Fault` to `DecodeError`. So
  `Limitation.IsValidCall` is a total function with exactly three outcomes.
- **The strategy/upstream-count rule of the running-config builder.** The tests
  in `core/rpcserver_test.go` pin this rule: NAIVE takes one upstream, RACE and
  FALLBACK take two, a wrong count aborts the build, and the method-limitation
  flag passes through unchanged. `Builder.Build` is a pure function from
  (strategy tag, upstream URLs, flag, allowed methods, contract whitelist) to
  `Result<RunningConfig, BuildError>`. The Go builder panics on a wrong count;
  the model returns `Failure` instead.

The validator reads the configuration the builder produces, and
`Limitation.BuiltWhitelistAdmitsCall` joins the two. On a built configuration,
an `eth_call` whose method is configured and whose `to` field decodes is
allowed exactly when `to` equals a configured contract address, ignoring
letter case.

Two library decoders are called from `isValidCall`: `hexutil.Decode` and
`rlp.DecodeBytes` (the Recursive Length Prefix encoding of Appendix B of the
Ethereum Yellow Paper), plus the type assertion on an RLP item. Their code is
not part of this model, so they are passed in as the function fields of
`Limitation.Decoders`. The element that `rlp` produces is the abstract type
`Limitation.RlpItem`.

The hex decoder returns bytes together with an error flag, and the validator
ignores the flag, just as line 73 discards the error. Whether a raw
transaction can be allowed at all depends on whether the RLP decoder can yield
an item whose Go type is `string`. `Limitation.RawTransactionNeverAllowedWithByteItems`
shows that no raw transaction is ever allowed if no item is a string, for
example when byte strings decode to `[]byte`.

Where the code and the gateway's intended behaviour differ, the model follows
the code:

- `isValidCall` never reads `MethodLimitationEnabled`. The method check runs
  first and on every request, whatever the flag says. `Limitation.FlagNotConsulted`
  states this about `isValidCall` alone, not about the whole gateway. The
  configuration notes say the allowed-method and contract lists "can be
  ignored when set methodLimitationEnabled false" (core/rpcserver_test.go:36,
  core/rpcserver_test.go:39). So the caller presumably skips `isValidCall`
  when the flag is false. That caller is not part of this model.
- For `eth_sendRawTransaction`, the source's own comment lists seven
  transaction fields, nonce to signature (core/limitation.go:63-69). The code
  never checks that count. It indexes item 3, so any list of four or more
  items passes. It also discards the hex-decode error (core/limitation.go:73),
  so a bad hex string is judged only by the bytes `hexutil.Decode` still
  returns.

The builder's own source (`buildRunningConfigFromConfig`) is not part of this
model, so for it there is no code to follow. Its three tests pin six
(strategy, upstream count) cases: NAIVE with 1 and 2, RACE with 2 and 1, and
FALLBACK with 2 and 1. Every test uses an upper-case tag and an empty contract
whitelist. Several behaviours beyond those cases are modelling choices, each
listed under "## Left out":

- how tags are matched, and what an unknown tag does;
- NAIVE with 0 or with 3 or more upstreams;
- RACE and FALLBACK with 0, or with 3 or more, upstreams;
- lower-casing the contract whitelist at build time.

## Model

| member | source | states |
|---|---|---|
| `Limitation.IsValidCall` | core/limitation.go:36-88 | total on every request, so no fault escapes; a result other than `Denied` needs an allowed method that is one of the five special methods; `DecodeError` arises only for `eth_call`, `eth_estimateGas` and `eth_sendRawTransaction` |
| `Limitation.IsAllowedMethod` | core/limitation.go:28-30 | the lookup itself: membership of the method name in the compiled method set; its partners are the two rows below |
| `Limitation.BuiltMethodLookup` | core/limitation.go:28-30 | on every built config, a method name is allowed iff it equals one of the configured method names exactly |
| `Limitation.MethodCaseVariantDenied` | core/limitation.go:28-30 | with one allowed method `m`, a request whose method equals `m` only up to letter case fails the lookup and is `Denied` |
| `Limitation.InWhitelist` | core/limitation.go:32-34 | membership of the address's lower-case form in the compiled contract set; when every entry is lower case, as built, this holds iff some entry equals the address up to letter case (both directions) |
| `Limitation.UnlistedMethodDenied` | core/limitation.go:43-45 | a method not in the allowed-method set is `Denied`, whatever the params and decoders |
| `Limitation.FlagNotConsulted` | core/limitation.go:28-30 | changing the method-limitation flag never changes the verdict |
| `Limitation.MethodLookupIsExact` | core/limitation.go:28-30 | the method lookup is case-sensitive: with `eth_getBalance` listed, `eth_getBalance` is allowed and `eth_getbalance` is denied |
| `Limitation.BalanceAndReceiptAllowed` | core/limitation.go:47-50 | `eth_getBalance` and `eth_getTransactionReceipt` are allowed exactly when listed, for any params, empty ones included |
| `Values.At` | core/limitation.go:53 | an index succeeds exactly when it is in range, and then it yields that element; otherwise it fails with `IndexOutOfRange` |
| `Values.AsObject` | core/limitation.go:53 | the object assertion succeeds exactly on a JSON object and yields its fields |
| `Values.AsString` | core/limitation.go:72 | the string assertion succeeds exactly on a JSON string and yields it |
| `Values.Member` | core/limitation.go:53 | reading a missing key yields null, and reading a present key yields its value |
| `Limitation.CallTarget` | core/limitation.go:53 | the `to` address is decoded exactly when params is non-empty, the first param is an object and its `to` is a string, and then it is that string |
| `Limitation.CheckTarget` | core/limitation.go:55-59 | `DecodeError` exactly on a decoding fault; allowed exactly when the decoded address is whitelisted; `Denied` otherwise |
| `Limitation.CallVerdict` | core/limitation.go:52-60 | for a listed `eth_call`/`eth_estimateGas`: `DecodeError` iff params is empty, the first param is not an object, or `to` is missing or not a string; allowed iff `ToLower(to)` is in the contract set |
| `Limitation.WhitelistIgnoresCase` | core/limitation.go:32-34 | two addresses that differ only in letter case are both whitelisted or both not |
| `Limitation.CallIgnoresTargetCase` | core/limitation.go:52-60 | two requests whose `to` differ only in letter case get the same verdict |
| `Limitation.RawTransactionTarget` | core/limitation.go:72-80 | the destination is decoded exactly when the first param is a string, RLP decoding of the hex-decoded bytes succeeds with at least four items, and item 3 is a string; the hex error flag plays no part |
| `Limitation.RawTransactionVerdict` | core/limitation.go:62-85 | for a listed `eth_sendRawTransaction`: `DecodeError` iff the first param is missing or not a string, RLP decoding fails, there are fewer than four items, or item 3 is not a string; otherwise allowed iff item 3 in lower case is whitelisted; the item count is never checked to be seven |
| `Limitation.HexErrorDiscarded` | core/limitation.go:73-74 | two hex decoders that return the same bytes give the same verdict, whatever their error flags |
| `Limitation.RawTransactionNeverAllowedWithByteItems` | core/limitation.go:80 | if no RLP item has Go type `string`, no raw transaction is ever allowed |
| `Limitation.DefaultDeny` | core/limitation.go:87 | every method outside the five special ones is `Denied`, even when it is listed |
| `Limitation.BlockNumberDenied` | core/limitation.go:87 | `eth_blockNumber` is `Denied` even when it is the only allowed method |
| `Limitation.BuiltWhitelistAdmitsCall` | core/limitation.go:32-34 | on a successfully built config, a listed `eth_call`/`eth_estimateGas` with a decoded `to` is allowed iff `to` equals some configured contract address up to letter case (both directions) |
| `Ascii.ToLower` | core/limitation.go:33 | keeps the length; every character is folded to lower case; the result has no upper-case letter |
| `Ascii.ToLowerIdempotent` | core/limitation.go:33 | folding changes only letter case, and folding twice equals folding once |
| `Ascii.EqualFoldIffSameLower` | core/limitation.go:33 | two strings are equal ignoring case iff their lower-case forms are equal (both directions) |
| `Builder.ParseStrategy` | core/rpcserver_test.go:30-31 | exactly `NAIVE`, `RACE` and `FALLBACK` are accepted, each mapped to its own strategy; any other tag fails with `UnknownStrategy` |
| `Builder.Build` | core/rpcserver_test.go:47-53 | a built config keeps the upstream count invariant and lower-case contracts; it has the parsed strategy, the given upstreams and the given flag; a failure names the unknown tag, or names the strategy and the actual upstream count that violates it |
| `Builder.BuildSucceedsIff` | core/rpcserver_test.go:47-77 | a build succeeds iff the tag is known and the upstream count fits its strategy |
| `Builder.NaiveNeedsExactlyOne` | core/rpcserver_test.go:23-78 | NAIVE builds iff there is exactly one upstream |
| `Builder.RaceAndFallbackNeedTwo` | core/rpcserver_test.go:80-192 | RACE and FALLBACK build iff there are at least two upstreams |
| `Builder.UnknownStrategyRefused` | core/rpcserver_test.go:30 | an unsupported tag is refused with `UnknownStrategy`, whatever the rest of the configuration |
| `Builder.CompiledMethods` | core/rpcserver_test.go:36-37 | the compiled method set holds exactly the configured names |
| `Builder.CompiledContracts` | core/rpcserver_test.go:39-40 | the compiled contract set holds exactly the lower-case forms of the configured addresses |
| `Builder.TestBuildNaive` | core/rpcserver_test.go:23-78 | the NAIVE test: one upstream builds and keeps the flag `true`; two upstreams abort |
| `Builder.TestBuildRace` | core/rpcserver_test.go:80-135 | the RACE test: two upstreams build and keep the flag `true`; one upstream aborts |
| `Builder.TestBuildFallback` | core/rpcserver_test.go:137-192 | the FALLBACK test: two upstreams build and keep the flag `true`; one upstream aborts |

## Left out

- Ascii.ToLower: folds only the ASCII letters A-Z. Go's `strings.ToLower` also folds non-ASCII letters. This matters only for whitelist entries or addresses that contain non-ASCII letters.
- Limitation.RawTransactionTarget: the internals of `hexutil.Decode` and `rlp.DecodeBytes` are not modelled. These foreign library calls are parameters (`Limitation.Decoders`), and the RLP item type is abstract. So no lemma shows that a raw transaction can be allowed.
- The nil `currentRunningConfig` case is not modelled. In Go, a nil config panics, and `recover` turns that into `DecodeError`. The model always passes a configuration in.
- The dispatch strategies (single upstream, race, sequential fallback) are not modelled. Their source is not part of this model, and race is concurrent.
- The per-request gateway handler (parse, validate, dispatch, format the error response) is not modelled. Its source is not part of this model, and neither is the code that decides whether `isValidCall` runs when the flag is false.
- `getErrorResponseBytes` is not modelled. It is JSON serialisation, and its test checks only the type of the result.
- Forwarding-client construction in the builder and `createHTTPClient` are not modelled, because they are network transport. The snapshot keeps only the upstream URLs.
- The builder's cancellation context (`ctx`, `stop`) and the teardown of superseded clients are not modelled.
- `cmd/main.go` is not modelled: signal handling, reading `config.json`, the HTTP server with its 30-second graceful shutdown, and the commented-out hot-reload block. These are process plumbing, I/O and concurrency.
- Builder.ParseStrategy: tags are matched exactly, so `race` or `Naive` is refused as an unknown strategy. The tests show only the upper-case tags being accepted (core/rpcserver_test.go:31, 89, 146). Case-folding or trimming the tag first is possible too, and nothing shown decides between the two. Refusing an unknown tag is also a modelling choice; no test covers it.
- Builder.NaiveNeedsExactlyOne: NAIVE is refused with 0 upstreams and with 3 or more. The test pins only that 1 builds and 2 aborts (core/rpcserver_test.go:23-78). The other counts follow the rule "NAIVE takes exactly one upstream"; no test shows them.
- Builder.RaceAndFallbackNeedTwo: RACE and FALLBACK build with any count of two or more and are refused with 0 or 1. The tests pin only that 2 builds and 1 aborts (core/rpcserver_test.go:80-192). Refusing 0 and building with 3 or more are modelling choices, not tested guarantees.
- Builder.CompiledContracts: the builder stores each whitelisted address in lower case. No test shows this; every test config has an empty `contractWhitelist` (core/rpcserver_test.go:40, 72, 98, 129, 155, 186). The choice is inferred from the lookup at core/limitation.go:33, which lower-cases only the request's address. Without it, a mixed-case (EIP-55 checksummed) whitelist entry could never match. The lower-case part of `Builder.Valid`, and `Limitation.BuiltWhitelistAdmitsCall`, rest on this choice.
- Builder.Build: a wrong upstream count makes the Go builder panic. The model returns `Failure` for it, and for an unknown tag too. Its error values do not carry Go's message text.
- JSON numbers are `real` and the request id is an unbounded `int`. The model does not capture float64 rounding or int64 bounds, and no verdict depends on either.
