# ethers-ccip-read, modelled in Dafny

This project models the core of `ethers-ccip-read`. That library is an ethers-rs middleware.
It lets contract calls and ENS resolution follow EIP-3668 (CCIP-Read) offchain-lookup reverts.

- **Redirect loop** (`call`, `_call`). The inner client is called. If the answer is a revert
  that carries an `OffchainLookup(address,string[],bytes,bytes4,bytes)`, the gateways are asked.
  The contract is then called back with their answer. At most ten attempts are made.
- **Gateway dispatch** (`_ccip_request`). Every URL template is filled in and requested in
  order. The first gateway `data` that decodes as hex wins; otherwise one error per URL is kept.
- **ENS resolution**:
  - `get_resolver`: the registry is asked about the name, then about each parent, with a
    wildcard check on inherited resolvers.
  - `supports_wildcard`: an ENSIP-10 `supportsInterface(resolve(bytes,bytes))` probe.
  - `query_resolver_parameters`: the resolver call, wrapped in `resolve(bytes,bytes)` for a
    wildcard resolver.
  - `lookup_address`: a reverse lookup, checked by forward resolution.

Every operation is a pure specification function that returns a `Run`:

- the `Outcome` is `Ok`, an `Err` the caller receives, or an `Abort` where the Rust code panics;
- the trace is the list of chain calls and gateway requests made, in order.

The chain calls are tagged with the statement that issued them: a redirect attempt, a registry
lookup, or the final resolver call. Because of the trace, properties such as "never asked",
"asked at most ten times" and "nothing after the failure" can be stated.

The code that changes variables step by step is also written as Dafny methods. Each method is
proved equal to its specification function:

- `_call` is `Redirect.CallWithAttempt`, `Redirect.CallRound`, `Redirect.Inspected`,
  `Redirect.FollowLookup` and `Redirect.SendCallback`;
- the URL loop is `Gateway.CcipRequest`;
- the registry walk is `Discovery.GetResolver`;
- the typed query is `ResolverQuery.QueryResolverParameters`.

The code calls itself in a cycle: `_call` → `resolve_name` → `query_resolver_parameters` →
`get_resolver` → `supports_wildcard` → `_call`. That cycle is one family of functions in
module `Resolution`. Termination is by the target kind, the remaining redirect budget and the
length of the name still to be walked.

The collaborators are uninterpreted total functions in `Oracles.Env`:

- the inner chain client (`inner().call`);
- the HTTP client, which sends a request and parses its JSON body;
- `Bytes::to_string`;
- the ABI codec;
- the ethers `get_resolver`, `resolve`, `dns_encode` and `reverse_address` helpers;
- the configured registry address.

`hex::decode`, the `{:02x}` encoding and `Bytes::from_str` are modelled concretely in `Hex`, so
their edge cases are part of the model:

- an odd length is reported before a bad character;
- one optional `0x` prefix is accepted.

The string operations used by the code are modelled concretely in `Strings`: `replace`,
`trim_matches`, `trim_start_matches`, `split`/`join` and `to_lowercase`.

Behaviour of the code worth knowing:

- An `OffchainLookup` revert whose payload fails to ABI-decode after the shape test has passed
  is a panic (`Panic.LookupUndecodable`). It does not fall back to returning the raw revert bytes.
- For a name below `eth`, the walk stops with the zero address when it reaches `eth` itself. It
  does so before the registry is ever asked about `eth`, so a resolver set on `eth` is never found
  for `sub.eth`.
- `query_resolver_parameters` probes the discovered resolver for wildcard support even when
  discovery returned the zero address.

## Model

| member | source | states |
|---|---|---|
| Resolution.Call | src/native/call.rs:29-146 | `_call`: the attempt bound, the missing destination, the destination's resolution, then one round |
| Resolution.Destination | src/native/call.rs:40-43 | an address destination is itself; a named one is resolved through `resolve_name` |
| Resolution.Examine | src/native/call.rs:47-111 | the chain call's text, the shape test and the sender check decide whether a round follows a lookup |
| Resolution.ResolveName | src/native/resolve_name.rs:14-17 | the `addr` record query of the name, decoded as an address |
| Resolution.QueryBytes | src/native/query_resolver_parameters.rs:24-54 | discovery, the unconditional probe, the optional `resolve(bytes,bytes)` wrap and the resolver call |
| Resolution.ResolverAnswer | src/native/query_resolver_parameters.rs:49-54 | the resolver call's answer, with the provider-error message and the `bytes` unwrap |
| Resolution.Query | src/native/query_resolver.rs:13-21 | `query_resolver`: the query with its final typed decode |
| Resolution.Discover | src/native/get_resolver.rs:10-49 | the registry walk from a name up towards its top label |
| Gateway.RequestFor | src/native/ccip_request.rs:87-97 | the request sent for one URL template |
| Gateway.AttemptOf | src/native/ccip_request.rs:98-118 | what one gateway response means: bytes, a recorded error, or the end of the dispatch |
| Gateway.Dispatch | src/native/ccip_request.rs:65-122 | `_ccip_request`: the URLs are asked in order up to the first that does not fail softly |
| Gateway.RequestErrorText | src/native/ccip_request.rs:16-29 | the `thiserror` text of each request error |
| Gateway.ErrorsText | src/native/ccip_request.rs:36-46 | the display of the gathered errors, one line each |
| Offchain.ResultText | src/native/call.rs:47-65 | the text inspected after the chain call, or the error it ends with |
| Offchain.Inspect | src/native/call.rs:67-145 | the shape test, the revert decode and the final byte parse |
| Hex.DecodePairs | src/native/ccip_request.rs:105 | `hex::decode` over digit pairs, reporting the first bad character's position |
| Hex.Decode | src/native/call.rs:70 | `hex::decode`: an odd length is reported before a bad character |
| Hex.ParseBytes | src/native/call.rs:137 | `Bytes::from_str`: one optional `0x`, then `hex::decode` |
| Hex.ErrorText | src/native/ccip_request.rs:108 | the text of a `hex` decode error |
| Strings.ReplaceAll | src/native/ccip_request.rs:87-89 | `replace` of every non-overlapping occurrence, scanning left to right |
| Strings.TrimMatches | src/native/call.rs:61 | `trim_matches`: every leading and trailing occurrence of the character removed |
| Redirect.Call | src/native/call.rs:20-26 | `call` is the redirect loop started at attempt 0, in outcome and trace |
| Redirect.CallWithAttempt | src/native/call.rs:29-43 | the attempt bound, the missing-destination panic and the name resolution of `_call` give exactly the loop's specified outcome and calls |
| Redirect.CallRound | src/native/call.rs:46-65 | the chain call and the reading of its answer or error response (null data, quote and `0x` trimming) agree with the specified round |
| Redirect.Inspected | src/native/call.rs:67-145 | the shape test, the payload decode, the sender test and the final byte parse agree with the specified round |
| Redirect.FollowLookup | src/native/call.rs:113-133 | the gateway dispatch, the empty-answer error and the callback agree with the specified round of a followed lookup |
| Redirect.SendCallback | src/native/call.rs:122-133 | the callback is the loop at the next attempt on the transaction with the callback data |
| Redirect.FollowedRound | src/native/call.rs:113-133 | a followed round ends with the gateways' failure, or continues with the callback's outcome and calls |
| Redirect.MaxAttemptsStops | src/native/call.rs:35-38 | at or past attempt 10 the loop fails with `MaxRedirectionError` and calls nothing |
| Redirect.AddressChain | src/native/call.rs:35-38 | for an address destination the loop makes at most `10 - attempt` chain calls, at consecutive attempts, all at the same block, to the same destination, from the same sender and with the same value as the original call |
| Redirect.RoundChain | src/native/call.rs:47-133 | one round's chain call, followed by the chain of its callback, keeps the attempt bound and the same-call property |
| Redirect.FollowChain | src/native/call.rs:109-133 | a followed lookup adds only gateway requests, then the callback's chain |
| Redirect.CallbackChain | src/native/call.rs:122-133 | the callback is the same call at the next attempt, so its chain continues the count |
| Redirect.StoppedRound | src/native/call.rs:113-120 | a round whose gateways fail, or answer nothing, ends after its chain call and the gateway requests |
| Redirect.AskedChain | src/native/call.rs:47-115 | a chain call followed by gateway requests only is one chain call, with that call's block and fields |
| Redirect.RoundSteps | src/native/call.rs:128-133 | a round's chain call followed by a chain that starts one attempt later is a chain from this attempt, within this attempt's budget |
| Redirect.OnlyGatewayNoSites | src/native/ccip_request.rs:85-119 | a trace of gateway requests has no chain calls |
| Redirect.DispatchOnlyGateway | src/native/ccip_request.rs:85-119 | the gateway dispatch makes HTTP requests only |
| Redirect.TopLevelAtMostTen | src/native/call.rs:14 | a top-level call to an address makes at most ten chain calls |
| Redirect.CallIsRound | src/native/call.rs:40-47 | for any destination, a found destination makes the call one round at its address after the calls that found it, and one that is not found ends the call |
| Redirect.ProviderErrorPassThrough | src/native/call.rs:49-52 | for any destination, given or resolved, a provider error that is not a JSON-RPC error response is returned as `MiddlewareError`, after the resolution's calls and one chain call |
| Redirect.NullDataError | src/native/call.rs:54-59 | for any destination, an error response whose data is missing or null fails with "Data is null", after the resolution's calls and one chain call |
| Redirect.SuccessPassThrough | src/native/call.rs:47-48 | for any destination, a successful call shown as `0x`-hex is returned as its own output, after the resolution's calls, exactly one chain call and no gateway request |
| Redirect.SenderMismatch | src/native/call.rs:109-111 | a lookup whose sender is not the destination's address (the given one, or the one its name resolved to) fails with "SenderError" before any gateway is asked |
| Redirect.GatewayNotFound | src/native/call.rs:116-120 | for any destination, an empty gateway answer fails with "GatewayNotFoundError" after the resolution's calls, the chain call and the gateway requests |
| Redirect.RedirectFollowed | src/native/call.rs:122-133 | for any destination, a non-empty gateway answer is followed at the next attempt and the same block, on the transaction with data = callback selector ++ abi.encode(answer, extraData); the calls are the resolution's, the chain call, the gateway requests and the callback's |
| Redirect.NameResolvedFirst | src/native/call.rs:40-41 | a named destination is resolved first; a failed resolution is the call's result, and otherwise the call is the round at the resolved address, whose chain call comes right after the resolution |
| Offchain.NormaliseRevert | src/native/call.rs:60-63 | the inspected revert text never starts with `0x` and is not longer than the raw text |
| Offchain.FinalOf | src/native/call.rs:137-145 | the text is returned as bytes exactly when `Bytes::from_str` parses it, else "GatewayError" |
| Offchain.CallbackTx | src/native/call.rs:122-131 | the callback keeps the destination, sender and value; its data is the callback selector followed by abi.encode(answer, extraData) |
| Offchain.NormaliseQuoted | src/native/call.rs:60-63 | a JSON-quoted `0x` hex string is inspected as its bare hex digits |
| Offchain.QuotesTrimmed | src/native/call.rs:61 | `trim_matches('"')` removes the enclosing quotes of a quoted text and nothing more |
| Offchain.PrefixTrimmed | src/native/call.rs:62 | `trim_start_matches("0x")` removes one `0x` before hex digits |
| Offchain.InspectFollowIff | src/native/call.rs:67-95 | the redirect branch is taken exactly when the block is latest, the target is non-zero, the text starts with `556f1830`, it decodes with a length of 4 modulo 32, and the payload after the selector ABI-decodes; the lookup is that decoding |
| Offchain.BadHexRevertPanics | src/native/call.rs:70 | a revert that passes the first three tests but is not hex panics, rather than returning an error |
| Offchain.LookupUndecodablePanics | src/native/call.rs:80-81 | a revert that passes the shape test but whose payload does not ABI-decode as an `OffchainLookup` panics |
| Offchain.NotRedirectIsFinal | src/native/call.rs:67-70 | when the block, target or selector test fails, or a hex revert's length is not 4 modulo 32, the text goes to the final byte parse |
| Offchain.DisplayedSuccessIsFinal | src/native/call.rs:48 | a successful output shown as `0x`-hex never passes the shape test and is returned as itself |
| Offchain.RevertTextOfQuotedHex | src/native/call.rs:54-63 | revert data carried as a JSON string `"0x…"` is inspected as its bare hex |
| Resolution.Round | src/native/call.rs:47 | every round's trace starts with its own chain call, at its attempt and block |
| Resolution.Fetch | src/native/call.rs:113-120 | the gateway step's trace is the dispatch's trace and its successful answer is never empty |
| Resolution.WildcardTx | src/native/query_resolver_parameters.rs:30-45 | the wrapped call exists exactly when the name DNS-encodes and the call has data; its data is then the `resolve(bytes,bytes)` selector followed by abi.encode(dns name, original data), and otherwise the code panics |
| Resolution.Typed | src/utils/decode_bytes.rs:11-15 | a typed decode keeps the calls, succeeds exactly when the bytes decode, panics with `DecodeBytesFailed` when they do not, and passes errors and panics through unchanged |
| Resolution.SupportsWildcard | src/native/supports_wildcard.rs:42-49 | the wildcard probe never returns an error: a failed call counts as "no" |
| Resolution.ZeroBytes | src/native/supports_wildcard.rs:31 | the probe's padding is that many zero bytes |
| Wildcard.ProbeLiteralParses | src/native/supports_wildcard.rs:30-34 | the probe's hex literal parses to 36 bytes: `supportsInterface`, the `resolve(bytes,bytes)` selector and 28 zero bytes |
| Wildcard.ProbeLayout | src/native/supports_wildcard.rs:30-34 | the probe data is 36 bytes: the two selectors and 28 zero bytes |
| Wildcard.SelectorsEncode | src/native/supports_wildcard.rs:31 | the literal's first 16 digits are the two selectors |
| Wildcard.ZerosEncode | src/native/supports_wildcard.rs:31 | n zero bytes are written as 2n '0' digits |
| Wildcard.ProbeTrueIff | src/native/supports_wildcard.rs:52-59 | the answer is "yes" exactly when the probe returned non-empty bytes that decode as the number 1 |
| Wildcard.ProbeErrorIsFalse | src/native/supports_wildcard.rs:43-54 | any error from the probe call answers "no" |
| Wildcard.ProbePanics | src/native/supports_wildcard.rs:42-56 | the probe panics exactly when its call panicked or a non-empty answer is not a `uint256` |
| Wildcard.ProbeCalls | src/native/supports_wildcard.rs:36-42 | the probe is one top-level call to the resolver at the latest block: it starts with the probe transaction and makes at most ten chain calls, all redirect rounds of that same call |
| Wildcard.ProbeTrace | src/native/supports_wildcard.rs:42-59 | the probe makes no calls besides its redirect-following call |
| Wildcard.CallStartsWithRound | src/native/call.rs:40-47 | a call to an address starts with its first chain call |
| Discovery.GetResolver | src/native/get_resolver.rs:10-49 | the loop over ever shorter names gives exactly the specified walk, in outcome and calls |
| Discovery.AskRegistry | src/native/get_resolver.rs:24-47 | one iteration goes on with the parent name exactly when the registry names the zero resolver, and otherwise ends the walk with the specified result |
| Discovery.RegistryNamesAppend | src/native/get_resolver.rs:24-31 | the registry questions of consecutive traces are concatenated |
| Discovery.NoRegistrySites | src/native/call.rs:47 | redirect rounds ask the registry nothing |
| Discovery.ProbeAsksNoRegistry | src/native/supports_wildcard.rs:42 | a wildcard probe never asks the registry |
| Discovery.AncestorsAreSuffixes | src/native/get_resolver.rs:46-47 | the names walked are suffixes of the name, starting with the name itself |
| Discovery.AskedAncestors | src/native/get_resolver.rs:15-47 | the registry is asked only about the name and its ancestors, in order, and never about `eth` for another name |
| Discovery.NeverAsksEth | src/native/get_resolver.rs:20-22 | for any name other than `eth`, `eth` is never looked up |
| Discovery.FoundAt | src/native/get_resolver.rs:33-47 | a non-zero resolver is registered for the i-th ancestor, every nearer ancestor has the zero resolver, and it is registered for the name itself or supports wildcards; for a name other than `eth`, that ancestor is never `eth` |
| Discovery.FoundAbove | src/native/get_resolver.rs:39-47 | a resolver found above a zero entry is found one ancestor further on |
| Discovery.FoundHereOrAbove | src/native/get_resolver.rs:39-47 | a non-zero result is the current name's resolver, or the current name has the zero resolver and the result comes from the parent |
| Discovery.FoundResolver | src/native/get_resolver.rs:10-49 | every non-zero resolver found is the nearest registered one, is exact or wildcard-capable, and for a name other than `eth` is never the one registered at `eth` |
| Discovery.EthGuard | src/native/get_resolver.rs:20-22 | for a name other than `eth`, reaching `eth` ends the walk with the zero address and no call |
| Discovery.ExactMatch | src/native/get_resolver.rs:39-43 | a resolver registered for the name itself is returned after one registry call, without a probe |
| Discovery.RegistryFailure | src/native/get_resolver.rs:24-31 | a failed registry call ends the walk with "GR Error calling resolver: " and the provider's message |
| Discovery.AncestorWithoutWildcard | src/native/get_resolver.rs:40-42 | an inherited resolver without wildcard support gives the zero address |
| Discovery.EmptyName | src/native/get_resolver.rs:16-18 | an empty name, or the root ".", gives the zero address and asks nothing |
| Discovery.EmptyRegistryAnswer | src/native/get_resolver.rs:33-35 | an empty registry answer gives the zero address, after that one registry call |
| Discovery.ZeroContinues | src/native/get_resolver.rs:39-47 | the zero resolver registered for a name makes the walk go on with its parent, after this one registry call |
| Discovery.FoundHere | src/native/get_resolver.rs:39-43 | a non-zero resolver registered for the name itself, or for an ancestor when it supports wildcards, is returned |
| Discovery.Shift | src/native/get_resolver.rs:46-47 | a name's ancestors are the name followed by its parent's ancestors |
| Discovery.EthIsLast | src/native/get_resolver.rs:46-47 | `eth` has no label to drop, so it can only be the last name walked |
| Discovery.NearestFound | src/native/get_resolver.rs:15-47 | when every nearer ancestor has the zero resolver and the i-th has a non-zero one that is not at `eth` for another name and is exact or wildcard-capable, the walk returns it |
| ResolverQuery.QueryResolverParameters | src/native/query_resolver_parameters.rs:17-57 | discovery, probe, optional wrapping, resolver call and decode give exactly the specified query, in outcome and calls |
| ResolverQuery.CallResolver | src/native/query_resolver_parameters.rs:49-54 | the final call maps a provider error to "Error calling resolver: …" and unwraps the `bytes` for a wildcard resolver |
| ResolverQuery.ResolveSelectorParses | src/native/query_resolver_parameters.rs:40-44 | the hex `9061b923` is the `resolve(bytes,bytes)` selector |
| ResolverQuery.DiscoveryFailure | src/native/query_resolver_parameters.rs:24 | a failed discovery is the query's failure, and nothing more is called |
| ResolverQuery.ProbeAlwaysSent | src/native/query_resolver_parameters.rs:24-30 | after discovery the next call is always the probe of the discovered resolver, even for the zero address |
| ResolverQuery.PlainQuery | src/native/query_resolver_parameters.rs:26-56 | a resolver without wildcard support gets the unchanged record query, one resolver call, and its answer decoded directly |
| ResolverQuery.WildcardQuery | src/native/query_resolver_parameters.rs:30-56 | a wildcard resolver gets `resolve(dns_encode(name), data)`, and its answer is unwrapped as `bytes` before decoding, with a panic when it is not |
| ResolverQuery.WildcardUnencodable | src/native/query_resolver_parameters.rs:33 | a wildcard resolver for a name that cannot be DNS-encoded panics before any resolver call |
| ReverseLookup.LookupAddress | src/native/lookup_address.rs:11-25 | a name is returned only when it resolves forward to the same address, and the reverse query's calls come first |
| ReverseLookup.OwnedIff | src/native/lookup_address.rs:12-24 | the lookup gives a name exactly when the reverse record is that name and the name resolves back to the address |
| ReverseLookup.NotOwned | src/native/lookup_address.rs:17-21 | a name that resolves elsewhere is refused with "User does not own domain: " followed by the name |
| ReverseLookup.ReverseQueryFailure | src/native/lookup_address.rs:13-15 | a failed reverse query is the lookup's failure, and no forward resolution is made |
| ReverseLookup.ForwardFailure | src/native/lookup_address.rs:16 | a failed forward resolution is the lookup's failure, after both queries' calls |
| Gateway.CcipRequest | src/native/ccip_request.rs:65-122 | the loop over the URLs gives exactly the specified dispatch, in outcome and requests |
| Gateway.BuildRequest | src/native/ccip_request.rs:87-97 | the URL has `{sender}` and `{data}` replaced by `0x`-hex; a GET exactly when the template names `{data}`, else a POST whose body is the unprefixed data hex and the sender |
| Gateway.LostErrorsStep | src/native/ccip_request.rs:107-118 | each softly failed URL appends its error at the end |
| Gateway.DecidedAt | src/native/ccip_request.rs:104-110 | the first URL that does not fail softly decides the dispatch |
| Gateway.FirstDecisive | src/native/ccip_request.rs:85-119 | the deciding URL is the first one whose attempt did not fail softly |
| Gateway.Requests | src/native/ccip_request.rs:85-97 | one request per URL |
| Gateway.Attempts | src/native/ccip_request.rs:98-118 | one attempt per request |
| Gateway.Calls | src/native/ccip_request.rs:98 | one HTTP request event per request |
| Gateway.LostErrors | src/native/ccip_request.rs:107-118 | one recorded error per softly failed URL |
| Gateway.NothingToAsk | src/native/ccip_request.rs:73-75 | without URLs or a destination, empty bytes come back and nothing is requested |
| Gateway.FatalOutcome | src/native/ccip_request.rs:98-105 | a fatal attempt is a transport or JSON error, or a panic, never bytes |
| Gateway.FirstSuccessWins | src/native/ccip_request.rs:104-106 | returned bytes come from the first URL that did not fail softly, and no later URL was asked |
| Gateway.FirstSuccessReturned | src/native/ccip_request.rs:98-112 | when every URL before i fails softly and URL i's data decodes to b, the dispatch returns b after asking exactly the first i + 1 URLs |
| Gateway.AllFailIff | src/native/ccip_request.rs:107-121 | the dispatch fails with the gathered errors exactly when every URL fails softly |
| Gateway.AllFailErrors | src/native/ccip_request.rs:107-121 | then there is one error per URL, in input order, and every URL was asked once, in order |
| Gateway.TransportErrorAborts | src/native/ccip_request.rs:98-101 | a transport or JSON failure at a URL ends the dispatch with that error, and no later URL is asked |
| Gateway.RequestShape | src/native/ccip_request.rs:78-96 | a GET exactly when the template names `{data}`, else a POST with the unprefixed hex and the sender; the call-data hex is lower case, two digits per byte, and decodes back to the call data |
| Gateway.PlainTemplate | src/native/ccip_request.rs:87-96 | a template without placeholders is requested unchanged, by POST |
| Gateway.SubstitutedTemplate | src/native/ccip_request.rs:87-92 | `prefix{sender}/{data}suffix` is requested by GET with `0x`-hex sender and call data in their places |
| Gateway.GetFor | src/native/ccip_request.rs:91-92 | a template naming `{data}` is requested by GET at its substituted URL |
| Gateway.BothReplaced | src/native/ccip_request.rs:87-89 | both placeholders are replaced in place |
| Gateway.FirstReplace | src/native/ccip_request.rs:88 | the `{sender}` replacement leaves the rest of the template alone |
| Gateway.SecondReplace | src/native/ccip_request.rs:89 | the `{data}` replacement leaves the rest of the URL alone |
| Gateway.DataInTemplate | src/native/ccip_request.rs:91 | such a template names `{data}` |
| Gateway.DataTailHasNoSender | src/native/ccip_request.rs:88 | no `{sender}` is left after the first replacement |
| Gateway.NoBraceNoPattern | src/native/ccip_request.rs:87-89 | a text without braces contains no placeholder |
| Gateway.HexHasNoBrace | src/native/ccip_request.rs:88-89 | substituted hex contains no brace |
| Gateway.Regrouped | src/native/ccip_request.rs:88-89 | the substituted pieces regroup into `prefix0x<sender>/0x<data>suffix` |
| Gateway.ErrorsTextAppend | src/native/ccip_request.rs:40-42 | pushing one more error appends its line |
| Gateway.ErrorsTextPrefix | src/native/ccip_request.rs:40-42 | displaying one more error of the list appends its line |
| Gateway.DisplayGatewayErrors | src/native/ccip_request.rs:36-46 | the display is every error's text followed by a newline, in order |
| Gateway.ErrorsTextLines | src/native/ccip_request.rs:40-42 | when no error text has a line break of its own, the display has exactly one line per error |
| Hex.Encode | src/native/ccip_request.rs:78-81 | the `{:02x}` encoding has two digits per byte |
| Hex.NibbleDigit | src/native/ccip_request.rs:80 | every digit written reads back as its value |
| Hex.DigitNibble | src/native/ccip_request.rs:105 | a hex digit read and written again is its lower-case form |
| Hex.DecodePairsEncode | src/native/ccip_request.rs:78-81 | the digit pairs of an encoding decode to the bytes |
| Hex.DecodeEncode | src/native/ccip_request.rs:78-81 | `hex::decode` of the encoding gives the bytes back |
| Hex.ParseDisplayed | src/native/call.rs:137 | `Bytes::from_str` of `0x` plus the encoding gives the bytes back |
| Hex.EncodeDecodePairs | src/native/call.rs:70 | what decodes is, up to letter case, the encoding of its decoding |
| Hex.EncodeDecode | src/native/call.rs:70 | `hex::decode` is the inverse of the encoding up to letter case |
| Hex.DecodePairsOffset | src/native/call.rs:81 | a successful decode does not depend on the error offset |
| Hex.DecodePairsLength | src/native/call.rs:70 | a decode gives one byte per digit pair |
| Hex.DecodePairsDrop | src/native/call.rs:81 | dropping 2k digits drops k bytes |
| Hex.DecodeDrop | src/native/call.rs:70-81 | decoding the revert after its 8-digit selector gives its decoding without the 4 selector bytes |
| Hex.EncodeIsLowerHex | src/native/ccip_request.rs:89 | the encoding is lower-case hex, so `to_lowercase` leaves it unchanged |
| Hex.EncodeAppend | src/native/ccip_request.rs:78-81 | the encoding of a concatenation is the concatenation of the encodings |
| Strings.EndsWithTransitive | src/native/get_resolver.rs:46-47 | a suffix of a suffix is a suffix |
| Strings.ContainsWithin | src/native/lookup_address.rs:18-21 | a text contains what its right part contains |
| Strings.ReplaceAllAbsent | src/native/ccip_request.rs:87-89 | `replace` of an absent pattern changes nothing |
| Strings.ReplaceAllSplice | src/native/ccip_request.rs:87-89 | `replace` of the first occurrence splices in the replacement |
| Strings.TrimStart | src/native/call.rs:61 | trimming from the start keeps a suffix without a leading quote |
| Strings.TrimEnd | src/native/call.rs:61 | trimming from the end keeps a prefix without a trailing quote |
| Strings.TrimStartMatches | src/native/call.rs:62 | the result is a suffix of the text that no longer starts with the prefix |
| Strings.ToLower | src/native/ccip_request.rs:89 | lowering keeps the length and lowers each ASCII letter in its place |
| Strings.CountCharAppend | src/native/ccip_request.rs:40-42 | counting a character is additive over concatenation |
| Strings.CountCharAbsent | src/native/ccip_request.rs:40-42 | an absent character counts zero |
| Strings.IndexOf | src/native/get_resolver.rs:46 | the first occurrence of the separator |
| Strings.Split | src/native/get_resolver.rs:46 | `split` gives at least one piece |
| Strings.JoinSplit | src/native/get_resolver.rs:46-47 | joining the pieces of a split gives the text back |
| Strings.JoinCons | src/native/get_resolver.rs:47 | `join` puts the separator between the first piece and the rest |
| Strings.DropFirstLabel | src/native/get_resolver.rs:46-47 | dropping the first label gives the text after the first dot, or "" without one, and is shorter than the name |
| Errors.ChainSites | src/native/call.rs:47 | the chain calls of a trace are at most its length |
| Errors.ChainSitesAppend | src/native/call.rs:47 | the chain calls of consecutive traces are concatenated |

## Left out

- Asynchrony: every `.await` is a sequential call. No concurrency is modelled.
- The inner chain client, the HTTP client, the ABI codec, `Bytes::to_string` and the ethers
  `get_resolver`, `resolve`, `dns_encode` and `reverse_address` helpers are uninterpreted
  functions. Only their results are modelled, not how they build or parse anything.
- A transaction keeps only its destination, data, sender and value. Gas, nonce and chain id
  are carried through unchanged by `clone` and are not modelled.
- The `if let` over the decoded revert tokens (`src/native/call.rs:83-95`) and the
  "corrupt URL string" panic (`src/native/call.rs:101`) are not modelled separately. A decoder
  typed as `OffchainLookup` either gives all five fields or fails, and a failure is the panic
  `LookupUndecodable`.
- The `u8` attempt counter is an unbounded `nat`. It never passes 10, so it cannot wrap.
- Text is a sequence of characters. Slices such as `result[8..]` and `returned_data[2..]` are
  character positions, whereas Rust uses byte positions. The two agree when the text is ASCII;
  on non-ASCII input (a gateway's `data` such as "aé") Rust can panic at a byte slice that is not
  a character boundary, where the model slices by character and goes on.
- Hex.ErrorText: the `{:?}` escaping of an invalid character inside the `hex` error text is
  not modelled.
- The chain and HTTP oracles are functions: the same request always gets the same answer, so,
  for example, the probe of a resolver in `get_resolver` and again in `query_resolver_parameters`
  answers alike. A chain whose state changes between calls, or a flaky gateway, is not modelled.
- `println!` of errors is output only, and is left out.
- `BlockId` serialisation is reduced to `IsLatest`: only no block, or the `latest` tag,
  serialise to `"latest"`.
- Redirect.AddressChain: the bound of at most ten chain calls, and the "same call" property,
  are proved for destinations given by address. A named destination is resolved again before
  every round, since the callback keeps the destination, and those resolutions are separate
  queries whose calls the bound does not count.
- Offchain.DisplayedSuccessIsFinal: holds when `Bytes::to_string` gives `0x` and lower-case
  hex, which is how ethers displays bytes. The display itself is an oracle.
- The methods resolve names, and probe for wildcards, through the specification functions
  `Resolution.ResolveName` and `Resolution.SupportsWildcard` rather than through the other
  methods. The modules cannot import each other in a cycle.
- `supports_wildcard` is modelled as a function, since it has no loop or state of its own.
- `resolve_name` and `query_resolver` are modelled, as `Resolution.ResolveName` and
  `Resolution.Query`, because the core calls them. `resolve_addresses`, `resolve_avatar` and
  `resolve_field` are not part of this model.
