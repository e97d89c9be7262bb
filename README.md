# Swap quote negotiation: ChangeHero and SpookySwap adapters

This project models the quote negotiation of two swap adapters of the Edge
exchange plugins. Each adapter turns a wallet's swap request into a
provider's wire calls, checks the amount against the provider's limits,
maps the provider's errors onto the wallet core's four error kinds, and
assembles the quote with the spend that funds it.

- `results.dfy` (module `Results`): the `Result`/`Outcome` types and the
  error kinds: unsupported currency, below minimum, above maximum, and
  any other fault carrying its message. `Run` pairs the provider requests
  a path issued, in order, with how the path ended.
- `text.dfy` (module `Text`): ASCII `toUpperCase`, the test for a fixed
  substring that `/Invalid currency:/` performs, and the decimal printing
  of an HTTP status.
- `edge.dfy` (module `Edge`): what the wallet core hands an adapter.
  - The request and the two wallets. A wallet's capabilities (receive
    address, the two denomination conversions, `makeSpend`) are
    uninterpreted function fields.
  - The spend an adapter asks for, and the `Transaction` object
    `makeSpend` returns, a class whose `otherParams` is updated in place.
  - `QuoteArgs`, the arguments an adapter passes to `makeSwapPluginQuote`.
  - The address choice and the minimum/maximum checks both adapters write
    out.
- `changehero.dfy` (module `ChangeHero`): the JSON-RPC adapter. It has a
  fixed-rate path and a floating (estimate) path.
  - The provider is a function from each call to its HTTP reply. A
    `Transport` object records every call issued.
  - `GetFixedQuote`, `GetEstimate` and `FetchSwapQuote` are imperative
    methods. Each is proved equal to a pure description of its path
    (`FixedRun`, `EstimateRun`, `FetchRun`): the calls issued, the
    outcome, and the transaction's final `otherParams`.
  - The lemmas state the adapter's rules over those descriptions:
    - limits before orders;
    - which reply goes through `checkReply`;
    - quote shape and expiry;
    - fixed preferred, estimate as fallback.
- `spookyswap.dfy` (module `SpookySwap`): the fixed-rate-only adapter, as
  pure functions.
  - The two endpoints (`rate`, `exchange`) form a `Server` value.
  - The shared helpers `safeCurrencyCodes` and `checkInvalidCodes` are a
    `Helpers` value.

Amounts in a human denomination are exact decimals (`real`). Native
amounts are unbounded integers, which the source compares as
arbitrary-precision decimal strings. Provider amounts that arrive as JSON
numbers are doubles in the source; see "## Left out".

Two points about the limits and the codes:
- ChangeHero's fixed path always reads and converts `maxFrom`/`maxTo`, so
  the model has no unbounded maximum.
- ChangeHero sends the wallet's currency codes unchanged. Only SpookySwap
  transcribes them.

## Model

| member | source | states |
|---|---|---|
| Text.ToUpper | src/swap/spookySwap.js:206 | `toUpperCase` keeps the length and upper-cases each character on its own |
| Text.UpperIsBtc | src/swap/spookySwap.js:205-208 | a code upper-cases to "BTC" exactly when it spells btc in any mix of cases |
| Text.Contains | src/swap/changehero.js:78 | the pattern test is true exactly when the pattern occurs at some position of the message |
| Text.NatToString | src/swap/changehero.js:111 | the status printed in the error message is a non-empty run of decimal digits, with no leading zero unless the status is 0 |
| Text.ParseNatToString | src/swap/changehero.js:111 | the printed status reads back as the status itself |
| Edge.Transaction.constructor | src/swap/changehero.js:231 | a new transaction holds the spend it was built from and the wallet's `otherParams` |
| Edge.MakeSpend | src/swap/changehero.js:231 | `makeSpend` gives a fresh transaction for the spend with the wallet's `otherParams`, or the wallet's error as a fault |
| Edge.ChooseAddress | src/swap/changehero.js:64-72 | the legacy address when it is non-empty and the code is not excluded, the public address otherwise |
| Edge.QuoteAmount | src/swap/changehero.js:140-149 | the quote amount is the requested native amount converted by the wallet of the side `quoteFor` names, in that side's currency; its use is stated by `ChangeHero.FixOrderParams`, `ChangeHero.EstimateMinimumDecidesOrder` and `SpookySwap.RateParamsFor` |
| Edge.CheckMinimum | src/swap/changehero.js:332-339 | passes exactly when the amount is at least the minimum; otherwise it refuses with that minimum |
| Edge.CheckLimits | src/swap/changehero.js:169-182 | passes exactly within both bounds (ends included); below the minimum is refused with the minimum, otherwise above the maximum with the maximum |
| ChangeHero.Receive | src/swap/changehero.js:101-114 | a reply is accepted exactly when its status is 2xx; otherwise a fault naming the status |
| ChangeHero.StatusMessageNamesStatus | src/swap/changehero.js:110-112 | the non-2xx fault message is the fixed prefix followed by the status in canonical decimal (no leading zero), which reads back as the status |
| ChangeHero.Transport.constructor | src/swap/changehero.js:101-114 | a new endpoint has issued no calls |
| ChangeHero.Transport.Call | src/swap/changehero.js:101-114 | each call is appended to the calls issued, and its reply is judged by status |
| ChangeHero.CheckReply | src/swap/changehero.js:74-88 | passes exactly when the reply has no error; code -32602 or a message containing "Invalid currency:" gives a currency error for the request's pair; any other error gives a fault with the serialized error |
| ChangeHero.GetAddress | src/swap/changehero.js:60-72 | the legacy address when it is non-empty, unless the currency is DGB |
| ChangeHero.FixOrderParams | src/swap/changehero.js:183-204 | the amount goes under `amount` exactly for a forward quote (`amountTo` otherwise); the pair is as requested; payout goes to the destination and refund to the source; extra ids are null; the rate id is carried |
| ChangeHero.ExchangeAmountCall | src/swap/changehero.js:279-291 | the estimate query carries the quote amount, with the pair swapped for a reverse quote |
| ChangeHero.OrderParams | src/swap/changehero.js:341-355 | the floating order carries the deposit amount and the pair as requested, never swapped; payout goes to the destination and refund to the source; extra ids are null; `ChangeHero.EstimateMinimumDecidesOrder` states the order actually sent |
| ChangeHero.StampedParams | src/swap/changehero.js:232-235 | after stamping, `payinAddress` and `uniqueIdentifier` hold the pay-in values, and every other key of the wallet's `otherParams` keeps its value |
| ChangeHero.RecordPayin | src/swap/changehero.js:232-235 | the in-place update leaves `otherParams` equal to the stamped map of its old value |
| ChangeHero.MakeStampedSpend | src/swap/changehero.js:231-235 | builds and stamps a fresh transaction exactly as the stamped view describes, or fails with the wallet's error |
| ChangeHero.FixedLimitCheck | src/swap/changehero.js:160-182 | passes exactly when the amount is within the bounds the source wallet converts (`minFrom`/`maxFrom` forward, `minTo`/`maxTo` reverse); otherwise refuses with one of them; `ChangeHero.FixedLimitsDecideOrder` states which |
| ChangeHero.FixedRun | src/swap/changehero.js:132-256 | the fixed path asks for the rate first and creates at most one order, which a quote needs; `ChangeHero.FixedLimitsDecideOrder`, `ChangeHero.FixedOrderOnlyWithinLimits`, `ChangeHero.FixRateErrorIgnored` and `ChangeHero.FixedQuoteIsLocked` state the rest |
| ChangeHero.AmountsFor | src/swap/changehero.js:314-330 | a forward quote deposits the requested amount and receives the destination wallet's conversion of the estimate; a reverse quote receives the requested amount and deposits the estimate plus 2%, converted by the source wallet |
| ChangeHero.EstimateRun | src/swap/changehero.js:257-390 | the two queries always come first, the exchange-amount query swapped for a reverse quote; at most one order follows, which a quote needs, and the quote is an estimate; `ChangeHero.EstimateRepliesChecked`, `ChangeHero.EstimateMinimumDecidesOrder` and `ChangeHero.EstimateQuoteShape` state the rest |
| ChangeHero.FetchRun | src/swap/changehero.js:118-131 | succeeds exactly when either path succeeds; any failure is the estimate's error; the fixed path's calls come first, then the estimate's; `ChangeHero.FetchPrefersFixed` and `ChangeHero.FetchFallsBack` state the choice |
| ChangeHero.GetFixedQuote | src/swap/changehero.js:132-256 | issues exactly the fixed path's calls and returns its outcome, with a fresh transaction on success |
| ChangeHero.GetEstimate | src/swap/changehero.js:257-390 | issues exactly the estimate path's calls and returns its outcome, with a fresh transaction on success |
| ChangeHero.Arbitrate | src/swap/changehero.js:118-131 | succeeds exactly when either path succeeds; a fixed success wins; otherwise the estimate's outcome, and any failure is the estimate's error |
| ChangeHero.FetchSwapQuote | src/swap/changehero.js:118-131 | issues the fixed path's calls then the estimate's, and returns the arbitrated outcome |
| ChangeHero.FixedLimitsDecideOrder | src/swap/changehero.js:160-211 | once a rate is in, below the minimum ends with BelowLimit and above the maximum with AboveLimit, both before any order; within the bounds exactly one order follows, with the rate's id |
| ChangeHero.FixedOrderOnlyWithinLimits | src/swap/changehero.js:151-211 | the rate is asked for first; an order is created only for a rate whose limits the amount meets; a fixed quote needs an order |
| ChangeHero.FixRateErrorIgnored | src/swap/changehero.js:151-167 | the `getFixRate` reply's error member changes nothing: it is never passed to `checkReply` |
| ChangeHero.FixedQuoteIsLocked | src/swap/changehero.js:212-255 | a fixed quote is not an estimate, expires 5 minutes on, and quotes the order's expected amounts; its spend pays the order's pay-in address and extra id |
| ChangeHero.EstimateQueriesFirst | src/swap/changehero.js:279-310 | both estimate queries are issued first, the exchange-amount one swapped for a reverse quote, and at most one order follows |
| ChangeHero.EstimateRepliesChecked | src/swap/changehero.js:294-312 | an error on either query reply ends the path with `checkReply`'s verdict (the minimum's first), and no order is created |
| ChangeHero.EstimateMinimumDecidesOrder | src/swap/changehero.js:314-355 | the deposit (the requested amount, or the estimate plus 2% for a reverse quote) is refused with BelowLimit exactly when under the converted minimum; otherwise exactly that deposit is ordered |
| ChangeHero.EstimateHasNoMaximum | src/swap/changehero.js:332-339 | the estimate path never refuses for a maximum |
| ChangeHero.EstimateQuoteShape | src/swap/changehero.js:314-389 | an estimate quote is marked as one and expires 20 minutes on; for each direction it holds the requested side and the converted estimate side; its spend pays the order's pay-in address |
| ChangeHero.EstimateQuoteIsEstimate | src/swap/changehero.js:379-389 | every estimate quote is marked as one and expires 20 minutes on |
| ChangeHero.FixedWindowShorter | src/swap/changehero.js:28-29 | a fixed quote's validity is positive and shorter than an estimate's |
| ChangeHero.FetchPrefersFixed | src/swap/changehero.js:122-126 | a successful fixed quote is the answer, and it is not an estimate |
| ChangeHero.FetchFallsBack | src/swap/changehero.js:127-130 | when the fixed path fails for any reason, the estimate's outcome is the answer |
| ChangeHero.FetchQuoteKind | src/swap/changehero.js:118-131 | the answer is an estimate exactly when the fixed path failed; it expires 5 or 20 minutes on accordingly |
| ChangeHero.CurrencyErrorFallsBackToEstimate | src/swap/changehero.js:74-85 | a currency error on the fixed path still gives the caller a successful estimate |
| SpookySwap.InvalidCodesNotTranscribed | src/swap/spookySwap.js:24-36 | no transcribed code is an invalid code (trivially, as both invalid-code sets are empty) |
| SpookySwap.GetAddress | src/swap/spookySwap.js:48-61 | the legacy address whenever it is non-empty (no currency is excluded) |
| SpookySwap.RateParamsFor | src/swap/spookySwap.js:138-157 | the rate request carries the transcribed pair, swapped for a reverse quote, with the quote amount and a fixed rate type |
| SpookySwap.ExchangeParamsFor | src/swap/spookySwap.js:172-182 | the exchange request reuses the rate request's pair and amount; payout goes to the destination and refund to the source; extras are empty |
| SpookySwap.NetworkFeeOption | src/swap/spookySwap.js:205-208 | high fees exactly when the source code upper-cases to BTC |
| SpookySwap.HighFeeForBtcInAnyCase | src/swap/spookySwap.js:205-208 | high fees exactly for the three-letter spellings of btc in any case |
| SpookySwap.UniqueIdentifier | src/swap/spookySwap.js:202 | the deposit extra id is passed on exactly when it is non-empty |
| SpookySwap.SpendInfoFor | src/swap/spookySwap.js:196-222 | one target pays the deposit at the deposit address, with the extra id exactly when it is non-empty; high fees exactly for btc; `swapData` names the order, is not an estimate, carries the plugin's info, and pays out to the destination wallet with refund to the source address |
| SpookySwap.GetFixedQuote | src/swap/spookySwap.js:118-237 | the rate is requested first and at most one exchange request follows, which a quote needs; a quote is never an estimate; no maximum error arises here, and, because the model's provider always answers well-formed (see "## Left out"), no currency error either; `SpookySwap.MinimumDecidesExchange` and `SpookySwap.QuoteShape` state the rest |
| SpookySwap.FetchSwapQuote | src/swap/spookySwap.js:101-116 | a pair the invalid-code check refuses fails with that error before any request; a quote comes only from a passing check and is never an estimate; `SpookySwap.FetchIsFixedOnly` states the rest |
| SpookySwap.FetchSwapQuoteAsWritten | src/swap/spookySwap.js:99-116 | as written, every request fails and none reaches the provider |
| SpookySwap.FetchIsFixedOnly | src/swap/spookySwap.js:101-116 | an invalid pair is refused before any request; otherwise the fixed quote's run is the answer, failure included |
| SpookySwap.MinimumDecidesExchange | src/swap/spookySwap.js:159-184 | the amount is refused with BelowLimit exactly when under the source wallet's conversion of the minimum, with only the rate requested; otherwise exactly one exchange request follows |
| SpookySwap.NoMaximum | src/swap/spookySwap.js:162-170 | no maximum is ever checked |
| SpookySwap.QuoteShape | src/swap/spookySwap.js:186-236 | a quote is not an estimate, expires an hour on, and carries the order id; the spend deposits the converted `amount_from` at the deposit address, with high fees for btc; `swapData` names the order, payout, refund and the plugin's info |
| SpookySwap.StubLosesQuote | src/swap/spookySwap.js:99-116 | some request that the adapter with working calls answers with a quote is answered as written with a TypeError, and nothing reaches the provider |

## Left out

- HTTP and JSON: `fetch`, request bodies and headers, and JSON parsing.
  The provider is a function from the call to the parsed reply. ChangeHero's
  `JSON.stringify` of an error is the `json` field of the error.
- A `getFixRate`, `createFixTransaction` or `createTransaction` reply
  whose `result` is missing makes the source throw a TypeError when it
  reads a field of it. The model gives that one fault, `MalformedResult`,
  and does not model the engine's exact message.
- ChangeHero.AmountOf: for the two estimate queries, the source does not
  throw itself on a missing `result`. It hands `undefined` on to
  `denominationToNative` or `mul` (src/swap/changehero.js:320,324,334).
  `Fault(MalformedResult)` stands in for whatever the wallet or the decimal
  library does with it.
- Provider amounts sent as JSON numbers are IEEE doubles in the source:
  - SpookySwap's `amount_from`/`amount_to` go through `Number#toString`
    (src/swap/spookySwap.js:187,192), which can print exponent forms such
    as "1e-7".
  - ChangeHero's `QuoteInfo` declares numeric amounts
    (src/swap/changehero.js:34,38).

  The model takes them as exact decimals. Double rounding and the
  `toString` formatting are not modelled.
- Concurrency and timing.
  - The two concurrent address lookups, and ChangeHero's two concurrent
    estimate queries, run one after the other.
  - ChangeHero.EstimatePrecheck: when both estimate queries fail at the
    HTTP level, the source surfaces whichever failure arrives first. The
    model always takes the minimum query's failure.
  - In ChangeHero, both paths start together and the fixed path is awaited
    first. The model runs them to completion one after the other, so it
    does not capture the estimate path still running after the fixed path
    has won.
- The current time is the parameter `now`, in milliseconds. The `Date`
  object is not modelled.
- Wallet calls other than `makeSpend` are taken never to throw.
  `makeSpend` may fail, and its error becomes a fault.
- `toUpperCase` is modelled on ASCII letters only.
- ChangeHero's `dontUseLegacy[code]` and SpookySwap's empty table are sets
  of codes. Property names inherited from `Object.prototype` are not
  modelled.
- ChangeHero's missing-`apiKey` check at plugin construction
  (src/swap/changehero.js:96-98), and the `io.console.info` logging.
- SpookySwap's `swapData.orderUri` (src/swap/spookySwap.js:211) reads a
  name the file never declares. Reading it throws a ReferenceError. Even
  with a working `call`, the file as written would fail there, before
  `makeSpend`, on every request that passes the minimum check. The model
  builds `swapData` without the field.
- `safeCurrencyCodes`, `checkInvalidCodes` and `makeSwapPluginQuote` live
  in src/swap-helpers.js, which is not part of this model.
  - The first two are inputs (`Helpers`).
  - The quote is modelled by the arguments passed to
    `makeSwapPluginQuote` (`QuoteArgs`).
- Plugin registration in src/index.js.
- SpookySwap.FetchSwapQuote: the logging is dropped, `call` is taken to
  reach the provider, and the `orderUri` ReferenceError at
  src/swap/spookySwap.js:211 is dropped too; see Findings for the file as
  written.
- SpookySwap.GetFixedQuote: the provider's `rate` and `exchange` replies
  always arrive, well-formed. A failed request or malformed reply is not
  modelled. Neither is the error mapping in the commented-out body of
  `call` (src/swap/spookySwap.js:89-94): HTTP 422 to a currency error for
  the sent `coin_from`/`coin_to`, and any other failure status to a fault.
  So the only failures this path can produce are the minimum check and
  `makeSpend`'s error, and its contract's "no currency error" holds only
  under that assumption.

## Findings

| source | as written | input that shows it | evidently intended | confidence | as-written member | corrected member |
|---|---|---|---|---|---|---|
| src/swap/spookySwap.js:69-116 | `fetchSwapQuote` first calls `this.log`, which the plugin object does not define. The request helper `call` also calls `this.log`, and its request code is commented out. Every quote request throws a TypeError before anything reaches the provider. | A forward quote of 0 native units, with both invalid-code and transcription helpers passing, a rate minimum of 0, an exchange reply, and a wallet that builds the spend. | The `rate` and `exchange` requests reach the provider, and a fixed quote comes back. | high, not executed | SpookySwap.FetchSwapQuoteAsWritten, SpookySwap.StubLosesQuote | SpookySwap.FetchSwapQuote |
