/** The SpookySwap swap adapter: fixed-rate quotes only. It checks the
    request against the invalid-code table, asks for a rate on the pair
    (swapped for a reverse quote), checks the minimum, requests the
    exchange, and has the source wallet build the deposit spend.

    The provider's two endpoints are functions from the parameters sent to
    the reply received. Each run lists the requests it issued. The shared
    helpers it calls (`safeCurrencyCodes`, `checkInvalidCodes`) are inputs
    too. */
module SpookySwap {
  import opened Results
  import opened Edge
  import Text

  const PluginId: string := "spookySwap"

  const Info: SwapInfo := SwapInfo(PluginId, "SpookySwap", "", Some("https://discord.com/invite/weXbvPAH4Q"))

  /** Validity of a quote, in milliseconds. */
  const ExpirationMs: int := 1000 * 60 * 60

  /** Currencies whose legacy address is never handed to the provider: none. */
  const DontUseLegacy: set<string> := {}

  /** Currency codes the provider refuses, on the source and on the destination side. */
  datatype InvalidCodes = InvalidCodes(from: set<string>, to: set<string>)

  const InvalidCurrencyCodes: InvalidCodes := InvalidCodes({}, {})

  /** Provider codes by parent chain and wallet currency code. */
  type TranscriptionTable = map<string, map<string, string>>

  /** USDT on Ethereum is USDT20 to the provider. */
  const CurrencyCodeTranscription: TranscriptionTable := map["ETH" := map["USDT" := "USDT20"]]

  datatype SafeCodes = SafeCodes(safeFromCurrencyCode: string, safeToCurrencyCode: string)

  /** The shared swap helpers the adapter calls; their code is not part of
      this model. */
  datatype Helpers = Helpers(
    safeCurrencyCodes: (TranscriptionTable, SwapRequest) -> SafeCodes,
    checkInvalidCodes: (InvalidCodes, SwapRequest) -> Outcome)

  /** The `rate` request: `coin_from`, `coin_to`, `deposit_amount`, `rate_type`. */
  datatype RateParams = RateParams(coinFrom: string, coinTo: string, depositAmount: real, rateType: string)

  /** The `rate` reply: the minimum deposit, `min_amount`. */
  datatype RateReply = RateReply(minAmount: real)

  /** The `exchange` request. */
  datatype ExchangeParams = ExchangeParams(
    coinFrom: string,
    coinTo: string,
    depositAmount: real,
    destinationAddress: string,
    destinationExtra: string,
    refundAddress: string,
    refundExtra: string,
    rateType: string)

  /** The `exchange` reply: order id, amounts, and where to deposit. */
  datatype ExchangeReply = ExchangeReply(
    id: string,
    amountFrom: real,
    amountTo: real,
    depositAddress: string,
    depositExtra: Option<string>)

  datatype Server = Server(rate: RateParams -> RateReply, exchange: ExchangeParams -> ExchangeReply)

  datatype Call = Rate(rateParams: RateParams) | Exchange(exchangeParams: ExchangeParams)

  /** No invalid code has a transcription: a transcribed code is by that
      fact not invalid. With both invalid-code sets empty, this holds
      trivially; it guards the two tables against a later edit. */
  lemma InvalidCodesNotTranscribed()
    ensures forall chain, code :: chain in CurrencyCodeTranscription && code in CurrencyCodeTranscription[chain] ==>
      code !in InvalidCurrencyCodes.from && code !in InvalidCurrencyCodes.to
  {
  }

  /** `getAddress`: with an empty `dontUseLegacy` table, the legacy address
      whenever there is one. */
  function GetAddress(w: Wallet, currencyCode: string): (a: string)
    ensures var info := w.receiveAddress(currencyCode);
      a == if Truthy(info.legacyAddress) then info.legacyAddress.value else info.publicAddress
  {
    ChooseAddress(w.receiveAddress(currencyCode), DontUseLegacy, currencyCode)
  }

  /** The `rate` request. The transcribed pair is as requested for a forward
      quote and swapped for a reverse one. The rate is always fixed, for the
      requested amount in its own denomination. */
  function RateParamsFor(req: SwapRequest, safe: SafeCodes, quoteAmount: real): (p: RateParams)
    ensures req.quoteFor == From ==>
      p.coinFrom == safe.safeFromCurrencyCode && p.coinTo == safe.safeToCurrencyCode
    ensures req.quoteFor == To ==>
      p.coinFrom == safe.safeToCurrencyCode && p.coinTo == safe.safeFromCurrencyCode
    ensures p.depositAmount == quoteAmount && p.rateType == "fixed"
  {
    match req.quoteFor
    case From => RateParams(safe.safeFromCurrencyCode, safe.safeToCurrencyCode, quoteAmount, "fixed")
    case To => RateParams(safe.safeToCurrencyCode, safe.safeFromCurrencyCode, quoteAmount, "fixed")
  }

  /** The `exchange` request. It reuses the rate request's pair and pays out
      to the destination address. Refunds go to the source address. Both
      extras are empty and the rate is fixed. */
  function ExchangeParamsFor(rate: RateParams, quoteAmount: real, fromAddress: string, toAddress: string): (p: ExchangeParams)
    ensures p.coinFrom == rate.coinFrom && p.coinTo == rate.coinTo && p.depositAmount == quoteAmount
    ensures p.destinationAddress == toAddress && p.refundAddress == fromAddress
    ensures p.destinationExtra == "" && p.refundExtra == "" && p.rateType == "fixed"
  {
    ExchangeParams(rate.coinFrom, rate.coinTo, quoteAmount, toAddress, "", fromAddress, "", "fixed")
  }

  /** High fees for bitcoin, standard ones otherwise. */
  function NetworkFeeOption(currencyCode: string): (f: FeeOption)
    ensures f == High <==> Text.ToUpper(currencyCode) == "BTC"
  {
    if Text.ToUpper(currencyCode) == "BTC" then High else Standard
  }

  /** The fee choice ignores case: exactly the three-letter spellings of btc
      get high fees. */
  lemma HighFeeForBtcInAnyCase(currencyCode: string)
    ensures NetworkFeeOption(currencyCode) == High <==>
      |currencyCode| == 3
      && (currencyCode[0] == 'b' || currencyCode[0] == 'B')
      && (currencyCode[1] == 't' || currencyCode[1] == 'T')
      && (currencyCode[2] == 'c' || currencyCode[2] == 'C')
  {
    Text.UpperIsBtc(currencyCode);
  }

  /** `deposit_extra || undefined`: an empty or missing extra id is no extra id. */
  function UniqueIdentifier(depositExtra: Option<string>): (u: Option<string>)
    ensures u.Some? <==> Truthy(depositExtra)
    ensures u.Some? ==> u == depositExtra
  {
    if Truthy(depositExtra) then depositExtra else None
  }

  /** The spend the source wallet is asked to build for an exchange order:
      one target paying the deposit at the order's deposit address, with the
      extra id only when it is non-empty; high fees exactly for bitcoin; and
      `swapData` for a non-estimate order, paying out to the destination
      wallet and refunding to the source address. */
  function SpendInfoFor(req: SwapRequest, order: ExchangeReply, fromAddress: string, toAddress: string,
                        fromNativeAmount: int, toNativeAmount: int): (spend: SpendInfo)
    ensures spend.currencyCode == req.fromCurrencyCode
    ensures |spend.spendTargets| == 1
    ensures var t := spend.spendTargets[0];
      && t.nativeAmount == fromNativeAmount && t.publicAddress == order.depositAddress
      && (t.uniqueIdentifier.Some? <==> Truthy(order.depositExtra))
      && (t.uniqueIdentifier.Some? ==> t.uniqueIdentifier == order.depositExtra)
      && t.otherParams.None?
    ensures spend.networkFeeOption == Some(High) <==> Text.ToUpper(req.fromCurrencyCode) == "BTC"
    ensures spend.networkFeeOption.Some?
    ensures spend.swapData.Some?
    ensures var d := spend.swapData.value;
      && d.orderId == order.id && !d.isEstimate && d.plugin == Info
      && d.payoutAddress == toAddress && d.payoutCurrencyCode == req.toCurrencyCode
      && d.payoutNativeAmount == toNativeAmount && d.payoutWalletId == req.toWallet.id
      && d.refundAddress == fromAddress
  {
    SpendInfo(
      req.fromCurrencyCode,
      [SpendTarget(fromNativeAmount, order.depositAddress, UniqueIdentifier(order.depositExtra), None)],
      Some(NetworkFeeOption(req.fromCurrencyCode)),
      Some(SwapData(order.id, false, toAddress, req.toCurrencyCode, toNativeAmount, req.toWallet.id, Info, fromAddress)))
  }

  /** `getFixedQuote`: the requests it issues and how it ends. The rate is
      always requested first, and at most one exchange request follows. A
      quote needs the exchange request. The only limit error is a minimum. */
  function GetFixedQuote(h: Helpers, server: Server, req: SwapRequest, now: int): (run: Run<Call, QuoteArgs<TxView>>)
    ensures 1 <= |run.calls| <= 2
    ensures run.calls[0] == Rate(RateRequest(h, req))
    ensures |run.calls| == 2 ==> run.calls[1].Exchange?
    ensures run.outcome.Success? ==> |run.calls| == 2 && !run.outcome.value.isEstimate
    ensures run.outcome.Failure? ==> !run.outcome.error.AboveLimit? && !run.outcome.error.CurrencyError?
  {
    var fromAddress := GetAddress(req.fromWallet, req.fromCurrencyCode);
    var toAddress := GetAddress(req.toWallet, req.toCurrencyCode);
    var quoteAmount := QuoteAmount(req);
    var quoteParams := RateParamsFor(req, h.safeCurrencyCodes(CurrencyCodeTranscription, req), quoteAmount);
    var rateResponse := server.rate(quoteParams);
    var nativeMin := req.fromWallet.denominationToNative(rateResponse.minAmount, req.fromCurrencyCode);
    match CheckMinimum(req.nativeAmount, nativeMin)
    case Fail(e) => Run([Rate(quoteParams)], Failure(e))
    case Pass =>
      var exchangeParams := ExchangeParamsFor(quoteParams, quoteAmount, fromAddress, toAddress);
      var calls := [Rate(quoteParams), Exchange(exchangeParams)];
      var quoteInfo := server.exchange(exchangeParams);
      var fromNativeAmount := req.fromWallet.denominationToNative(quoteInfo.amountFrom, req.fromCurrencyCode);
      var toNativeAmount := req.fromWallet.denominationToNative(quoteInfo.amountTo, req.toCurrencyCode);
      var spendInfo := SpendInfoFor(req, quoteInfo, fromAddress, toAddress, fromNativeAmount, toNativeAmount);
      match req.fromWallet.makeSpend(spendInfo)
      case SpendFailed(m) => Run(calls, Failure(Fault(m)))
      case Spent(otherParams) =>
        Run(calls, Success(QuoteArgs(fromNativeAmount, toNativeAmount, TxView(spendInfo, otherParams),
          toAddress, PluginId, false, now + ExpirationMs, quoteInfo.id)))
  }

  /** `fetchSwapQuote`: the invalid-code check, then the fixed quote as it
      comes, with no estimate to fall back on. */
  function FetchSwapQuote(h: Helpers, server: Server, req: SwapRequest, now: int): (run: Run<Call, QuoteArgs<TxView>>)
    ensures h.checkInvalidCodes(InvalidCurrencyCodes, req).Fail? ==>
      run.calls == [] && run.outcome == Failure(h.checkInvalidCodes(InvalidCurrencyCodes, req).error)
    ensures run.outcome.Success? ==> h.checkInvalidCodes(InvalidCurrencyCodes, req).Pass? && !run.outcome.value.isEstimate
    ensures |run.calls| <= 2
  {
    match h.checkInvalidCodes(InvalidCurrencyCodes, req)
    case Fail(e) => Run([], Failure(e))
    case Pass => GetFixedQuote(h, server, req, now)
  }

  /** Stands for the TypeError JavaScript throws when the adapter calls a
      `log` method on an object that has none. */
  const MissingLogError: string := "TypeError: this.log is not a function"

  /** `fetchSwapQuote` as the file has it. Its first statement calls
      `this.log`, and the plugin object it is called on defines no `log`.
      The request helper `call` does the same and has no request code after
      it. So every request throws, before the invalid-code check and before
      anything reaches the provider. `FetchSwapQuote` is the adapter with
      the logging dropped and `call` reaching the provider. */
  function FetchSwapQuoteAsWritten(h: Helpers, server: Server, req: SwapRequest, now: int): (run: Run<Call, QuoteArgs<TxView>>)
    ensures run.calls == [] && run.outcome.Failure?
  {
    Run([], Failure(Fault(MissingLogError)))
  }

  /** A request that the adapter, with working calls, answers with a quote,
      and that the file as written answers with a TypeError. */
  lemma StubLosesQuote()
    ensures exists h: Helpers, server: Server, req: SwapRequest ::
      && FetchSwapQuote(h, server, req, 0).outcome.Success?
      && FetchSwapQuoteAsWritten(h, server, req, 0).outcome.Failure?
      && FetchSwapQuoteAsWritten(h, server, req, 0).calls == []
  {
    var w := Wallet("wallet", c => AddressInfo("address", None), (n, c) => 1.0, (x, c) => 0, s => Spent(None));
    var h := Helpers((t, r) => SafeCodes("FROM", "TO"), (i, r) => Pass);
    var server := Server(p => RateReply(0.0), p => ExchangeReply("order", 1.0, 1.0, "deposit", None));
    var req := SwapRequest(w, w, "FROM", "TO", 0, From);
    assert FetchSwapQuote(h, server, req, 0).outcome.Success?;
  }

  /** An invalid pair is refused before any request; otherwise the fixed
      quote's run is the answer, failure included. */
  lemma FetchIsFixedOnly(h: Helpers, server: Server, req: SwapRequest, now: int)
    ensures var check := h.checkInvalidCodes(InvalidCurrencyCodes, req);
      && (check.Fail? ==> FetchSwapQuote(h, server, req, now) == Run([], Failure(check.error)))
      && (check.Pass? ==> FetchSwapQuote(h, server, req, now) == GetFixedQuote(h, server, req, now))
  {
  }

  /** The rate request as the adapter builds it for `req`. */
  function RateRequest(h: Helpers, req: SwapRequest): RateParams {
    RateParamsFor(req, h.safeCurrencyCodes(CurrencyCodeTranscription, req), QuoteAmount(req))
  }

  /** The only limit is the rate's minimum, converted by the source wallet
      in the source currency. An amount under it is refused with it before
      the exchange is requested; the minimum itself is accepted. Otherwise
      exactly one exchange request follows, for the rate request's pair. */
  lemma MinimumDecidesExchange(h: Helpers, server: Server, req: SwapRequest, now: int)
    ensures var run := GetFixedQuote(h, server, req, now);
      var rate := RateRequest(h, req);
      var nativeMin := req.fromWallet.denominationToNative(server.rate(rate).minAmount, req.fromCurrencyCode);
      && (run.outcome == Failure(BelowLimit(nativeMin)) <==> req.nativeAmount < nativeMin)
      && (req.nativeAmount < nativeMin ==> run.calls == [Rate(rate)])
      && (nativeMin <= req.nativeAmount ==>
            run.calls == [Rate(rate), Exchange(ExchangeParamsFor(rate, QuoteAmount(req),
              GetAddress(req.fromWallet, req.fromCurrencyCode), GetAddress(req.toWallet, req.toCurrencyCode)))])
  {
  }

  /** No maximum is ever checked. */
  lemma NoMaximum(h: Helpers, server: Server, req: SwapRequest, now: int)
    ensures var run := GetFixedQuote(h, server, req, now);
      run.outcome.Failure? ==> !run.outcome.error.AboveLimit?
  {
  }

  /** A quote is fixed and expires an hour after `now`. The spend deposits
      the source wallet's conversion of `amount_from` at the deposit address,
      with the deposit extra id when it is non-empty. It is flagged with
      high fees for bitcoin. Its `swapData` names the order and the payout
      and refund addresses, and marks the quote as not an estimate. The
      payout amount is converted by the source wallet, in the destination
      currency. */
  lemma QuoteShape(h: Helpers, server: Server, req: SwapRequest, now: int)
    ensures var run := GetFixedQuote(h, server, req, now);
      run.outcome.Success? ==>
        var q := run.outcome.value;
        var order := server.exchange(run.calls[1].exchangeParams);
        var spend := q.tx.spendInfo;
        && |run.calls| == 2
        && !q.isEstimate
        && q.expirationDate == now + ExpirationMs
        && q.pluginId == PluginId
        && q.quoteId == order.id
        && q.destinationAddress == GetAddress(req.toWallet, req.toCurrencyCode)
        && q.fromNativeAmount == req.fromWallet.denominationToNative(order.amountFrom, req.fromCurrencyCode)
        && q.toNativeAmount == req.fromWallet.denominationToNative(order.amountTo, req.toCurrencyCode)
        && spend.currencyCode == req.fromCurrencyCode
        && spend.spendTargets == [SpendTarget(q.fromNativeAmount, order.depositAddress, UniqueIdentifier(order.depositExtra), None)]
        && spend.networkFeeOption == Some(NetworkFeeOption(req.fromCurrencyCode))
        && spend.swapData.Some?
        && spend.swapData.value.orderId == q.quoteId
        && !spend.swapData.value.isEstimate
        && spend.swapData.value.payoutAddress == q.destinationAddress
        && spend.swapData.value.payoutCurrencyCode == req.toCurrencyCode
        && spend.swapData.value.payoutNativeAmount == q.toNativeAmount
        && spend.swapData.value.payoutWalletId == req.toWallet.id
        && spend.swapData.value.refundAddress == GetAddress(req.fromWallet, req.fromCurrencyCode)
        && spend.swapData.value.plugin == Info
  {
  }
}
