/** The ChangeHero swap adapter. It offers fixed-rate and floating
    (estimate) quotes over ChangeHero's JSON-RPC API. Both paths start for
    every request, and a fixed quote wins whenever it succeeds.

    The provider is a function from each JSON-RPC call to the HTTP reply it
    gets. A `Transport` object records the calls issued, in order. Each quoting
    path is a method that works step by step and updates the transaction's
    `otherParams` in place. It is proved equal to a pure description of the
    path (`FixedRun`, `EstimateRun`, `FetchRun`), and the lemmas at the end
    state the adapter's rules about those descriptions. */
module ChangeHero {
  import opened Results
  import opened Edge
  import Text

  const PluginId: string := "changehero"

  /** Validity of an estimate quote, and of a fixed-rate quote, in milliseconds. */
  const ExpirationMs: int := 1000 * 60 * 20
  const ExpirationFixedMs: int := 1000 * 60 * 5

  /** Currencies whose legacy address is never handed to the provider. */
  const DontUseLegacy: set<string> := {"DGB"}

  /** JSON-RPC "invalid params", which ChangeHero answers for an unsupported pair. */
  const InvalidParamsCode: int := -32602
  const InvalidCurrencyPattern: string := "Invalid currency:"

  /** Margin by which a reverse estimate's deposit is inflated against rate drift. */
  const Slippage: real := 1.02

  /** Stands for the TypeError JavaScript throws when a reply lacks the
      result the adapter reads. */
  const MalformedResult: string := "TypeError: ChangeHero reply lacks the expected result"

  // ---------------------------------------------------------------------
  // Wire format

  /** The `error` member of a JSON-RPC reply: its `code` and `message` when
      present, and its text as `JSON.stringify` prints it. */
  datatype RpcError = RpcError(code: Option<int>, message: Option<string>, json: string)

  /** `getFixRate`: the rate id and the limits, in human denominations. */
  datatype FixRate = FixRate(id: string, minFrom: real, maxFrom: real, minTo: real, maxTo: real)

  /** `createFixTransaction`: the locked order. */
  datatype FixedQuoteInfo = FixedQuoteInfo(
    id: string,
    amountExpectedFrom: real,
    amountExpectedTo: real,
    currencyFrom: string,
    payinAddress: string,
    payinExtraId: Option<string>)

  /** `createTransaction`: the floating order. */
  datatype QuoteInfo = QuoteInfo(id: string, payinAddress: string, payinExtraId: Option<string>)

  /** The `result` member of a reply, by the call that produced it;
      `getMinAmount` and `getExchangeAmount` answer a bare amount. */
  datatype RpcResult =
    | RateResult(rate: FixRate)
    | FixedOrderResult(fixedOrder: FixedQuoteInfo)
    | AmountResult(amount: real)
    | OrderResult(order: QuoteInfo)

  datatype RpcReply = RpcReply(error: Option<RpcError>, result: Option<RpcResult>)

  datatype HttpReply = HttpReply(status: nat, body: RpcReply)

  /** Which key carries the amount of a fixed order. */
  datatype AmountField = Amount(amount: real) | AmountTo(amountTo: real)

  datatype FixTxParams = FixTxParams(
    amount: AmountField,
    from: string,
    to: string,
    address: string,
    extraId: Option<string>,
    refundAddress: string,
    refundExtraId: Option<string>,
    rateId: string)

  datatype TxParams = TxParams(
    amount: real,
    from: string,
    to: string,
    address: string,
    extraId: Option<string>,
    refundAddress: string,
    refundExtraId: Option<string>)

  /** The JSON-RPC methods the adapter calls, with their parameters. */
  datatype RpcCall =
    | GetFixRate(from: string, to: string)
    | CreateFixTransaction(fixParams: FixTxParams)
    | GetMinAmount(from: string, to: string)
    | GetExchangeAmount(from: string, to: string, amount: real)
    | CreateTransaction(params: TxParams)

  // ---------------------------------------------------------------------
  // Transport

  function StatusMessage(status: nat): string {
    "ChangeHero returned error code " + Text.NatToString(status)
  }

  /** What `call` makes of an HTTP reply: a status outside 200..299 is thrown
      as a fault naming the status, otherwise the JSON body is returned. */
  function Receive(reply: HttpReply): (r: Result<RpcReply>)
    ensures r.Success? <==> 200 <= reply.status <= 299
    ensures r.Success? ==> r.value == reply.body
    ensures r.Failure? ==> r.error.Fault? && r.error.msg == StatusMessage(reply.status)
  {
    if 200 <= reply.status <= 299 then Success(reply.body)
    else Failure(Fault(StatusMessage(reply.status)))
  }

  /** The status can be read back from the fault message. */
  lemma StatusMessageNamesStatus(status: nat)
    ensures var m := StatusMessage(status);
      var prefix := "ChangeHero returned error code ";
      |prefix| < |m| && m[..|prefix|] == prefix
      && (forall i :: |prefix| <= i < |m| ==> Text.IsDigit(m[i]))
      && (m[|prefix|] == '0' ==> status == 0)
      && Text.ParseDecimal(m[|prefix|..]) == status
  {
    var prefix := "ChangeHero returned error code ";
    var m := StatusMessage(status);
    assert m[|prefix|..] == Text.NatToString(status);
    Text.ParseNatToString(status);
  }

  /** ChangeHero's endpoint: `server` answers each call, `sent` lists the
      calls issued so far. */
  class Transport {
    const server: RpcCall -> HttpReply
    var sent: seq<RpcCall>

    constructor (server: RpcCall -> HttpReply)
      ensures this.server == server && sent == []
    {
      this.server := server;
      sent := [];
    }

    method Call(c: RpcCall) returns (r: Result<RpcReply>)
      modifies this
      ensures sent == old(sent) + [c]
      ensures r == Receive(server(c))
    {
      sent := sent + [c];
      r := Receive(server(c));
    }
  }

  // ---------------------------------------------------------------------
  // Reply classification and addresses

  /** An error reply that names an unsupported currency: the invalid-params
      code, or a message in which "Invalid currency:" occurs. */
  ghost predicate SignalsCurrencyError(e: RpcError) {
    e.code == Some(InvalidParamsCode)
    || (e.message.Some? && exists i: nat :: Text.OccursAt(e.message.value, InvalidCurrencyPattern, i))
  }

  /** `checkReply`: a reply without error passes; an unsupported-currency
      error becomes a currency error for the request's pair; any other error
      is a fault carrying the serialized error. */
  function CheckReply(reply: RpcReply, req: SwapRequest): (o: Outcome)
    ensures o.Pass? <==> reply.error.None?
    ensures o.Fail? && SignalsCurrencyError(reply.error.value) ==>
      o.error == CurrencyError(req.fromCurrencyCode, req.toCurrencyCode)
    ensures o.Fail? && !SignalsCurrencyError(reply.error.value) ==>
      o.error == Fault("ChangeHero error: " + reply.error.value.json)
  {
    match reply.error
    case None => Pass
    case Some(e) =>
      if e.code == Some(-32602) || (e.message.Some? && Text.Contains(e.message.value, "Invalid currency:")) then
        Fail(CurrencyError(req.fromCurrencyCode, req.toCurrencyCode))
      else
        Fail(Fault("ChangeHero error: " + e.json))
  }

  /** `checkReply` as a step that hands the reply on. */
  function Checked(reply: RpcReply, req: SwapRequest): Result<RpcReply> {
    match CheckReply(reply, req)
    case Pass => Success(reply)
    case Fail(e) => Failure(e)
  }

  /** `getAddress`: the legacy address when there is one, unless the
      currency is DGB; the public address otherwise. */
  function GetAddress(w: Wallet, currencyCode: string): (a: string)
    ensures var info := w.receiveAddress(currencyCode);
      a == if Truthy(info.legacyAddress) && currencyCode != "DGB" then info.legacyAddress.value
           else info.publicAddress
  {
    ChooseAddress(w.receiveAddress(currencyCode), DontUseLegacy, currencyCode)
  }

  /** The refund address, on the source wallet. */
  function FromAddress(req: SwapRequest): string {
    GetAddress(req.fromWallet, req.fromCurrencyCode)
  }

  /** The payout address, on the destination wallet. */
  function ToAddress(req: SwapRequest): string {
    GetAddress(req.toWallet, req.toCurrencyCode)
  }

  // ---------------------------------------------------------------------
  // Reading results (a missing or differently shaped result throws)

  function RateOf(reply: RpcReply): Result<FixRate> {
    match reply.result
    case Some(RateResult(rate)) => Success(rate)
    case _ => Failure(Fault(MalformedResult))
  }

  function FixedOrderOf(reply: RpcReply): Result<FixedQuoteInfo> {
    match reply.result
    case Some(FixedOrderResult(info)) => Success(info)
    case _ => Failure(Fault(MalformedResult))
  }

  function AmountOf(reply: RpcReply): Result<real> {
    match reply.result
    case Some(AmountResult(amount)) => Success(amount)
    case _ => Failure(Fault(MalformedResult))
  }

  function OrderOf(reply: RpcReply): Result<QuoteInfo> {
    match reply.result
    case Some(OrderResult(info)) => Success(info)
    case _ => Failure(Fault(MalformedResult))
  }

  // ---------------------------------------------------------------------
  // Requests the adapter builds

  /** The `createFixTransaction` parameters: the amount under `amount` for a
      forward quote and under `amountTo` for a reverse one, payout to the
      destination address, refund to the source address, no extra ids. */
  function FixOrderParams(req: SwapRequest, quoteAmount: real, fromAddress: string, toAddress: string, rateId: string): (p: FixTxParams)
    ensures p.amount.Amount? <==> req.quoteFor == From
    ensures p.amount == Amount(quoteAmount) || p.amount == AmountTo(quoteAmount)
    ensures p.from == req.fromCurrencyCode && p.to == req.toCurrencyCode
    ensures p.address == toAddress && p.refundAddress == fromAddress
    ensures p.extraId.None? && p.refundExtraId.None?
    ensures p.rateId == rateId
  {
    if req.quoteFor == From then
      FixTxParams(Amount(quoteAmount), req.fromCurrencyCode, req.toCurrencyCode, toAddress, None, fromAddress, None, rateId)
    else
      FixTxParams(AmountTo(quoteAmount), req.fromCurrencyCode, req.toCurrencyCode, toAddress, None, fromAddress, None, rateId)
  }

  /** The `getExchangeAmount` query: the pair is swapped for a reverse quote. */
  function ExchangeAmountCall(req: SwapRequest, quoteAmount: real): (c: RpcCall)
    ensures c.GetExchangeAmount? && c.amount == quoteAmount
    ensures req.quoteFor == From ==> c.from == req.fromCurrencyCode && c.to == req.toCurrencyCode
    ensures req.quoteFor == To ==> c.from == req.toCurrencyCode && c.to == req.fromCurrencyCode
  {
    match req.quoteFor
    case From => GetExchangeAmount(req.fromCurrencyCode, req.toCurrencyCode, quoteAmount)
    case To => GetExchangeAmount(req.toCurrencyCode, req.fromCurrencyCode, quoteAmount)
  }

  /** The `createTransaction` parameters of a floating order: the deposit
      amount, the pair as requested (never swapped, even for a reverse
      quote), payout to the destination and refund to the source address,
      no extra ids. */
  function OrderParams(req: SwapRequest, fromAmount: real, fromAddress: string, toAddress: string): (p: TxParams)
    ensures p.amount == fromAmount
    ensures p.from == req.fromCurrencyCode && p.to == req.toCurrencyCode
    ensures p.address == toAddress && p.refundAddress == fromAddress
    ensures p.extraId.None? && p.refundExtraId.None?
  {
    TxParams(fromAmount, req.fromCurrencyCode, req.toCurrencyCode, toAddress, None, fromAddress, None)
  }

  /** A spend of `nativeAmount` to the provider's pay-in address, with its
      extra id under `otherParams.uniqueIdentifier`. */
  function PayinSpend(currencyCode: string, nativeAmount: int, payinAddress: string, payinExtraId: Option<string>): SpendInfo {
    SpendInfo(currencyCode,
      [SpendTarget(nativeAmount, payinAddress, None, Some(map["uniqueIdentifier" := payinExtraId]))],
      None, None)
  }

  /** A spend whose first target names a pay-in address and extra id. */
  predicate HasPayinTarget(spend: SpendInfo) {
    |spend.spendTargets| > 0
    && spend.spendTargets[0].otherParams.Some?
    && "uniqueIdentifier" in spend.spendTargets[0].otherParams.value
  }

  // ---------------------------------------------------------------------
  // The transaction's otherParams, updated in place

  /** `otherParams` after the adapter records the pay-in address and extra
      id on it. Both keys are set, and every other key keeps its value. */
  function StampedParams(prior: Option<OtherParams>, payinAddress: string, extraId: Option<string>): (p: OtherParams)
    ensures "payinAddress" in p && p["payinAddress"] == Some(payinAddress)
    ensures "uniqueIdentifier" in p && p["uniqueIdentifier"] == extraId
    ensures forall k :: k in p && k != "payinAddress" && k != "uniqueIdentifier" ==>
      prior.Some? && k in prior.value && p[k] == prior.value[k]
    ensures prior.Some? ==> prior.value.Keys <= p.Keys
  {
    var base := if prior.Some? then prior.value else map[];
    base["payinAddress" := Some(payinAddress)]["uniqueIdentifier" := extraId]
  }

  method RecordPayin(tx: Transaction, payinAddress: string, extraId: Option<string>)
    modifies tx
    ensures tx.otherParams == Some(StampedParams(old(tx.otherParams), payinAddress, extraId))
  {
    if tx.otherParams.None? {
      tx.otherParams := Some(map[]);
    }
    tx.otherParams := Some(tx.otherParams.value["payinAddress" := Some(payinAddress)]);
    tx.otherParams := Some(tx.otherParams.value["uniqueIdentifier" := extraId]);
  }

  /** The transaction the source wallet builds for `spend`, with the
      spend's pay-in address and extra id recorded on it. */
  function StampedTx(w: Wallet, spend: SpendInfo): Result<TxView>
    requires HasPayinTarget(spend)
  {
    var target := spend.spendTargets[0];
    match w.makeSpend(spend)
    case SpendFailed(m) => Failure(Fault(m))
    case Spent(initial) =>
      Success(TxView(spend, Some(StampedParams(initial, target.publicAddress, target.otherParams.value["uniqueIdentifier"]))))
  }

  method MakeStampedSpend(w: Wallet, spend: SpendInfo) returns (r: Result<Transaction>)
    requires HasPayinTarget(spend)
    ensures r.Success? ==> fresh(r.value)
    ensures r.Success? <==> StampedTx(w, spend).Success?
    ensures r.Success? ==> r.value.View() == StampedTx(w, spend).value
    ensures r.Failure? ==> r.error == StampedTx(w, spend).error
  {
    var tx :- MakeSpend(w, spend);
    RecordPayin(tx, spend.spendTargets[0].publicAddress, spend.spendTargets[0].otherParams.value["uniqueIdentifier"]);
    r := Success(tx);
  }

  /** The transaction view pays the provider: one target at `payinAddress`,
      and `otherParams` carrying the pay-in address and extra id. */
  ghost predicate PaysIn(tx: TxView, currencyCode: string, nativeAmount: int, payinAddress: string, payinExtraId: Option<string>) {
    && tx.spendInfo == PayinSpend(currencyCode, nativeAmount, payinAddress, payinExtraId)
    && tx.otherParams.Some?
    && "payinAddress" in tx.otherParams.value && tx.otherParams.value["payinAddress"] == Some(payinAddress)
    && "uniqueIdentifier" in tx.otherParams.value && tx.otherParams.value["uniqueIdentifier"] == payinExtraId
  }

  // ---------------------------------------------------------------------
  // The fixed-rate path

  /** The limit check of the fixed path. The bounds are `minFrom`/`maxFrom`
      for a forward quote and `minTo`/`maxTo` for a reverse one. Either way
      they are converted by the source wallet in the source currency, and
      compared with the requested native amount. */
  function FixedLimitCheck(req: SwapRequest, rate: FixRate): (o: Outcome)
    ensures o.Pass? <==> WithinFixedLimits(req, rate)
    ensures o.Fail? ==>
      o.error == BelowLimit(req.fromWallet.denominationToNative(
                   if req.quoteFor == From then rate.minFrom else rate.minTo, req.fromCurrencyCode))
      || o.error == AboveLimit(req.fromWallet.denominationToNative(
                   if req.quoteFor == From then rate.maxFrom else rate.maxTo, req.fromCurrencyCode))
  {
    var min := if req.quoteFor == From then rate.minFrom else rate.minTo;
    var max := if req.quoteFor == From then rate.maxFrom else rate.maxTo;
    CheckLimits(req.nativeAmount,
      req.fromWallet.denominationToNative(min, req.fromCurrencyCode),
      req.fromWallet.denominationToNative(max, req.fromCurrencyCode))
  }

  /** The fixed path from the `createFixTransaction` reply on. */
  function FixedOrderOutcome(req: SwapRequest, reply: HttpReply, now: int): Result<QuoteArgs<TxView>> {
    var body :- Receive(reply);
    var checked :- Checked(body, req);
    var info :- FixedOrderOf(checked);
    var spend := PayinSpend(req.fromCurrencyCode,
      req.fromWallet.denominationToNative(info.amountExpectedFrom, Text.ToUpper(info.currencyFrom)),
      info.payinAddress, info.payinExtraId);
    var tx :- StampedTx(req.fromWallet, spend);
    Success(QuoteArgs(
      req.fromWallet.denominationToNative(info.amountExpectedFrom, req.fromCurrencyCode),
      req.fromWallet.denominationToNative(info.amountExpectedTo, req.toCurrencyCode),
      tx, ToAddress(req), PluginId, false, now + ExpirationFixedMs, info.id))
  }

  /** `getFixedQuote`: the calls it issues and how it ends. The `getFixRate`
      reply is not checked for an error; only its result is read. */
  function FixedRun(server: RpcCall -> HttpReply, req: SwapRequest, now: int): (run: Run<RpcCall, QuoteArgs<TxView>>)
    ensures 1 <= |run.calls| <= 2
    ensures run.calls[0] == GetFixRate(req.fromCurrencyCode, req.toCurrencyCode)
    ensures |run.calls| == 2 ==> run.calls[1].CreateFixTransaction?
    ensures run.outcome.Success? ==> |run.calls| == 2
  {
    var rateCall := GetFixRate(req.fromCurrencyCode, req.toCurrencyCode);
    match Receive(server(rateCall))
    case Failure(e) => Run([rateCall], Failure(e))
    case Success(rateReply) =>
      match RateOf(rateReply)
      case Failure(e) => Run([rateCall], Failure(e))
      case Success(rate) =>
        match FixedLimitCheck(req, rate)
        case Fail(e) => Run([rateCall], Failure(e))
        case Pass =>
          var orderCall := CreateFixTransaction(
            FixOrderParams(req, QuoteAmount(req), FromAddress(req), ToAddress(req), rate.id));
          Run([rateCall, orderCall], FixedOrderOutcome(req, server(orderCall), now))
  }

  /** The quote a path returns, with its transaction object read as a value. */
  function View(r: Result<QuoteArgs<Transaction>>): Result<QuoteArgs<TxView>>
    reads if r.Success? then {r.value.tx} else {}
  {
    match r
    case Failure(e) => Failure(e)
    case Success(q) =>
      Success(QuoteArgs(q.fromNativeAmount, q.toNativeAmount, q.tx.View(), q.destinationAddress,
        q.pluginId, q.isEstimate, q.expirationDate, q.quoteId))
  }

  method GetFixedQuote(t: Transport, req: SwapRequest, now: int) returns (r: Result<QuoteArgs<Transaction>>)
    modifies t
    ensures t.sent == old(t.sent) + FixedRun(t.server, req, now).calls
    ensures r.Success? ==> fresh(r.value.tx)
    ensures View(r) == FixedRun(t.server, req, now).outcome
  {
    var fromAddress := GetAddress(req.fromWallet, req.fromCurrencyCode);
    var toAddress := GetAddress(req.toWallet, req.toCurrencyCode);
    var quoteAmount := QuoteAmount(req);

    var fixedRateQuote :- t.Call(GetFixRate(req.fromCurrencyCode, req.toCurrencyCode));
    var rate :- RateOf(fixedRateQuote);
    var min := if req.quoteFor == From then rate.minFrom else rate.minTo;
    var max := if req.quoteFor == From then rate.maxFrom else rate.maxTo;
    var nativeMin := req.fromWallet.denominationToNative(min, req.fromCurrencyCode);
    var nativeMax := req.fromWallet.denominationToNative(max, req.fromCurrencyCode);
    if req.nativeAmount < nativeMin {
      return Failure(BelowLimit(nativeMin));
    }
    if req.nativeAmount > nativeMax {
      return Failure(AboveLimit(nativeMax));
    }
    var params := FixOrderParams(req, quoteAmount, fromAddress, toAddress, rate.id);

    var sendReply :- t.Call(CreateFixTransaction(params));
    :- CheckReply(sendReply, req);
    var quoteInfo :- FixedOrderOf(sendReply);
    var spendInfoAmount := req.fromWallet.denominationToNative(quoteInfo.amountExpectedFrom, Text.ToUpper(quoteInfo.currencyFrom));
    var spendInfo := PayinSpend(req.fromCurrencyCode, spendInfoAmount, quoteInfo.payinAddress, quoteInfo.payinExtraId);
    var tx :- MakeStampedSpend(req.fromWallet, spendInfo);

    var amountExpectedFromNative := req.fromWallet.denominationToNative(quoteInfo.amountExpectedFrom, req.fromCurrencyCode);
    var amountExpectedToTo := req.fromWallet.denominationToNative(quoteInfo.amountExpectedTo, req.toCurrencyCode);
    r := Success(QuoteArgs(amountExpectedFromNative, amountExpectedToTo, tx, toAddress, PluginId, false,
      now + ExpirationFixedMs, quoteInfo.id));
  }

  // ---------------------------------------------------------------------
  // The estimate path

  /** The amounts of a floating order: what is deposited (in the source's
      human denomination) and the two native amounts. */
  datatype EstimateAmounts = EstimateAmounts(fromAmount: real, fromNativeAmount: int, toNativeAmount: int)

  /** A forward quote deposits the requested amount and receives the
      estimate. A reverse quote receives the requested amount and deposits
      the estimate plus the slippage margin. */
  function AmountsFor(req: SwapRequest, quoteAmount: real, estimate: real): (a: EstimateAmounts)
    ensures req.quoteFor == From ==>
      && a.fromAmount == quoteAmount
      && a.fromNativeAmount == req.nativeAmount
      && a.toNativeAmount == req.toWallet.denominationToNative(estimate, req.toCurrencyCode)
    ensures req.quoteFor == To ==>
      && a.toNativeAmount == req.nativeAmount
      && a.fromAmount == estimate * 1.02
      && a.fromNativeAmount == req.fromWallet.denominationToNative(estimate * 1.02, req.fromCurrencyCode)
  {
    match req.quoteFor
    case From =>
      EstimateAmounts(quoteAmount, req.nativeAmount, req.toWallet.denominationToNative(estimate, req.toCurrencyCode))
    case To =>
      var fromAmount := estimate * Slippage;
      EstimateAmounts(fromAmount, req.fromWallet.denominationToNative(fromAmount, req.fromCurrencyCode), req.nativeAmount)
  }

  /** The estimate path from the two concurrent query replies through the
      minimum check. HTTP failures come first: the minimum query's before
      the estimate's, where the source surfaces whichever arrives first.
      Then `checkReply` runs on the minimum reply, then on the estimate
      reply. */
  function EstimatePrecheck(req: SwapRequest, minReply: HttpReply, amountReply: HttpReply): Result<EstimateAmounts> {
    var minBody :- Receive(minReply);
    var amountBody :- Receive(amountReply);
    var minChecked :- Checked(minBody, req);
    var amountChecked :- Checked(amountBody, req);
    var estimate :- AmountOf(amountChecked);
    var amounts := AmountsFor(req, QuoteAmount(req), estimate);
    var min :- AmountOf(minChecked);
    match CheckMinimum(amounts.fromNativeAmount, req.fromWallet.denominationToNative(min, req.fromCurrencyCode))
    case Fail(e) => Failure(e)
    case Pass => Success(amounts)
  }

  /** The estimate path from the `createTransaction` reply on. */
  function EstimateOrderOutcome(req: SwapRequest, amounts: EstimateAmounts, reply: HttpReply, now: int): Result<QuoteArgs<TxView>> {
    var body :- Receive(reply);
    var checked :- Checked(body, req);
    var info :- OrderOf(checked);
    var tx :- StampedTx(req.fromWallet,
      PayinSpend(req.fromCurrencyCode, amounts.fromNativeAmount, info.payinAddress, info.payinExtraId));
    Success(QuoteArgs(amounts.fromNativeAmount, amounts.toNativeAmount, tx, ToAddress(req), PluginId, true,
      now + ExpirationMs, info.id))
  }

  /** `getEstimate`: the calls it issues and how it ends. */
  function EstimateRun(server: RpcCall -> HttpReply, req: SwapRequest, now: int): (run: Run<RpcCall, QuoteArgs<TxView>>)
    ensures 2 <= |run.calls| <= 3
    ensures run.calls[0] == GetMinAmount(req.fromCurrencyCode, req.toCurrencyCode)
    ensures run.calls[1] == ExchangeAmountCall(req, QuoteAmount(req))
    ensures |run.calls| == 3 ==> run.calls[2].CreateTransaction?
    ensures run.outcome.Success? ==> |run.calls| == 3 && run.outcome.value.isEstimate
  {
    var minCall := GetMinAmount(req.fromCurrencyCode, req.toCurrencyCode);
    var amountCall := ExchangeAmountCall(req, QuoteAmount(req));
    match EstimatePrecheck(req, server(minCall), server(amountCall))
    case Failure(e) => Run([minCall, amountCall], Failure(e))
    case Success(amounts) =>
      var orderCall := CreateTransaction(OrderParams(req, amounts.fromAmount, FromAddress(req), ToAddress(req)));
      Run([minCall, amountCall, orderCall], EstimateOrderOutcome(req, amounts, server(orderCall), now))
  }

  method GetEstimate(t: Transport, req: SwapRequest, now: int) returns (r: Result<QuoteArgs<Transaction>>)
    modifies t
    ensures t.sent == old(t.sent) + EstimateRun(t.server, req, now).calls
    ensures r.Success? ==> fresh(r.value.tx)
    ensures View(r) == EstimateRun(t.server, req, now).outcome
  {
    var fromAddress := GetAddress(req.fromWallet, req.fromCurrencyCode);
    var toAddress := GetAddress(req.toWallet, req.toCurrencyCode);
    var quoteAmount := QuoteAmount(req);
    var quoteParams := ExchangeAmountCall(req, quoteAmount);

    var minReply := t.Call(GetMinAmount(req.fromCurrencyCode, req.toCurrencyCode));
    var amountReply := t.Call(quoteParams);
    var minBody :- minReply;
    var amountBody :- amountReply;
    :- CheckReply(minBody, req);
    :- CheckReply(amountBody, req);

    var estimate :- AmountOf(amountBody);
    var fromAmount: real, fromNativeAmount: int, toNativeAmount: int;
    if req.quoteFor == From {
      fromAmount := quoteAmount;
      fromNativeAmount := req.nativeAmount;
      toNativeAmount := req.toWallet.denominationToNative(estimate, req.toCurrencyCode);
    } else {
      fromAmount := estimate * Slippage;
      fromNativeAmount := req.fromWallet.denominationToNative(fromAmount, req.fromCurrencyCode);
      toNativeAmount := req.nativeAmount;
    }

    var min :- AmountOf(minBody);
    var nativeMin := req.fromWallet.denominationToNative(min, req.fromCurrencyCode);
    if fromNativeAmount < nativeMin {
      return Failure(BelowLimit(nativeMin));
    }

    var sendReply :- t.Call(CreateTransaction(OrderParams(req, fromAmount, fromAddress, toAddress)));
    :- CheckReply(sendReply, req);
    var quoteInfo :- OrderOf(sendReply);
    var spendInfo := PayinSpend(req.fromCurrencyCode, fromNativeAmount, quoteInfo.payinAddress, quoteInfo.payinExtraId);
    var tx :- MakeStampedSpend(req.fromWallet, spendInfo);
    r := Success(QuoteArgs(fromNativeAmount, toNativeAmount, tx, toAddress, PluginId, true,
      now + ExpirationMs, quoteInfo.id));
  }

  // ---------------------------------------------------------------------
  // Negotiation

  /** Race with fallback: a successful fixed quote wins; otherwise the
      estimate's outcome is returned, success or failure, and the fixed
      path's error is dropped. */
  function Arbitrate<Q>(fixed: Result<Q>, estimate: Result<Q>): (r: Result<Q>)
    ensures r.Success? <==> fixed.Success? || estimate.Success?
    ensures fixed.Success? ==> r == fixed
    ensures r != fixed ==> r == estimate
    ensures r.Failure? ==> r.error == estimate.error
  {
    if fixed.Success? then fixed else estimate
  }

  /** `fetchSwapQuote`: both paths run to completion, fixed first, and their
      outcomes are arbitrated. */
  function FetchRun(server: RpcCall -> HttpReply, req: SwapRequest, now: int): (run: Run<RpcCall, QuoteArgs<TxView>>)
    ensures run.outcome.Success? <==>
      FixedRun(server, req, now).outcome.Success? || EstimateRun(server, req, now).outcome.Success?
    ensures run.outcome.Failure? ==> run.outcome.error == EstimateRun(server, req, now).outcome.error
    ensures 3 <= |run.calls| <= 5
    ensures run.calls[0] == GetFixRate(req.fromCurrencyCode, req.toCurrencyCode)
    ensures run.calls[|FixedRun(server, req, now).calls|] == GetMinAmount(req.fromCurrencyCode, req.toCurrencyCode)
  {
    var fixed := FixedRun(server, req, now);
    var estimate := EstimateRun(server, req, now);
    Run(fixed.calls + estimate.calls, Arbitrate(fixed.outcome, estimate.outcome))
  }

  method FetchSwapQuote(t: Transport, req: SwapRequest, now: int) returns (r: Result<QuoteArgs<Transaction>>)
    modifies t
    ensures t.sent == old(t.sent) + FetchRun(t.server, req, now).calls
    ensures r.Success? ==> fresh(r.value.tx)
    ensures View(r) == FetchRun(t.server, req, now).outcome
  {
    var fixedResult := GetFixedQuote(t, req, now);
    var estimateResult := GetEstimate(t, req, now);
    r := Arbitrate(fixedResult, estimateResult);
  }

  // ---------------------------------------------------------------------
  // Properties of the fixed-rate path

  /** The provider answered `getFixRate` with HTTP success and the rate
      `rate`, whatever the reply's `error` member says. */
  ghost predicate RateReplied(server: RpcCall -> HttpReply, req: SwapRequest, rate: FixRate) {
    var reply := server(GetFixRate(req.fromCurrencyCode, req.toCurrencyCode));
    200 <= reply.status <= 299 && reply.body.result == Some(RateResult(rate))
  }

  /** The amount lies within the fixed path's bounds, as the path converts them. */
  ghost predicate WithinFixedLimits(req: SwapRequest, rate: FixRate) {
    var min := if req.quoteFor == From then rate.minFrom else rate.minTo;
    var max := if req.quoteFor == From then rate.maxFrom else rate.maxTo;
    req.fromWallet.denominationToNative(min, req.fromCurrencyCode) <= req.nativeAmount
    <= req.fromWallet.denominationToNative(max, req.fromCurrencyCode)
  }

  /** Once the rate is known, the limits alone decide what happens next:
      under the minimum is refused with the minimum and over the maximum
      with the maximum, in that order of precedence, both before any order
      is created. Within the bounds (ends included) exactly one
      `createFixTransaction` follows. */
  lemma FixedLimitsDecideOrder(server: RpcCall -> HttpReply, req: SwapRequest, now: int, rate: FixRate)
    requires RateReplied(server, req, rate)
    ensures var run := FixedRun(server, req, now);
      var rateCall := GetFixRate(req.fromCurrencyCode, req.toCurrencyCode);
      var min := if req.quoteFor == From then rate.minFrom else rate.minTo;
      var max := if req.quoteFor == From then rate.maxFrom else rate.maxTo;
      var nativeMin := req.fromWallet.denominationToNative(min, req.fromCurrencyCode);
      var nativeMax := req.fromWallet.denominationToNative(max, req.fromCurrencyCode);
      && (req.nativeAmount < nativeMin ==> run == Run([rateCall], Failure(BelowLimit(nativeMin))))
      && (nativeMin <= req.nativeAmount && nativeMax < req.nativeAmount ==>
            run == Run([rateCall], Failure(AboveLimit(nativeMax))))
      && (nativeMin <= req.nativeAmount <= nativeMax ==>
            run.calls == [rateCall, CreateFixTransaction(
              FixOrderParams(req, QuoteAmount(req), FromAddress(req), ToAddress(req), rate.id))])
  {
  }

  /** The fixed path asks for the rate first, and creates an order only
      with a rate whose limits the amount meets. The order carries that
      rate's id. */
  lemma FixedOrderOnlyWithinLimits(server: RpcCall -> HttpReply, req: SwapRequest, now: int)
    ensures var run := FixedRun(server, req, now);
      && 1 <= |run.calls| <= 2
      && run.calls[0] == GetFixRate(req.fromCurrencyCode, req.toCurrencyCode)
      && (|run.calls| == 2 ==>
            exists rate ::
              && RateReplied(server, req, rate)
              && WithinFixedLimits(req, rate)
              && run.calls[1] == CreateFixTransaction(
                   FixOrderParams(req, QuoteAmount(req), FromAddress(req), ToAddress(req), rate.id)))
      && (run.outcome.Success? ==> |run.calls| == 2)
  {
    var run := FixedRun(server, req, now);
    if |run.calls| == 2 {
      var rate := RateOf(Receive(server(GetFixRate(req.fromCurrencyCode, req.toCurrencyCode))).value).value;
      assert RateReplied(server, req, rate) && WithinFixedLimits(req, rate);
    }
  }

  /** A `getFixRate` reply without its `error` member. */
  function WithoutRateError(server: RpcCall -> HttpReply, req: SwapRequest): RpcCall -> HttpReply {
    var rateCall := GetFixRate(req.fromCurrencyCode, req.toCurrencyCode);
    c => if c == rateCall then
           var reply := server(c);
           HttpReply(reply.status, RpcReply(None, reply.body.result))
         else server(c)
  }

  /** The `getFixRate` reply never goes through `checkReply`: an error
      member on it changes nothing, so an error reply that still carries a
      rate is used as a rate. */
  lemma FixRateErrorIgnored(server: RpcCall -> HttpReply, req: SwapRequest, now: int)
    ensures FixedRun(WithoutRateError(server, req), req, now) == FixedRun(server, req, now)
  {
    var server' := WithoutRateError(server, req);
    var rateCall := GetFixRate(req.fromCurrencyCode, req.toCurrencyCode);
    assert server'(rateCall).status == server(rateCall).status;
    assert server'(rateCall).body.result == server(rateCall).body.result;
    var orderCall := c => CreateFixTransaction(
      FixOrderParams(req, QuoteAmount(req), FromAddress(req), ToAddress(req), c));
    forall id: string ensures server'(orderCall(id)) == server(orderCall(id)) {
      assert orderCall(id) != rateCall;
    }
  }

  /** The provider answered `call` with HTTP success, no error, and the
      fixed order `info`. */
  ghost predicate FixedOrderReplied(server: RpcCall -> HttpReply, call: RpcCall, info: FixedQuoteInfo) {
    var reply := server(call);
    200 <= reply.status <= 299 && reply.body.error.None? && reply.body.result == Some(FixedOrderResult(info))
  }

  /** A fixed quote is a locked, non-estimate quote that expires five minutes
      after `now`. It pays the provider's pay-in address and extra id, in
      the source wallet's conversion of the expected deposit. Its amounts
      are the order's expected amounts, both converted by the source wallet,
      the expected payout in the destination currency. */
  lemma FixedQuoteIsLocked(server: RpcCall -> HttpReply, req: SwapRequest, now: int)
    ensures var run := FixedRun(server, req, now);
      run.outcome.Success? ==>
        var q := run.outcome.value;
        && |run.calls| == 2
        && !q.isEstimate
        && q.expirationDate == now + ExpirationFixedMs
        && q.pluginId == PluginId
        && q.destinationAddress == ToAddress(req)
        && exists info :: FixedOrderReplied(server, run.calls[1], info)
             && q.quoteId == info.id
             && q.fromNativeAmount == req.fromWallet.denominationToNative(info.amountExpectedFrom, req.fromCurrencyCode)
             && q.toNativeAmount == req.fromWallet.denominationToNative(info.amountExpectedTo, req.toCurrencyCode)
             && PaysIn(q.tx, req.fromCurrencyCode,
                  req.fromWallet.denominationToNative(info.amountExpectedFrom, Text.ToUpper(info.currencyFrom)),
                  info.payinAddress, info.payinExtraId)
  {
    var run := FixedRun(server, req, now);
    if run.outcome.Success? {
      var body := server(run.calls[1]).body;
      var info := FixedOrderOf(body).value;
      assert FixedOrderReplied(server, run.calls[1], info);
    }
  }

  // ---------------------------------------------------------------------
  // Properties of the estimate path

  /** Both queries are always issued, before any reply is examined:
      `getMinAmount` for the pair as requested, `getExchangeAmount` for the
      pair swapped when the quote is reverse. At most one order follows. */
  lemma EstimateQueriesFirst(server: RpcCall -> HttpReply, req: SwapRequest, now: int)
    ensures var run := EstimateRun(server, req, now);
      && 2 <= |run.calls| <= 3
      && run.calls[0] == GetMinAmount(req.fromCurrencyCode, req.toCurrencyCode)
      && run.calls[1] == ExchangeAmountCall(req, QuoteAmount(req))
      && (run.outcome.Success? ==> |run.calls| == 3)
  {
  }

  /** Both query replies pass `checkReply` before any amount is computed:
      an error member on either ends the path with `checkReply`'s verdict
      (the minimum query's first) and no order is created. */
  lemma EstimateRepliesChecked(server: RpcCall -> HttpReply, req: SwapRequest, now: int)
    ensures var run := EstimateRun(server, req, now);
      var minReply := server(GetMinAmount(req.fromCurrencyCode, req.toCurrencyCode));
      var amountReply := server(ExchangeAmountCall(req, QuoteAmount(req)));
      && (|run.calls| == 3 ==> minReply.body.error.None? && amountReply.body.error.None?)
      && (Receive(minReply).Success? && Receive(amountReply).Success? && minReply.body.error.Some? ==>
            run.outcome == Failure(CheckReply(minReply.body, req).error) && |run.calls| == 2)
      && (Receive(minReply).Success? && Receive(amountReply).Success? && minReply.body.error.None?
          && amountReply.body.error.Some? ==>
            run.outcome == Failure(CheckReply(amountReply.body, req).error) && |run.calls| == 2)
  {
  }

  /** Both queries came back with HTTP success, no error, the minimum `min`
      and the estimate `estimate`. */
  ghost predicate QueriesReplied(server: RpcCall -> HttpReply, req: SwapRequest, min: real, estimate: real) {
    var minReply := server(GetMinAmount(req.fromCurrencyCode, req.toCurrencyCode));
    var amountReply := server(ExchangeAmountCall(req, QuoteAmount(req)));
    && 200 <= minReply.status <= 299 && minReply.body.error.None?
    && minReply.body.result == Some(AmountResult(min))
    && 200 <= amountReply.status <= 299 && amountReply.body.error.None?
    && amountReply.body.result == Some(AmountResult(estimate))
  }

  /** The estimate path's only limit: the deposit, in native units, against
      the source wallet's conversion of the minimum. A forward quote
      deposits the requested amount. A reverse quote deposits the estimate
      plus 2%. Below the minimum is refused with it and no order is
      created. Otherwise `createTransaction` follows for that deposit. */
  lemma EstimateMinimumDecidesOrder(server: RpcCall -> HttpReply, req: SwapRequest, now: int, min: real, estimate: real)
    requires QueriesReplied(server, req, min, estimate)
    ensures var run := EstimateRun(server, req, now);
      var fromAmount := if req.quoteFor == From then QuoteAmount(req) else estimate * 1.02;
      var fromNativeAmount := if req.quoteFor == From then req.nativeAmount
                              else req.fromWallet.denominationToNative(estimate * 1.02, req.fromCurrencyCode);
      var nativeMin := req.fromWallet.denominationToNative(min, req.fromCurrencyCode);
      && (run.outcome == Failure(BelowLimit(nativeMin)) <==> fromNativeAmount < nativeMin)
      && (fromNativeAmount < nativeMin ==> |run.calls| == 2)
      && (nativeMin <= fromNativeAmount ==>
            |run.calls| == 3
            && run.calls[2] == CreateTransaction(TxParams(fromAmount, req.fromCurrencyCode, req.toCurrencyCode,
                 ToAddress(req), None, FromAddress(req), None)))
  {
  }

  /** The estimate path checks no maximum. */
  lemma EstimateHasNoMaximum(server: RpcCall -> HttpReply, req: SwapRequest, now: int)
    ensures var run := EstimateRun(server, req, now);
      run.outcome.Failure? ==> !run.outcome.error.AboveLimit?
  {
  }

  /** The provider answered `call` with HTTP success, no error, and the
      floating order `info`. */
  ghost predicate OrderReplied(server: RpcCall -> HttpReply, call: RpcCall, info: QuoteInfo) {
    var reply := server(call);
    200 <= reply.status <= 299 && reply.body.error.None? && reply.body.result == Some(OrderResult(info))
  }

  /** An estimate quote is marked as an estimate and expires twenty minutes
      after `now`. For a forward quote it deposits the requested amount and
      receives the destination wallet's conversion of the estimate. For a
      reverse quote it receives the requested amount and deposits the source
      wallet's conversion of the estimate plus 2%. It pays exactly that
      deposit to the order's pay-in address and extra id. */
  lemma EstimateQuoteShape(server: RpcCall -> HttpReply, req: SwapRequest, now: int, min: real, estimate: real)
    requires QueriesReplied(server, req, min, estimate)
    ensures var run := EstimateRun(server, req, now);
      run.outcome.Success? ==>
        var q := run.outcome.value;
        && q.isEstimate
        && q.expirationDate == now + ExpirationMs
        && q.pluginId == PluginId
        && q.destinationAddress == ToAddress(req)
        && (req.quoteFor == From ==>
              q.fromNativeAmount == req.nativeAmount
              && q.toNativeAmount == req.toWallet.denominationToNative(estimate, req.toCurrencyCode))
        && (req.quoteFor == To ==>
              q.toNativeAmount == req.nativeAmount
              && q.fromNativeAmount == req.fromWallet.denominationToNative(estimate * 1.02, req.fromCurrencyCode))
        && exists info :: OrderReplied(server, run.calls[2], info)
             && q.quoteId == info.id
             && PaysIn(q.tx, req.fromCurrencyCode, q.fromNativeAmount, info.payinAddress, info.payinExtraId)
  {
    var run := EstimateRun(server, req, now);
    if run.outcome.Success? {
      var info := OrderOf(server(run.calls[2]).body).value;
      assert OrderReplied(server, run.calls[2], info);
    }
  }

  /** Every estimate quote is marked as one and expires twenty minutes on. */
  lemma EstimateQuoteIsEstimate(server: RpcCall -> HttpReply, req: SwapRequest, now: int)
    ensures var run := EstimateRun(server, req, now);
      run.outcome.Success? ==>
        run.outcome.value.isEstimate && run.outcome.value.expirationDate == now + ExpirationMs
  {
  }

  // ---------------------------------------------------------------------
  // Properties of the negotiation

  /** A fixed-rate quote is valid for a strictly shorter time than an estimate. */
  lemma FixedWindowShorter()
    ensures 0 < ExpirationFixedMs < ExpirationMs
  {
  }

  /** A successful fixed path decides the negotiation. */
  lemma FetchPrefersFixed(server: RpcCall -> HttpReply, req: SwapRequest, now: int)
    requires FixedRun(server, req, now).outcome.Success?
    ensures FetchRun(server, req, now).outcome == FixedRun(server, req, now).outcome
    ensures !FetchRun(server, req, now).outcome.value.isEstimate
  {
    FixedQuoteIsLocked(server, req, now);
  }

  /** When the fixed path fails, for whatever reason, the estimate path's
      outcome is returned as it is; the fixed path's error is never the
      answer unless the estimate failed the same way. */
  lemma FetchFallsBack(server: RpcCall -> HttpReply, req: SwapRequest, now: int)
    requires FixedRun(server, req, now).outcome.Failure?
    ensures FetchRun(server, req, now).outcome == EstimateRun(server, req, now).outcome
  {
  }

  /** A negotiated quote is an estimate exactly when the fixed path failed.
      It expires after `now`: five minutes on when fixed, twenty minutes on
      when an estimate. */
  lemma FetchQuoteKind(server: RpcCall -> HttpReply, req: SwapRequest, now: int)
    ensures var r := FetchRun(server, req, now).outcome;
      r.Success? ==>
        && (r.value.isEstimate <==> FixedRun(server, req, now).outcome.Failure?)
        && r.value.expirationDate == now + (if r.value.isEstimate then ExpirationMs else ExpirationFixedMs)
        && r.value.expirationDate > now
  {
    FixedQuoteIsLocked(server, req, now);
    EstimateQuoteIsEstimate(server, req, now);
  }

  /** An unsupported pair on the fixed path does not end the negotiation:
      with a successful estimate the caller gets the estimate. */
  lemma CurrencyErrorFallsBackToEstimate(server: RpcCall -> HttpReply, req: SwapRequest, now: int)
    requires FixedRun(server, req, now).outcome == Failure(CurrencyError(req.fromCurrencyCode, req.toCurrencyCode))
    requires EstimateRun(server, req, now).outcome.Success?
    ensures FetchRun(server, req, now).outcome == EstimateRun(server, req, now).outcome
    ensures FetchRun(server, req, now).outcome.value.isEstimate
  {
    EstimateQuoteIsEstimate(server, req, now);
  }
}
