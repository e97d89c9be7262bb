/** What the wallet core hands a swap adapter and expects back from it: the
    request, the two wallets' capabilities (foreign calls, kept
    uninterpreted), the spend the adapter asks a wallet to build, the
    transaction object it gets back, and the arguments of the final quote.
    Also the address choice and the limit checks that both adapters write
    out the same way. */
module Edge {
  import opened Results

  /** What `getReceiveAddress` answers: the public address and, for some
      chains, a legacy-format address. */
  datatype AddressInfo = AddressInfo(publicAddress: string, legacyAddress: Option<string>)

  /** JavaScript truthiness of an optional string: present and not empty. */
  predicate Truthy(s: Option<string>) {
    s.Some? && s.value != ""
  }

  /** A transaction's `otherParams` object; `None` values stand for `null`. */
  type OtherParams = map<string, Option<string>>

  datatype FeeOption = High | Standard

  /** The `swapInfo` record each adapter publishes about its provider. */
  datatype SwapInfo = SwapInfo(pluginId: string, displayName: string, supportEmail: string, supportUrl: Option<string>)

  /** The `swapData` record attached to a spend. */
  datatype SwapData = SwapData(
    orderId: string,
    isEstimate: bool,
    payoutAddress: string,
    payoutCurrencyCode: string,
    payoutNativeAmount: int,
    payoutWalletId: string,
    plugin: SwapInfo,
    refundAddress: string)

  datatype SpendTarget = SpendTarget(
    nativeAmount: int,
    publicAddress: string,
    uniqueIdentifier: Option<string>,
    otherParams: Option<OtherParams>)

  datatype SpendInfo = SpendInfo(
    currencyCode: string,
    spendTargets: seq<SpendTarget>,
    networkFeeOption: Option<FeeOption>,
    swapData: Option<SwapData>)

  /** What `makeSpend` does: build a transaction (whose `otherParams` the
      wallet may or may not set) or throw. */
  datatype SpendResult = Spent(otherParams: Option<OtherParams>) | SpendFailed(message: string)

  /** A wallet's capabilities. Each is a foreign call; nothing is assumed of
      them, in particular the two denomination conversions are not assumed
      to be inverses. Denomination amounts are exact decimals. */
  datatype Wallet = Wallet(
    id: string,
    receiveAddress: string -> AddressInfo,
    nativeToDenomination: (int, string) -> real,
    denominationToNative: (real, string) -> int,
    makeSpend: SpendInfo -> SpendResult)

  /** Which side `nativeAmount` is denominated in. */
  datatype QuoteFor = From | To

  datatype SwapRequest = SwapRequest(
    fromWallet: Wallet,
    toWallet: Wallet,
    fromCurrencyCode: string,
    toCurrencyCode: string,
    nativeAmount: int,
    quoteFor: QuoteFor)

  /** A transaction as a value: the spend it was built from and its `otherParams`. */
  datatype TxView = TxView(spendInfo: SpendInfo, otherParams: Option<OtherParams>)

  /** The transaction object `makeSpend` returns; adapters may update its
      `otherParams` in place before handing it on. */
  class Transaction {
    const spendInfo: SpendInfo
    var otherParams: Option<OtherParams>

    constructor (spendInfo: SpendInfo, otherParams: Option<OtherParams>)
      ensures this.spendInfo == spendInfo && this.otherParams == otherParams
    {
      this.spendInfo := spendInfo;
      this.otherParams := otherParams;
    }

    function View(): TxView
      reads this
    {
      TxView(spendInfo, otherParams)
    }
  }

  /** `wallet.makeSpend(spend)`: a new transaction object, or the wallet's
      error, thrown on as a fault. */
  method MakeSpend(w: Wallet, spend: SpendInfo) returns (r: Result<Transaction>)
    ensures r.Success? <==> w.makeSpend(spend).Spent?
    ensures r.Success? ==> fresh(r.value) && r.value.View() == TxView(spend, w.makeSpend(spend).otherParams)
    ensures r.Failure? ==> r.error == Fault(w.makeSpend(spend).message)
  {
    match w.makeSpend(spend)
    case SpendFailed(m) =>
      r := Failure(Fault(m));
    case Spent(otherParams) =>
      var tx := new Transaction(spend, otherParams);
      r := Success(tx);
  }

  /** The arguments an adapter passes to `makeSwapPluginQuote` (after the
      request itself): the quote is built from exactly these. `expirationDate`
      is in milliseconds since the epoch. */
  datatype QuoteArgs<Tx> = QuoteArgs(
    fromNativeAmount: int,
    toNativeAmount: int,
    tx: Tx,
    destinationAddress: string,
    pluginId: string,
    isEstimate: bool,
    expirationDate: int,
    quoteId: string)

  /** The address an adapter gives a provider for `currencyCode`: the legacy
      address when there is one and the code is not in the adapter's
      `dontUseLegacy` table, the public address otherwise. */
  function ChooseAddress(info: AddressInfo, dontUseLegacy: set<string>, currencyCode: string): (a: string)
    ensures Truthy(info.legacyAddress) && currencyCode !in dontUseLegacy ==> a == info.legacyAddress.value
    ensures !Truthy(info.legacyAddress) || currencyCode in dontUseLegacy ==> a == info.publicAddress
  {
    if Truthy(info.legacyAddress) && currencyCode !in dontUseLegacy then info.legacyAddress.value
    else info.publicAddress
  }

  /** The requested amount in the human denomination of the side `quoteFor`
      designates, converted by that side's wallet. */
  function QuoteAmount(req: SwapRequest): (a: real)
    ensures req.quoteFor == From ==> a == req.fromWallet.nativeToDenomination(req.nativeAmount, req.fromCurrencyCode)
    ensures req.quoteFor == To ==> a == req.toWallet.nativeToDenomination(req.nativeAmount, req.toCurrencyCode)
  {
    match req.quoteFor
    case From => req.fromWallet.nativeToDenomination(req.nativeAmount, req.fromCurrencyCode)
    case To => req.toWallet.nativeToDenomination(req.nativeAmount, req.toCurrencyCode)
  }

  /** The minimum-only limit check: an amount below the native minimum is
      refused with that minimum; the minimum itself is accepted. */
  function CheckMinimum(nativeAmount: int, nativeMin: int): (o: Outcome)
    ensures o.Pass? <==> nativeMin <= nativeAmount
    ensures o.Fail? ==> o.error == BelowLimit(nativeMin)
  {
    if nativeAmount < nativeMin then Fail(BelowLimit(nativeMin)) else Pass
  }

  /** The two-sided limit check: below the minimum is refused first, then
      above the maximum; both bounds are themselves accepted. */
  function CheckLimits(nativeAmount: int, nativeMin: int, nativeMax: int): (o: Outcome)
    ensures o.Pass? <==> nativeMin <= nativeAmount <= nativeMax
    ensures o == Fail(BelowLimit(nativeMin)) <==> nativeAmount < nativeMin
    ensures o == Fail(AboveLimit(nativeMax)) <==> nativeMin <= nativeAmount && nativeMax < nativeAmount
  {
    if nativeAmount < nativeMin then Fail(BelowLimit(nativeMin))
    else if nativeAmount > nativeMax then Fail(AboveLimit(nativeMax))
    else Pass
  }
}
