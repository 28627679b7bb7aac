/** Fee quotes in 256-bit arithmetic, and why an accepted charge never exceeds its reservation. */
module Fees {
  import opened Prelude
  import B = BudgetModel
  import L = BudgetSteps

  datatype Asset = NativeAsset | TokenAsset | UnknownTokenAsset

  datatype FeePolicy = FeePolicy(
    network: NetworkID, maxFee: Wei, maxTip: Wei, minTip: Wei, tokenGas: Uint64, nativeGas: Uint64,
    overhead: Wei, unknownTokenCap: Wei, transactionCap: Wei, unboundedAdditionalFees: bool, estimatedBaseFees: bool)
  {
    // validFeePolicy
    predicate Valid() {
      && network > 0 && maxFee != 0 && maxTip != 0 && minTip <= maxTip && transactionCap != 0 && maxTip <= maxFee
      && tokenGas > 0 && nativeGas > 0
    }

    function GasLimit(asset: Asset): Uint64 { if asset == NativeAsset then nativeGas else tokenGas }
  }

  datatype FeeQuote = FeeQuote(tip: Wei, feeCap: Wei, gasLimit: Uint64, maximumCost: Wei)

  datatype Error =
    | InvalidFeePolicy | InvalidFeeInput | FeeUnderpriced | FeeCostOverflow
    | InvalidMinimumValue | MinimumValueOverflow | TrustedTokenValueNeeded | MinimumValue | MaximumCost
    | InvalidConfig | ReceiptInvalid

  // ---------- 256-bit words ----------

  datatype Word = Word(value: Wei, overflow: bool)

  const MODULUS: nat := MAX_UINT256 + 1

  function AddOverflow(a: Wei, b: Wei): Word {
    if a + b < MODULUS then Word(a + b, false) else Word(a + b - MODULUS, true)
  }

  function MulOverflow(a: Wei, b: Wei): Word {
    var product: nat := a * b;
    Word(product % MODULUS, product >= MODULUS)
  }

  // positiveUint256; an absent value is a nil argument.
  function Positive(value: Option<int>): Option<Wei> {
    if value.Some? && 0 < value.value <= MAX_UINT256 then Some(value.value) else None
  }

  // maximumFeeCost
  function MaximumFeeCost(gas: Uint64, feeCap: Wei, overhead: Wei): Result<Wei, Error> {
    var product := MulOverflow(gas, feeCap);
    if product.overflow then Err(FeeCostOverflow)
    else
      var total := AddOverflow(product.value, overhead);
      if total.overflow || total.value == 0 then Err(FeeCostOverflow) else Ok(total.value)
  }

  lemma MaximumFeeCostMeaning(gas: Uint64, feeCap: Wei, overhead: Wei)
    ensures MaximumFeeCost(gas, feeCap, overhead) ==
            (if 0 < gas * feeCap + overhead <= MAX_UINT256 then Ok(gas * feeCap + overhead) else Err(FeeCostOverflow))
  {
    var product: nat := gas * feeCap;
    if product < MODULUS {
      assert product % MODULUS == product;
    }
  }

  // ---------- BuildFeeQuote ----------

  // The priority fee: what the suggestion leaves above the base fee, within the policy's bounds.
  function TipOf(policy: FeePolicy, base: Wei, suggested: Wei): Wei {
    var tip: Wei := if suggested > base then suggested - base else 0;
    var raised := if tip < policy.minTip then policy.minTip else tip;
    if raised > policy.maxTip then policy.maxTip else raised
  }

  function FeeCapOf(policy: FeePolicy, base: Wei, tip: Wei): Wei {
    var doubled := AddOverflow(base, base);
    if doubled.overflow then policy.maxFee
    else
      var target := AddOverflow(doubled.value, tip);
      if !target.overflow && target.value < policy.maxFee then target.value else policy.maxFee
  }

  function BuildFeeQuote(policy: FeePolicy, asset: Asset, baseFee: Option<int>, suggestedPrice: Option<int>): Result<FeeQuote, Error> {
    if !policy.Valid() then Err(InvalidFeePolicy)
    else if Positive(baseFee).None? then Err(InvalidFeeInput)
    else if Positive(suggestedPrice).None? || (suggestedPrice.value <= baseFee.value && policy.minTip == 0) then Err(InvalidFeeInput)
    else
      var base, suggested := Positive(baseFee).value, Positive(suggestedPrice).value;
      var tip := TipOf(policy, base, suggested);
      var floor := AddOverflow(base, tip);
      if floor.overflow then Err(FeeCostOverflow)
      else
        var feeCap := FeeCapOf(policy, base, tip);
        if feeCap < floor.value then Err(FeeUnderpriced)
        else
          var maximum := MaximumFeeCost(policy.GasLimit(asset), feeCap, policy.overhead);
          if maximum.Err? then Err(maximum.error) else Ok(FeeQuote(tip, feeCap, policy.GasLimit(asset), maximum.value))
  }

  function Min(a: int, b: int): int { if a < b then a else b }

  function Max(a: int, b: int): int { if a < b then b else a }

  // No wrap-around leaks into the fee cap.
  lemma FeeCapFormula(policy: FeePolicy, base: Wei, tip: Wei)
    ensures FeeCapOf(policy, base, tip) == Min(policy.maxFee, 2 * base + tip)
  {
  }

  // The inputs a quote can be built from, over unbounded integers.
  ghost predicate Quotable(policy: FeePolicy, asset: Asset, base: int, suggested: int) {
    && policy.Valid() && 0 < base <= MAX_UINT256 && 0 < suggested <= MAX_UINT256
    && (suggested > base || policy.minTip > 0)
    && var tip := Min(policy.maxTip, Max(policy.minTip, suggested - base));
    && var feeCap := Min(policy.maxFee, 2 * base + tip);
    && base + tip <= feeCap
    && policy.GasLimit(asset) * feeCap + policy.overhead <= MAX_UINT256
  }

  lemma TipFormula(policy: FeePolicy, base: Wei, suggested: Wei)
    ensures TipOf(policy, base, suggested) == Min(policy.maxTip, Max(policy.minTip, suggested - base))
  {
  }

  // The last part of BuildFeeQuote, without 256-bit words.
  lemma QuoteFrom(policy: FeePolicy, asset: Asset, base: Wei, suggested: Wei)
    requires policy.Valid() && 0 < base && 0 < suggested && (suggested > base || policy.minTip > 0)
    ensures var tip := TipOf(policy, base, suggested);
            var feeCap := FeeCapOf(policy, base, tip);
            var maximum := MaximumFeeCost(policy.GasLimit(asset), feeCap, policy.overhead);
            var r := BuildFeeQuote(policy, asset, Some(base), Some(suggested));
            && (r.Ok? <==> base + tip <= feeCap && maximum.Ok?)
            && (r.Ok? ==> r.value == FeeQuote(tip, feeCap, policy.GasLimit(asset), maximum.value))
  {
  }

  // A quote exists exactly for those inputs; its fee cap is min(MaxFee, 2 * base + tip), pays the
  // base fee and the priority fee in full, and its maximum is gas * feeCap + overhead.
  lemma QuoteFormula(policy: FeePolicy, asset: Asset, base: int, suggested: int)
    ensures var r := BuildFeeQuote(policy, asset, Some(base), Some(suggested));
            && (r.Ok? <==> Quotable(policy, asset, base, suggested))
            && (r.Ok? ==>
                  && r.value.tip == Min(policy.maxTip, Max(policy.minTip, suggested - base))
                  && r.value.feeCap == Min(policy.maxFee, 2 * base + r.value.tip)
                  && base + r.value.tip <= r.value.feeCap <= policy.maxFee && 0 < r.value.tip <= policy.maxTip
                  && r.value.gasLimit == policy.GasLimit(asset)
                  && r.value.maximumCost == r.value.gasLimit * r.value.feeCap + policy.overhead)
  {
    if policy.Valid() && 0 < base <= MAX_UINT256 && 0 < suggested <= MAX_UINT256 && (suggested > base || policy.minTip > 0) {
      var tip := TipOf(policy, base, suggested);
      var feeCap := FeeCapOf(policy, base, tip);
      TipFormula(policy, base, suggested);
      FeeCapFormula(policy, base, tip);
      QuoteFrom(policy, asset, base, suggested);
      MaximumFeeCostMeaning(policy.GasLimit(asset), feeCap, policy.overhead);
      ProductPositive(policy.GasLimit(asset), feeCap);
    }
  }

  lemma ProductPositive(a: nat, b: nat)
    requires a > 0 && b > 0
    ensures a * b > 0
  {
  }

  // ---------- EvaluateMinimumValue ----------

  datatype Decision = Decision(allowed: bool, trusted: bool, required: Wei)

  function EvaluateMinimumValue(policy: FeePolicy, asset: Asset, source: Option<int>, minimumNet: Wei, maximumCost: Wei): Result<Decision, Error> {
    if !policy.Valid() || maximumCost == 0 then Err(InvalidMinimumValue)
    else
      match asset
      case NativeAsset =>
        if source.None? || source.value < 0 || source.value > MAX_UINT256 then Err(InvalidMinimumValue)
        else
          var required := AddOverflow(maximumCost, minimumNet);
          if required.overflow then Err(MinimumValueOverflow) else Ok(Decision(source.value >= required.value, true, required.value))
      case UnknownTokenAsset => Ok(Decision(maximumCost <= policy.unknownTokenCap, false, 0))
      case TokenAsset => Err(TrustedTokenValueNeeded)
  }

  // ---------- What the signing path reserves ----------

  // What is being rescued, with the limits configured for it.
  datatype Operation =
    | Native(source: Wei, minimumNet: Wei)
    | TrustedToken(source: Wei, minimumBalance: Wei, maximumCost: Wei)
    | UnknownToken
    | ClaimCall(gasLimit: Uint64, value: Wei, maximumCost: Wei)

  function AssetOf(op: Operation): Asset {
    match op
    case Native(_, _) => NativeAsset
    case UnknownToken => UnknownTokenAsset
    case _ => TokenAsset
  }

  // operationValue
  function ValueOf(op: Operation): Wei { if op.ClaimCall? then op.value else 0 }

  // The worst case of the transaction about to be signed.
  function WorstCase(policy: FeePolicy, op: Operation, fees: FeeQuote): Result<Wei, Error> {
    var base := if op.ClaimCall? then MaximumFeeCost(op.gasLimit, fees.feeCap, policy.overhead) else Ok(fees.maximumCost);
    if base.Err? then base
    else if AddOverflow(base.value, ValueOf(op)).overflow then Err(FeeCostOverflow)
    else Ok(AddOverflow(base.value, ValueOf(op)).value)
  }

  // The most a transaction of this kind may ever cost.
  function CapOf(policy: FeePolicy, op: Operation): Wei {
    match op
    case ClaimCall(_, _, maximumCost) => maximumCost
    case Native(_, _) => policy.transactionCap
    case UnknownToken => policy.unknownTokenCap
    case TrustedToken(_, _, maximumCost) => maximumCost
  }

  // Whether the operation is worth its worst case.
  predicate Worthwhile(policy: FeePolicy, op: Operation, worst: Wei) {
    match op
    case ClaimCall(_, _, _) => true
    case Native(source, minimumNet) =>
      var decision := EvaluateMinimumValue(policy, NativeAsset, Some(source), minimumNet, policy.transactionCap);
      decision.Ok? && decision.value.allowed
    case UnknownToken =>
      var decision := EvaluateMinimumValue(policy, UnknownTokenAsset, None, 0, worst);
      decision.Ok? && decision.value.allowed && !decision.value.trusted
    case TrustedToken(source, minimumBalance, maximumCost) => source >= minimumBalance && worst <= maximumCost
  }

  function GasOf(op: Operation, fees: FeeQuote): Uint64 { if op.ClaimCall? then op.gasLimit else fees.gasLimit }

  // The quote handed to the budget ledger.
  function SigningQuote(policy: FeePolicy, op: Operation, fees: FeeQuote): Result<B.CostQuote, Error> {
    var worst := WorstCase(policy, op, fees);
    if worst.Err? then Err(worst.error)
    else
      if !Worthwhile(policy, op, worst.value) then Err(MinimumValue)
      else if CapOf(policy, op) < worst.value then Err(MaximumCost)
      else Ok(B.CostQuote(GasOf(op, fees), fees.feeCap, CapOf(policy, op)))
  }

  lemma SigningCovers(policy: FeePolicy, op: Operation, fees: FeeQuote)
    requires SigningQuote(policy, op, fees).Ok? && fees.maximumCost == fees.gasLimit * fees.feeCap + policy.overhead && fees.maximumCost > 0
    ensures var q := SigningQuote(policy, op, fees).value;
            q.gasLimit * q.maxFeePerGas + policy.overhead + ValueOf(op) <= q.maximumCost && q.maximumCost > 0
  {
    MaximumFeeCostMeaning(GasOf(op, fees), fees.feeCap, policy.overhead);
  }

  // The most the transaction can cost, over unbounded integers.
  function Worst(policy: FeePolicy, op: Operation, fees: FeeQuote): nat {
    GasOf(op, fees) * fees.feeCap + policy.overhead + ValueOf(op)
  }

  lemma WorstCaseMeans(policy: FeePolicy, op: Operation, fees: FeeQuote)
    requires fees.maximumCost == fees.gasLimit * fees.feeCap + policy.overhead && fees.maximumCost > 0
    ensures WorstCase(policy, op, fees).Ok? <==> GasOf(op, fees) * fees.feeCap + policy.overhead > 0 && Worst(policy, op, fees) <= MAX_UINT256
    ensures WorstCase(policy, op, fees).Ok? ==> WorstCase(policy, op, fees).value == Worst(policy, op, fees)
  {
    MaximumFeeCostMeaning(GasOf(op, fees), fees.feeCap, policy.overhead);
  }

  // What makes an operation worth its cost: a native rescue must leave the minimum at the highest
  // cost allowed, a trusted token must have the minimum balance.
  predicate Pays(policy: FeePolicy, op: Operation) {
    match op
    case Native(source, minimumNet) => policy.transactionCap + minimumNet <= source
    case TrustedToken(source, minimumBalance, _) => minimumBalance <= source
    case _ => true
  }

  // The signing path reserves exactly for operations that pay and whose worst case is within their
  // cap; what it reserves is the cap.
  lemma SigningQuoteIff(policy: FeePolicy, op: Operation, fees: FeeQuote)
    requires policy.Valid() && fees.maximumCost == fees.gasLimit * fees.feeCap + policy.overhead && fees.maximumCost > 0
    ensures var r := SigningQuote(policy, op, fees);
            && (r.Ok? <==> 0 < GasOf(op, fees) * fees.feeCap + policy.overhead && Worst(policy, op, fees) <= CapOf(policy, op) && Pays(policy, op))
            && (r.Ok? ==> r.value == B.CostQuote(GasOf(op, fees), fees.feeCap, CapOf(policy, op)))
  {
    WorstCaseMeans(policy, op, fees);
  }

  // ---------- commitReceiptCost ----------

  datatype Receipt = Receipt(gasUsed: Uint64, price: Wei, successful: bool)

  function ReceiptCost(policy: FeePolicy, gas: Uint64, feeCap: Wei, value: Wei, receipt: Receipt, extra: Option<int>): Result<Wei, Error> {
    if policy.unboundedAdditionalFees && !policy.estimatedBaseFees then Err(InvalidConfig)
    else if receipt.gasUsed > gas || receipt.price > feeCap then Err(ReceiptInvalid)
    else
      var execution := MaximumFeeCost(receipt.gasUsed, receipt.price, 0);
      if execution.Err? then execution
      else if policy.estimatedBaseFees && (extra.None? || extra.value < 0 || extra.value > MAX_UINT256) then Err(ReceiptInvalid)
      else
        var total := if policy.estimatedBaseFees then AddOverflow(execution.value, extra.value) else Word(execution.value, false);
        if total.overflow then Err(FeeCostOverflow)
        else if !receipt.successful then Ok(total.value)
        else if AddOverflow(total.value, value).overflow then Err(FeeCostOverflow)
        else Ok(AddOverflow(total.value, value).value)
  }

  // The charge of a receipt: what was used at the price paid, the additional fee where it is read, and
  // the value of the operation if it succeeded. There is one exactly if the receipt stays within the
  // transaction and the sum is positive and fits the word.
  lemma ReceiptCostFormula(policy: FeePolicy, gas: Uint64, feeCap: Wei, value: Wei, receipt: Receipt, extra: Option<int>)
    ensures var r := ReceiptCost(policy, gas, feeCap, value, receipt, extra);
            var additional: int := if policy.estimatedBaseFees && extra.Some? then extra.value else 0;
            var execution := receipt.gasUsed * receipt.price;
            var total := execution + additional + (if receipt.successful then value else 0);
            && (r.Ok? <==>
                  && (policy.unboundedAdditionalFees ==> policy.estimatedBaseFees)
                  && receipt.gasUsed <= gas && receipt.price <= feeCap
                  && (policy.estimatedBaseFees ==> extra.Some? && 0 <= extra.value)
                  && execution > 0 && total <= MAX_UINT256)
            && (r.Ok? ==> r.value == total)
  {
    MaximumFeeCostMeaning(receipt.gasUsed, receipt.price, 0);
  }

  lemma ProductMonotone(a: nat, b: nat, x: nat, y: nat)
    requires a <= x && b <= y
    ensures a * b <= x * y
  {
    assert a * b <= a * y <= x * y;
  }

  // The fees the operation was quoted.
  predicate Quoted(policy: FeePolicy, op: Operation, base: int, suggested: int, fees: FeeQuote) {
    BuildFeeQuote(policy, AssetOf(op), Some(base), Some(suggested)) == Ok(fees)
  }

  // In bounded mode the charge of any accepted receipt is covered by what was reserved before
  // signing, the value of a claim included.
  lemma ChargeCovered(policy: FeePolicy, op: Operation, base: int, suggested: int, fees: FeeQuote, receipt: Receipt, extra: Option<int>)
    requires !policy.estimatedBaseFees && Quoted(policy, op, base, suggested, fees) && SigningQuote(policy, op, fees).Ok?
    ensures var q := SigningQuote(policy, op, fees).value;
            var cost := ReceiptCost(policy, q.gasLimit, q.maxFeePerGas, ValueOf(op), receipt, extra);
            cost.Ok? ==> 0 < cost.value <= q.maximumCost
  {
    var q := SigningQuote(policy, op, fees).value;
    QuoteFormula(policy, AssetOf(op), base, suggested);
    QuotePositive(policy, fees);
    SigningCovers(policy, op, fees);
    MaximumFeeCostMeaning(receipt.gasUsed, receipt.price, 0);
    if receipt.gasUsed <= q.gasLimit && receipt.price <= q.maxFeePerGas {
      ProductMonotone(receipt.gasUsed, receipt.price, q.gasLimit, q.maxFeePerGas);
    }
  }

  // A native rescue that is charged still nets the configured minimum.
  lemma NativeNetKept(policy: FeePolicy, op: Operation, base: int, suggested: int, fees: FeeQuote, receipt: Receipt, extra: Option<int>)
    requires !policy.estimatedBaseFees && op.Native? && Quoted(policy, op, base, suggested, fees) && SigningQuote(policy, op, fees).Ok?
    ensures var q := SigningQuote(policy, op, fees).value;
            var cost := ReceiptCost(policy, q.gasLimit, q.maxFeePerGas, 0, receipt, extra);
            cost.Ok? ==> op.source - cost.value >= op.minimumNet
  {
    ChargeCovered(policy, op, base, suggested, fees, receipt, extra);
  }

  lemma QuotePositive(policy: FeePolicy, fees: FeeQuote)
    requires policy.Valid() && fees.feeCap > 0 && fees.gasLimit > 0 && fees.maximumCost == fees.gasLimit * fees.feeCap + policy.overhead
    ensures fees.maximumCost > 0
  {
    ProductPositive(fees.gasLimit, fees.feeCap);
  }

  // Hence the ledger never refuses the charge of an exposed reservation made from that quote.
  lemma ChargeAccepted(c: B.Config, policy: FeePolicy, op: Operation, base: int, suggested: int, fees: FeeQuote, receipt: Receipt,
                       extra: Option<int>, r: B.Reservation, now: Time)
    requires !policy.estimatedBaseFees && Quoted(policy, op, base, suggested, fees)
    requires SigningQuote(policy, op, fees) == Ok(r.request.quote) && B.ValidReservation(c, r) && r.state == B.Exposed
    requires ReceiptCost(policy, r.request.quote.gasLimit, r.request.quote.maxFeePerGas, ValueOf(op), receipt, extra).Ok?
    ensures var cost := ReceiptCost(policy, r.request.quote.gasLimit, r.request.quote.maxFeePerGas, ValueOf(op), receipt, extra).value;
            L.Commit(c, r, L.Charge(r.id, r.txHash, cost, now), now).Ok?
  {
    ChargeCovered(policy, op, base, suggested, fees, receipt, extra);
  }
}
