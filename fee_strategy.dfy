/** The fee-options resolver of `Crvusd.updateFeeData` and the override merge of
    `Crvusd.setCustomFeeData`. Transaction options are either legacy (a single gas
    price) or dynamic (the maximum fee and maximum priority fee per gas of the
    Specification section of EIP-1559). */
module FeeStrategy {
  import opened Wrappers
  import opened Providers

  /** `parseUnits(x, "gwei")`: one gwei is 10^9 wei. */
  const WeiPerGwei: int := 1_000_000_000

  /** Converts a whole-gwei override to wei; the conversion loses nothing. */
  function GweiToWei(gwei: int): (wei: int)
    ensures wei % WeiPerGwei == 0 && wei / WeiPerGwei == gwei
  {
    gwei * WeiPerGwei
  }

  /** The three properties of the `options` object. */
  datatype FeeField = GasPrice | MaxFeePerGas | MaxPriorityFeePerGas

  /** The `options` object: a field is in the map when the object has that property. */
  type TxOptions = map<FeeField, int>

  const DynamicFields: set<FeeField> := {MaxFeePerGas, MaxPriorityFeePerGas}

  /** The user's overrides in gwei (the `feeData` field); None is `undefined`. */
  datatype FeeOverride = FeeOverride(
    gasPrice: Option<int>,
    maxFeePerGas: Option<int>,
    maxPriorityFeePerGas: Option<int>)

  const NoOverride: FeeOverride := FeeOverride(None, None, None)

  /** One key of the object passed to `setCustomFeeData`: absent, or present with a
      value that may itself be `undefined`. Object spread copies a present key even
      when it holds `undefined`. */
  datatype FieldPatch = Absent | Present(value: Option<int>)

  datatype FeePatch = FeePatch(
    gasPrice: FieldPatch,
    maxFeePerGas: FieldPatch,
    maxPriorityFeePerGas: FieldPatch)

  function PatchField(current: Option<int>, patch: FieldPatch): Option<int> {
    if patch.Present? then patch.value else current
  }

  /** `{ ...feeData, ...customFeeData }`. */
  function Merge(feeData: FeeOverride, patch: FeePatch): (r: FeeOverride)
    ensures patch.gasPrice.Present? ==> r.gasPrice == patch.gasPrice.value
    ensures patch.gasPrice.Absent? ==> r.gasPrice == feeData.gasPrice
    ensures patch.maxFeePerGas.Present? ==> r.maxFeePerGas == patch.maxFeePerGas.value
    ensures patch.maxFeePerGas.Absent? ==> r.maxFeePerGas == feeData.maxFeePerGas
    ensures patch.maxPriorityFeePerGas.Present? ==> r.maxPriorityFeePerGas == patch.maxPriorityFeePerGas.value
    ensures patch.maxPriorityFeePerGas.Absent? ==> r.maxPriorityFeePerGas == feeData.maxPriorityFeePerGas
  {
    FeeOverride(PatchField(feeData.gasPrice, patch.gasPrice),
                PatchField(feeData.maxFeePerGas, patch.maxFeePerGas),
                PatchField(feeData.maxPriorityFeePerGas, patch.maxPriorityFeePerGas))
  }

  /** The single patch that has the effect of `first` followed by `second`. */
  function Then(first: FeePatch, second: FeePatch): FeePatch {
    FeePatch(if second.gasPrice.Present? then second.gasPrice else first.gasPrice,
             if second.maxFeePerGas.Present? then second.maxFeePerGas else first.maxFeePerGas,
             if second.maxPriorityFeePerGas.Present? then second.maxPriorityFeePerGas
             else first.maxPriorityFeePerGas)
  }

  /** Later calls win per field: two merges are one merge of the combined patch; a
      repeated merge changes nothing; an empty patch changes nothing. */
  lemma MergeLaterWins(feeData: FeeOverride, first: FeePatch, second: FeePatch)
    ensures Merge(Merge(feeData, first), second) == Merge(feeData, Then(first, second))
    ensures Merge(Merge(feeData, first), first) == Merge(feeData, first)
    ensures Merge(feeData, FeePatch(Absent, Absent, Absent)) == feeData
  {
  }

  /** What `getFeeData` reports; None is `null`. */
  datatype NetworkFees = NetworkFees(
    gasPrice: Option<int>,
    maxFeePerGas: Option<int>,
    maxPriorityFeePerGas: Option<int>)

  /** The legacy branch is taken when either dynamic field is null. */
  predicate IsLegacy(net: NetworkFees) {
    net.maxFeePerGas.None? || net.maxPriorityFeePerGas.None?
  }

  /** An override converted to wei if defined, else the fallback. */
  function OverrideOr(gwei: Option<int>, fallback: int): int {
    if gwei.Some? then GweiToWei(gwei.value) else fallback
  }

  /** The legacy gas price: the override, else the reported price, else the answer of
      the separate `getGasPrice` query (which may fail). */
  function LegacyGasPrice(net: NetworkFees, overrides: FeeOverride, gasPriceQuery: Result<int, NetworkError>)
    : Result<int, NetworkError>
  {
    if overrides.gasPrice.Some? then Success(GweiToWei(overrides.gasPrice.value))
    else if net.gasPrice.Some? then Success(net.gasPrice.value)
    else gasPriceQuery
  }

  /** Whether resolving against a fee snapshot fails: only the `getGasPrice` fallback can. */
  function ResolveOutcome(net: NetworkFees, overrides: FeeOverride, gasPriceQuery: Result<int, NetworkError>)
    : Outcome<NetworkError>
  {
    if IsLegacy(net) && LegacyGasPrice(net, overrides, gasPriceQuery).Failure? then
      Fail(LegacyGasPrice(net, overrides, gasPriceQuery).error)
    else Pass
  }

  /** The `options` object after resolving against a fee snapshot, starting from `prior`.
      The legacy branch deletes the dynamic fields before the gas price is known, so a
      failing `getGasPrice` leaves them deleted and the gas price as it was. */
  function Resolve(prior: TxOptions, net: NetworkFees, overrides: FeeOverride,
                   gasPriceQuery: Result<int, NetworkError>): TxOptions
  {
    if IsLegacy(net) then
      var cleared := prior - DynamicFields;
      match LegacyGasPrice(net, overrides, gasPriceQuery)
      case Success(price) => cleared[GasPrice := price]
      case Failure(_) => cleared
    else
      (prior - {GasPrice})
        [MaxFeePerGas := OverrideOr(overrides.maxFeePerGas, net.maxFeePerGas.value)]
        [MaxPriorityFeePerGas := OverrideOr(overrides.maxPriorityFeePerGas, net.maxPriorityFeePerGas.value)]
  }

  /** A successful resolution holds the gas price alone or both dynamic fields, never
      fields of both shapes and never nothing; which shape is decided by IsLegacy. */
  lemma ResolveShape(prior: TxOptions, net: NetworkFees, overrides: FeeOverride,
                     gasPriceQuery: Result<int, NetworkError>)
    requires ResolveOutcome(net, overrides, gasPriceQuery) == Pass
    ensures var r := Resolve(prior, net, overrides, gasPriceQuery);
      && (r.Keys == {GasPrice} <==> IsLegacy(net))
      && (r.Keys == DynamicFields <==> !IsLegacy(net))
      && (GasPrice in r <==> MaxFeePerGas !in r)
      && (MaxFeePerGas in r <==> MaxPriorityFeePerGas in r)
      && r != map[]
  {
    var r := Resolve(prior, net, overrides, gasPriceQuery);
    var expected := if IsLegacy(net) then {GasPrice} else DynamicFields;
    forall f: FeeField ensures f in r <==> f in expected {
      match f
      case GasPrice =>
      case MaxFeePerGas =>
      case MaxPriorityFeePerGas =>
    }
    assert r.Keys == expected;
  }

  /** A failed resolution has deleted the dynamic fields and left the gas price as it was. */
  lemma ResolveFailureIsPartial(prior: TxOptions, net: NetworkFees, overrides: FeeOverride,
                                gasPriceQuery: Result<int, NetworkError>)
    requires ResolveOutcome(net, overrides, gasPriceQuery).Fail?
    ensures var r := Resolve(prior, net, overrides, gasPriceQuery);
      && IsLegacy(net) && overrides.gasPrice.None? && net.gasPrice.None? && gasPriceQuery.Failure?
      && r.Keys == prior.Keys - DynamicFields
      && (GasPrice in prior ==> r[GasPrice] == prior[GasPrice])
  {
  }

  /** Legacy precedence: the override in wei, else the reported price, else the queried one. */
  lemma LegacyPrecedence(prior: TxOptions, net: NetworkFees, overrides: FeeOverride,
                         gasPriceQuery: Result<int, NetworkError>)
    requires IsLegacy(net)
    ensures var r := Resolve(prior, net, overrides, gasPriceQuery);
      && (overrides.gasPrice.Some? ==> r[GasPrice] == overrides.gasPrice.value * WeiPerGwei)
      && (overrides.gasPrice.None? && net.gasPrice.Some? ==> r[GasPrice] == net.gasPrice.value)
      && (overrides.gasPrice.None? && net.gasPrice.None? && gasPriceQuery.Success? ==>
            r[GasPrice] == gasPriceQuery.value)
  {
  }

  /** Dynamic precedence: each field is independently its override in wei, else the
      reported value. */
  lemma DynamicPrecedence(prior: TxOptions, net: NetworkFees, overrides: FeeOverride,
                          gasPriceQuery: Result<int, NetworkError>)
    requires !IsLegacy(net)
    ensures var r := Resolve(prior, net, overrides, gasPriceQuery);
      && (overrides.maxFeePerGas.Some? ==> r[MaxFeePerGas] == overrides.maxFeePerGas.value * WeiPerGwei)
      && (overrides.maxFeePerGas.None? ==> r[MaxFeePerGas] == net.maxFeePerGas.value)
      && (overrides.maxPriorityFeePerGas.Some? ==>
            r[MaxPriorityFeePerGas] == overrides.maxPriorityFeePerGas.value * WeiPerGwei)
      && (overrides.maxPriorityFeePerGas.None? ==> r[MaxPriorityFeePerGas] == net.maxPriorityFeePerGas.value)
  {
  }

  /** A successful resolution does not depend on the options it started from. */
  lemma ResolveForgetsPrior(prior1: TxOptions, prior2: TxOptions, net: NetworkFees,
                            overrides: FeeOverride, gasPriceQuery: Result<int, NetworkError>)
    requires ResolveOutcome(net, overrides, gasPriceQuery) == Pass
    ensures Resolve(prior1, net, overrides, gasPriceQuery) == Resolve(prior2, net, overrides, gasPriceQuery)
  {
    ResolveShape(prior1, net, overrides, gasPriceQuery);
    ResolveShape(prior2, net, overrides, gasPriceQuery);
  }

  /** Resolving twice against the same snapshot and overrides gives what resolving once
      gives, whether or not the resolution fails. */
  lemma ResolveIdempotent(prior: TxOptions, net: NetworkFees, overrides: FeeOverride,
                          gasPriceQuery: Result<int, NetworkError>)
    ensures var once := Resolve(prior, net, overrides, gasPriceQuery);
      Resolve(once, net, overrides, gasPriceQuery) == once
  {
    var once := Resolve(prior, net, overrides, gasPriceQuery);
    if ResolveOutcome(net, overrides, gasPriceQuery) == Pass {
      ResolveForgetsPrior(once, prior, net, overrides, gasPriceQuery);
    } else {
      var twice := Resolve(once, net, overrides, gasPriceQuery);
      assert twice.Keys == once.Keys;
    }
  }

  /** A legacy network reporting a gas price of 5 wei, no overrides: the options are
      that gas price alone. */
  lemma LegacyScenario(prior: TxOptions, gasPriceQuery: Result<int, NetworkError>)
    ensures Resolve(prior, NetworkFees(Some(5), None, None), NoOverride, gasPriceQuery) == map[GasPrice := 5]
  {
    ResolveShape(prior, NetworkFees(Some(5), None, None), NoOverride, gasPriceQuery);
  }

  /** A dynamic network reporting 30 and 2 with a priority-fee override of 5 gwei. */
  lemma DynamicScenario(prior: TxOptions, gasPriceQuery: Result<int, NetworkError>)
    ensures Resolve(prior, NetworkFees(None, Some(30), Some(2)), FeeOverride(None, None, Some(5)), gasPriceQuery)
            == map[MaxFeePerGas := 30, MaxPriorityFeePerGas := 5_000_000_000]
  {
    ResolveShape(prior, NetworkFees(None, Some(30), Some(2)), FeeOverride(None, None, Some(5)), gasPriceQuery);
  }
}
