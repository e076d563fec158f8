/** The value types every component shares: intents, contracts, legs, plans and settings. */
module Models {

  datatype Option<+T> = None | Some(value: T)

  datatype OptionType = Call | Put

  datatype Side = Buy | Sell

  /** The thirteen names an intent may carry; `Unlisted` is any other string. */
  datatype Strategy =
    | LongCall | LongPut | CallDebitSpread | PutDebitSpread
    | PutCreditSpread | CallCreditSpread
    | LongStrangle | IronCondor | IronButterfly
    | DebitCallSpread | DebitPutSpread | CoveredCall | CashSecuredPut
    | Unlisted(name: string)

  datatype Intent = Intent(
    strategy: Strategy, underlying: string, targetDelta: real, spreadWidth: Option<real>,
    dteMin: nat, dteMax: nat, conviction: real)
  {
    /** The field bounds pydantic enforces when an intent is parsed. */
    predicate Valid() {
      && 0.0 < targetDelta <= 1.0
      && (spreadWidth.Some? ==> spreadWidth.value > 0.0)
      && dteMin <= dteMax
      && 0.0 <= conviction <= 1.0
    }
  }

  /** One normalised contract. Days are ordinal day numbers. */
  datatype Contract = Contract(
    symbol: string, strike: real, expiry: int, optionType: OptionType,
    openInterest: Option<int>, delta: Option<real>, iv: Option<real>,
    bid: Option<real>, ask: Option<real>)

  datatype Leg = Leg(
    symbol: string, side: Side, ratio: nat, strike: real, expiry: int, optionType: OptionType,
    delta: Option<real>, bid: Option<real>, ask: Option<real>, openInterest: Option<int>)

  datatype OrderPlan = OrderPlan(
    proposalId: nat, underlying: string, strategy: Strategy, legs: seq<Leg>, qty: nat,
    limitPrice: real, maxLoss: real, maxProfit: Option<real>, breakeven: Option<real>)

  const MULTIPLIER: real := 100.0

  datatype Settings = Settings(
    spreadNudgePct: real, monthlyPreference: bool,
    maxPremiumPctPerTrade: real, minOpenInterest: nat, maxSpreadPct: real, maxSpreadAbs: real,
    dailyLossHaltPct: real, drawdownHaltPct: real,
    baseRiskPctPerTrade: real, buyingPowerCap: real,
    drawdownSizeFloor: real, gainSizeCap: real, gainSizeReferencePct: real,
    convictionFloor: real, convictionMinMult: real, convictionMaxMult: real,
    reliabilityPrior: real, calibrationMinSamples: nat,
    campaignDays: nat, frontLoadMult: real, minSessionsToHold: nat,
    widthMoveMult: real, widthMoveMultAtm: real,
    minCreditWidthPct: real, maxCreditWidthPct: real, maxDebitWidthPct: real, minRewardRisk: real)
  {
    /** The declared field bounds; a Settings object cannot be constructed outside them. */
    predicate Valid() {
      && 0.0 <= spreadNudgePct <= 1.0
      && 0.0 < maxPremiumPctPerTrade <= 1.0
      && 0.0 < maxSpreadPct <= 1.0
      && 0.0 <= maxSpreadAbs
      && 0.0 < dailyLossHaltPct <= 1.0
      && 0.0 < drawdownHaltPct <= 1.0
      && 0.0 < baseRiskPctPerTrade <= 1.0
      && 0.0 < buyingPowerCap <= 1.0
      && 0.0 < drawdownSizeFloor <= 1.0
      && 1.0 <= gainSizeCap
      && 0.0 < gainSizeReferencePct
      && 0.0 <= convictionFloor <= 1.0
      && 0.0 < convictionMinMult
      && 0.0 < convictionMaxMult
      && 0.0 <= reliabilityPrior <= 1.0
      && 2 <= calibrationMinSamples
      && 1 <= campaignDays
      && 1.0 <= frontLoadMult
      && 0.0 <= widthMoveMult
      && 0.0 <= widthMoveMultAtm
      && 0.0 < minCreditWidthPct <= 1.0
      && 0.0 < maxCreditWidthPct <= 1.0
      && 0.0 < maxDebitWidthPct <= 1.0
      && 0.0 <= minRewardRisk
    }
  }

  function Abs(x: real): real { if x < 0.0 then -x else x }

  function Min(x: real, y: real): real { if y < x then y else x }

  function Max(x: real, y: real): real { if y > x then y else x }
}
