# options-m: a verified model of its trading decisions

options-m is an autonomous options trader whose decisions are made by a few deterministic modules
that have to agree with each other. This project models those modules in Dafny and proves what
they promise together. Prices, deltas and dollars are exact reals; days are calendar ordinals;
times are integers.

The components, and what is proved of each:

* **The order-plan pipeline** (`Models`, `Selection`, `StrategyBuilder`, `Sizing`, `Payoff`,
  `PlanRisk`, `PlanPricing`, `PlanGuards`, `Refusals`, `SizingValues`, `RiskGate`, `GateVerdicts`,
  `GateConditions`, `PutPricing`, `ExposureBook`, `BuilderExamples`). The builder picks contracts, prices a
  plan off the quotes of its own legs, claims a finite maximum loss and sizes it, or says truthfully why
  not. The claim bounds the expiry profit and loss at every underlying price, the size is the greatest
  that fits every cap, the separately written risk gate accepts what the builder returns, and the
  exposure projected before the fill is the exposure measured after it.
* **The proposal and order protocol** (`Store`, `Protocol`, `ProtocolRuns`, `Switches`,
  `ProtocolExamples`, `FullPageExample`, `Execution`). A state machine with a crash possible between any two awaits,
  other agents inserting proposals, and a broker that refuses repeated client order ids, loses
  replies, fills and kills orders. `Execution` is the agent itself, over a mutable store and broker; each of its
  methods is the run of that machine which the environment determines, with no event in it but the
  agent's own. A dry run never trades, and the kill switch stops every entry and no close.
* **Closing orders** (`CloseOrders`, `Reprice`): the gcd decomposition and the rounded ladder.
* **Rate limits and campaign pacing** (`ProposalPacing`, `Strategist`, `Campaign`) over whole runs.
* **Calendar and implied-vol history** (`TradingCalendar`, `IvHistory`, `IvBackfill`, `IvRetries`):
  third-Friday arithmetic, the backfill's accounting, and what a second pass does.
* **Numeric kernels and text** (`ImpliedVol`, `Reliability`, `Indicators`, `Notify`).

`Reals` and `Collections` hold the few general facts the rest needs. `dafny verify dfyconfig.toml`
checks everything.

## Where the code does less than it says

Each of these is proved, with the exact condition under which the claim does hold.

* A covered call checks for a hundred shares but may be sized above one contract, so its maximum
  loss is a bound exactly when the risk budget carries no more contracts than the shares cover. Its
  best case is reachable exactly when the strike is at or above spot.
* A covered call posts no collateral when it is sized but the gate charges its whole maximum loss,
  so it can be refused; so can a cash-secured put priced below zero. No other plan ever is
  (`GateConditions.BuilderNeverRefusedIff`). Settings allow such a put exactly when the nudge is
  above half the spread and `max_spread_abs` is not zero (`PutPricing.NoPutRefusedIff`).
* Rows, statuses and slots agree with the broker after a step exactly when the step is none of
  three: a crash between the broker's acceptance and the order row, a submission recorded as failed
  that is alive at the broker, and an entry sent on beside another in flight on its underlying. The
  last is possible at one position per symbol only past fifty orders in flight, because the gate
  reads fifty. Each of the three leads to a double entry in a run given here; a run without them
  never has one. The run with the full page (`FullPageExample`) keeps fifty underlyings open, so it
  needs `max_concurrent_positions`, five by default and not modelled, raised above fifty.
* A leg whose quantity is zero is closed as one contract, and a fractional one is not flattened.
* A close whose rung rounds short of its own target is replaced at the same price on every look, so
  its replaces are bounded by its rungs exactly when no rung does.
* A plan that closes out a position of unknown Greeks is projected as unknown, though the broker's
  netted book would be known. With nothing unknown the two are the same.
* The strategist looks back one day, so a longer cooldown is cut short.
* A stored session outside the fetched closes can push the oldest one out of the window, and it is
  then reconstructed and written again.
* A retried session is asked for without the sessions already kept, so the band of strikes and dates
  can be narrower and the same broker can answer otherwise. It is sure to have no new answer exactly
  when no two missing sessions are priced off the same expiry.
* With no minimum number of sessions to hold, opens are permitted while the campaign is flattened.
* Truncation exceeds a limit shorter than its own marker, and the marker is not itself escaped.

## Model

| member | source | states |
|---|---|---|
| Selection.Ladder | src/options_m/strategy_builder.py:808-817 | the strikes listed, each once, in ascending order |
| Selection.MinGap | src/options_m/strategy_builder.py:808-817 | the increment is a gap that exists, and no two listed strikes are closer than it |
| Selection.Closest | src/options_m/strategy_builder.py:1185-1204 | the contract returned is eligible and no eligible contract has a smaller delta gap; nothing is returned only when nothing is eligible |
| Selection.ClosestToDelta | src/options_m/strategy_builder.py:1185-1204 | the scan that keeps the best so far returns that contract, the first listed on a tie |
| Selection.AtmVol | src/options_m/strategy_builder.py:751-760 | a listed contract's distance to spot and implied vol, no usable contract nearer, the smaller vol on equal distance; absent only when no contract carries a positive vol |
| Selection.NearestListed | src/options_m/strategy_builder.py:820-831 | the nearest listed candidate, and nothing when even it is more than one increment away |
| Selection.CreditVertical | src/options_m/strategy_builder.py:834-902 | the wing has the short leg's type and expiry and lies strictly further out of the money, within one increment of the width asked for |
| Selection.AssembleVerticals | src/options_m/strategy_builder.py:924-1028 | the verticals of a credit structure are the right ones for its name and satisfy long put < short put <= short call < long call |
| Selection.Best | src/options_m/strategy_builder.py:1064-1102 | the winning expiry's score is at most every other complete expiry's, and nothing wins only when no expiry is complete |
| Selection.BestOffer | src/options_m/strategy_builder.py:1064-1102 | the ascending scan over expiries finds exactly that winner |
| StrategyBuilder.LiquidityRejection | src/options_m/strategy_builder.py:286-321 | no refusal exactly when both quotes are positive, the spread is narrow in dollars or against the mid, and open interest is known and large enough |
| StrategyBuilder.FirstRejection | src/options_m/strategy_builder.py:592-596 | no refusal among several contracts exactly when none of them is refused on its own |
| StrategyBuilder.Primary | src/options_m/strategy_builder.py:424-462 | smallest delta gap, standard monthlies preferred on an equal gap |
| StrategyBuilder.Secondary | src/options_m/strategy_builder.py:471-531 | a partner is listed on the primary's expiry at another strike, within one increment of the target strike, and only for a positive width |
| StrategyBuilder.WidestWing | src/options_m/strategy_builder.py:1121-1128 | the widest wing is some vertical's width and no vertical is wider |
| StrategyBuilder.NetCredit | src/options_m/strategy_builder.py:905-921 | the two-accumulator loop returns the net mid less the nudge on the summed spreads |
| StrategyBuilder.BuildLongStrangle | src/options_m/strategy_builder.py:572-694 | the strangle search and its refusals give the planned outcome for every input |
| StrategyBuilder.BuildCreditStructure | src/options_m/strategy_builder.py:1031-1182 | the credit search, pricing and refusals give the planned outcome for every input |
| StrategyBuilder.Build | src/options_m/strategy_builder.py:350-569 | every branch of the builder, refusals included, gives the planned outcome whose price, legs, size, figures and refusals the theorems of the next rows pin down |
| PlanPricing.PlanIsPricedOffItsLegs | src/options_m/strategy_builder.py:1207-1243 | whatever the strategy, the cash paid is the mid of the plan's own legs, bought less sold, plus the nudge's share of the sum of their spreads |
| PlanGuards.PlanIsChecked | src/options_m/strategy_builder.py:350-694 | a plan carries what was asked for, its strategy's own legs, each listed, liquid, in the window and of one expiry, the greatest count that fits, and the economics its kind is held to |
| PlanGuards.FirstLegIsClosest | src/options_m/strategy_builder.py:424-462 | the first leg's delta is as near the target as any contract's of its type in the window, and a monthly's whenever an equally near one is and monthlies are preferred |
| StrategyBuilder.NoPreferenceIsClosest | src/options_m/strategy_builder.py:424-462 | without the preference the primary leg is the plain closest delta, the first listed on a tie |
| PlanGuards.WidthAimedAt | src/options_m/strategy_builder.py:744-805 | a width asked for is taken as it is, otherwise so many expected moves over the days left, unknown exactly when a part of that is |
| Refusals.RefusalIsTrue | src/options_m/strategy_builder.py:350-1182 | every refusal of the builder states a fact of the chain, the account or the settings, and it raises only over a leg with fields no leg may carry or a debit of nothing |
| Refusals.CreditUnbuildableIff | src/options_m/strategy_builder.py:1031-1102 | no width, no contract in the window, no complete structure: a credit intent is refused as such exactly when that holds and no earlier one does |
| Refusals.StrangleUnbuildableIff | src/options_m/strategy_builder.py:572-660 | the same of a strangle: no contract in the window, no expiry with a pair |
| Refusals.FunnelUnbuildableIff | src/options_m/strategy_builder.py:415-450 | and of a plan of one option type: no contract of the type in the window, none of them with a delta |
| Refusals.LiquidityReasons | src/options_m/strategy_builder.py:286-321 | each liquidity reason is given exactly when its own condition holds and no earlier one does |
| Refusals.CreditVerticalNoneIff | src/options_m/strategy_builder.py:834-902 | a vertical is missing exactly when no short can be placed or every wing on its far side is more than one increment from where it is wanted |
| Refusals.AssembleNoneIff | src/options_m/strategy_builder.py:924-1028 | an expiry offers no credit structure exactly when a side of it is missing, its strikes are too few, its width unknown or its shorts out of order |
| Refusals.PinIs | src/options_m/strategy_builder.py:924-1028 | an iron butterfly sits on a strike listed both as a call and as a put, none of those nearer spot |
| Refusals.CreditOfferScore | src/options_m/strategy_builder.py:1064-1102 | an expiry scores its shorts' gaps, and a millionth more off the standard monthlies when those are preferred |
| Refusals.StrangleOfferScore | src/options_m/strategy_builder.py:572-660 | the same of a strangle's two gaps |
| StrategyBuilder.BestCreditIsAssembled | src/options_m/strategy_builder.py:1064-1110 | the winning credit offer is a complete leg set listed on one expiry inside the window |
| Payoff.CreditUnit | src/options_m/strategy_builder.py:1111-1182 | for every price the legs plus the credit earn between -max_loss and max_profit, and both ends are reached |
| Payoff.CreditVerticalBreaksEven | src/options_m/strategy_builder.py:1139-1150 | profit is nil at the breakeven a one-sided credit structure reports |
| Payoff.DebitUnit | src/options_m/strategy_builder.py:1268-1306 | a debit vertical with its short leg out of the money earns between -debit and width - debit, reaches both and breaks even where stated |
| Payoff.LongUnit | src/options_m/strategy_builder.py:1246-1267 | a bought option loses at most its debit, loses exactly that somewhere, and breaks even where stated |
| Payoff.StrangleUnit | src/options_m/strategy_builder.py:640-694 | a strangle loses at most its debit, and loses exactly that between the strikes |
| Payoff.CashSecuredPutUnit | src/options_m/strategy_builder.py:1246-1306 | a short put never loses more than strike minus premium; its breakeven is a reachable zero when the premium is not negative |
| Payoff.CoveredCallUnit | src/options_m/strategy_builder.py:1246-1306 | against a hundred shares the bound holds; the best case is reached exactly when the strike is at or above spot, and the breakeven is exact exactly when spot - premium <= strike |
| PlanRisk.PartnerIsOutOfTheMoney | src/options_m/strategy_builder.py:471-531 | a debit vertical's short leg is strictly on the out-of-the-money side, its width within one increment of the target: a wrong-side strike is always refused |
| PlanRisk.PlanPnlEnvelope | src/options_m/strategy_builder.py:350-694 | for every built plan, every strategy and every expiry price, P&L lies in [-max_loss, max_profit] and the loss is reached |
| PlanRisk.PlanProfitAndBreakeven | src/options_m/strategy_builder.py:350-694 | outside covered calls the best case is reached and a stated breakeven makes exactly nothing |
| PlanRisk.CoveredCallBoundedIffCovered | src/options_m/strategy_builder.py:1246-1306 | a covered call's max_loss is a bound exactly when the shares held are at least a hundred for every contract written |
| PlanRisk.CoveredCallBoundedIffBudgetStops | src/options_m/strategy_builder.py:1246-1306 | before the call: on shares covering n contracts the max_loss is a bound exactly when the account's risk budget does not carry n + 1 |
| PlanRisk.CoveredCallPromisesIff | src/options_m/strategy_builder.py:1246-1306 | a built covered call reaches its best case exactly when written at or above spot, and is nil at its breakeven exactly when that is at or below the strike |
| BuilderExamples.CoveredCallOutrunsItsShares | src/options_m/strategy_builder.py:1246-1306 | a hundred shares pass the holding check, two contracts are written, and some price loses more than max_loss; the gate refuses the plan on nil buying power |
| BuilderExamples.NegativePremiumPutIsRefused | src/options_m/strategy_builder.py:1207-1243 | with a nudge of the whole spread a put is planned at -3.00 and then refused by the gate |
| Sizing.SizePosition | src/options_m/sizing.py:386-464 | both loops, over the scalars and over the caps, compute the sizing decision whose budget and scalars the rows of `SizingValues` give in dollars and fractions |
| Sizing.Tightest | src/options_m/sizing.py:453-464 | the binding cap is one of the caps and no cap is smaller |
| Sizing.SizeIsGreatestFit | src/options_m/sizing.py:386-464 | whenever nothing needed is unknown, a count meets the risk budget, the usable buying power and the cash at once exactly when it is at most qty |
| Sizing.SizedExactlyWhenKnown | src/options_m/sizing.py:386-452 | sizing blocks for an unknown or non-positive input, or a closed horizon, and for no other reason |
| Sizing.SizeMonotone | src/options_m/sizing.py:386-464 | the count never falls when equity, buying power or cash rises and everything else is fixed |
| Sizing.BudgetFollowsEquity | src/options_m/sizing.py:192-262 | dollars at risk never rise when equity falls, through the product of both equity scalars, and stay within the per-trade ceiling |
| Sizing.DrawdownFollowsEquity | src/options_m/sizing.py:206-241 | the drawdown scalar is positive and never falls as equity rises; its values are `SizingValues.WorseDrawdownBinds` |
| Sizing.GainFollowsEquity | src/options_m/sizing.py:244-262 | the gain scalar is at least one and never falls as equity rises |
| Sizing.TaperAntitone | src/options_m/sizing.py:192-203 | a bigger loss never tapers less, and the taper stays between the floor and one; its values are `SizingValues.TaperIsStraight` |
| Sizing.ConvictionScalarPositive | src/options_m/sizing.py:328-353 | the conviction scalar is positive for every conviction and reliability |
| SizingValues.TaperIsStraight | src/options_m/sizing.py:192-203 | one exactly when nothing is lost (floor below one), the floor from the halt on, and between them (1 - taper) * halt = loss * (1 - floor) |
| SizingValues.WorseDrawdownBinds | src/options_m/sizing.py:206-241 | the smaller of the two tapers, from the high-water mark and from the day's opening, binds |
| SizingValues.GainIsStraight | src/options_m/sizing.py:244-262 | one without a gain, the cap from the reference gain on, a straight line between |
| SizingValues.ConvictionIsStraight | src/options_m/sizing.py:328-353 | at full reliability the smallest multiplier at the conviction floor, the largest at full conviction, a straight line between |
| SizingValues.ReliabilityShrinks | src/options_m/sizing.py:328-353 | at reliability nil the scalar is one, at one it is in full, in proportion between |
| SizingValues.HorizonIs | src/options_m/sizing.py:356-371 | nil once no more sessions remain than a trade must be held, the first session's multiplier on it, one otherwise |
| SizingValues.BudgetIs | src/options_m/sizing.py:386-425 | the budget is the base fraction times the four scalars, under the per-trade ceiling, of the equity |
| SizingValues.NothingIsBlocked | src/options_m/sizing.py:453-464 | a sized trade is blocked exactly when it comes to nothing, naming a cap that leaves nothing and is the smallest |
| SizingValues.BlockIsTrue | src/options_m/sizing.py:386-452 | every other reason to block is true of the account |
| SizingValues.HalfwayToTheHalt | src/options_m/sizing.py:386-464 | half of an eight percent halt lost, with a floor of 0.35, sizes 972 dollars and nine contracts |
| RiskGate.GateAcceptsBuilderPlans | src/options_m/risk.py:169-274 | every built plan passes the gate's defined-risk, open-interest, spread and premium checks, and its buying-power check outside the two cases named |
| RiskGate.LiquidLegPasses | src/options_m/risk.py:202-232 | a leg that passed the builder's liquidity check passes the gate's, tolerances included |
| GateVerdicts.DefinedRiskIff | src/options_m/risk.py:169-192 | passed exactly when no leg is short, or the strategy is a written option, or a wing-protected name whose shorts of neither type outnumber its longs |
| GateVerdicts.OpenInterestIff | src/options_m/risk.py:202-206 | refused exactly when some leg's open interest is unknown or too small, naming the first |
| GateVerdicts.SpreadIff | src/options_m/risk.py:208-232 | refused exactly when some leg is unquoted, or wider than both limits by more than the tolerance, naming the first |
| GateVerdicts.CapacityIff | src/options_m/risk.py:234-274 | refused exactly when the whole loss is over its fraction of equity, or over that of buying power whatever the strategy, or the reading is missing |
| RiskGate.ModerateNudgeSellsAtTheBidOrBetter | src/options_m/strategy_builder.py:1207-1243 | with a nudge of at most half the spread a short put is never priced below its bid, hence never below zero |
| GateConditions.NeverRefusedIff | src/options_m/risk.py:253-274 | whatever the legs, no account sees a sized plan refused for buying power exactly when it is neither a covered call nor a cash-secured put sold below zero |
| GateConditions.BuilderNeverRefusedIff | src/options_m/risk.py:253-274 | the same of the builder's own plans: for an intent and chain that can be built, over every account, exactly when it is no covered call and no put whose own quotes price it below zero |
| PutPricing.PutsSellAboveZeroIff | src/options_m/strategy_builder.py:1207-1243 | settings price every liquid put at or above zero exactly when the nudge is at most half the spread or no spread is let through for being narrow in dollars |
| PutPricing.NoPutRefusedIff | src/options_m/risk.py:253-274 | over every intent, chain, holding and account, no cash-secured put is built and then refused for buying power exactly under those settings |
| ExposureBook.BookExposure | src/options_m/exposure.py:211-294 | the accumulating loop, with its unknown flags, is the sum of the positions' exposures |
| ExposureBook.PlanExposure | src/options_m/exposure.py:159-208 | the accumulating loop is the sum of the legs' exposures |
| ExposureBook.Associative | src/options_m/exposure.py:146-156 | combining exposures is associative, unknowns and counts included |
| ExposureBook.TotalIgnoresOrder | src/options_m/exposure.py:211-294 | the book's exposure does not depend on the order positions are listed in |
| ExposureBook.ProjectedIsHeld | src/options_m/exposure.py:146-294 | book exposure combined with plan exposure is the exposure of the book after the fill, in any order |
| ExposureBook.ProjectedIsNetted | src/options_m/exposure.py:146-294 | when the broker nets the fill into rows held on the same symbols and drops rows netted to nil, every Greek the projection knew is unchanged, and with nothing unknown the two are equal |
| ExposureBook.NettingForgetsUnknowns | src/options_m/exposure.py:211-294 | a row of unknown delta that is closed out leaves the projection unknown and the netted book flat |
| ExposureBook.UnknownAbsorbs | src/options_m/exposure.py:211-294 | a total is unknown exactly when some position's is, and something is unknown exactly when the incomplete count is positive |
| ExposureBook.PositionGreeks | src/options_m/exposure.py:211-294 | a position's live Greek wins, the model's is used only without one and with a spot, and the two are known apart |
| ExposureBook.LegGreeks | src/options_m/exposure.py:159-208 | a leg counts its ratio for every contract, the other way when sold, and is unknown exactly without its delta or the model's vega |
| ExposureBook.DollarsAreShares | src/options_m/exposure.py:159-208 | a contract of delta one at beta one is a hundred shares at spot, and dollars are proportional to each factor |
| Store.Store.SaveProposal | src/options_m/store.py:1411-1439 | a new id, one new row, nothing else changed |
| Store.Store.UpdateProposalStatus | src/options_m/store.py:835-859 | one status replaced; an unknown id changes nothing |
| Store.Store.RecordOrder | src/options_m/store.py:891-923 | the first write for a client order id wins; a repeat changes neither the rows nor the counter |
| Store.Store.UpdateOrderStatus | src/options_m/store.py:941-975 | one order status replaced; an unknown id changes nothing |
| Store.PendingUpTo | src/options_m/store.py:591-597 | exactly the pending ids, oldest first |
| Store.SettledWords | src/options_m/store.py:44-56 | exactly the statuses that end an order, in any capitals |
| Store.OpenedNothing | src/options_m/agents/execution.py:78-82 | an order opened nothing exactly when its status is a dead one and no positive quantity is reported filled |
| Store.Store.OrdersInFlight | src/options_m/store.py:1013-1033 | the oldest in-flight rows, in order of first write, all of them unless the page is full |
| Store.Store.ProposalsSince | src/options_m/store.py:652-672 | every row at or after the moment asked for, each once, newest first, equal times in the order written |
| Protocol.StepKeepsInv | src/options_m/agents/execution.py:544-930 | every step, crash or interleaved write keeps the whole invariant, wherever the agent stands |
| ProtocolRuns.RunIsSafe | src/options_m/agents/execution.py:544-930 | after any run: no two approved or submitted entries share an underlying; a submitted proposal has its row and a broker order under its own id |
| ProtocolRuns.StepDescends | src/options_m/store.py:835-859 | a proposal is never dropped or rewritten; its status leaves pending once or becomes broker_rejected |
| ProtocolRuns.ChangesAtMostTwice | src/options_m/agents/execution.py:1024-1091 | a proposal's status changes at most twice over any run |
| ProtocolRuns.TidyUnlessOrderLost | src/options_m/agents/execution.py:836-930 | every broker order keeps a row through a step exactly when the step is not a crash between acceptance and the row |
| ProtocolRuns.SyncedUnlessLandedLive | src/options_m/agents/execution.py:836-1066 | no live entry is recorded as finished after a step exactly when the step is not a submission reported as failed that landed alive |
| ProtocolRuns.SingleUnlessCrowded | src/options_m/agents/execution.py:544-674 | at most one entry row in flight per underlying, counting the one being sent, after a step exactly when the step does not send an entry on beside another |
| ProtocolRuns.CrowdedOnlyPastAPage | src/options_m/store.py:1039-1061 | at one position per symbol that takes more orders in flight than the fifty the gate reads |
| ProtocolRuns.BooksKeptIff | src/options_m/agents/execution.py:544-1091 | a step keeps rows, statuses and slots in agreement with the broker exactly when it is none of the three events |
| ProtocolRuns.BooksThroughoutIff | src/options_m/agents/execution.py:544-1091 | a run keeps them so in every world it passes through exactly when none of its events is one of the three |
| ProtocolRuns.NoDoubleEntry | src/options_m/agents/execution.py:544-930 | a run without the three events never has two live entry orders on one underlying at the broker |
| Switches.DryRunNeverTrades | src/options_m/agents/execution.py:660-745 | in dry run no run, of any length and with anything interleaved, leaves an order at the broker, an order row, or a status only an order brings about |
| Switches.KillSwitchStopsEntries | src/options_m/agents/execution.py:521-570 | from a tick started under the kill switch to the next start, crashes and others included, no entry is sent or recorded and entries keep their status unless released; closes go on |
| FullPageExample.FullPageDoublesEntry | src/options_m/store.py:1039-1061 | with fifty older orders working, an entry whose retry was rejected is off the page the gate reads, and a second live order on its underlying follows |
| ProtocolExamples.LandedLossDoublesEntry | src/options_m/agents/execution.py:836-890 | a submission reported as failed that landed leads to two live orders on one underlying |
| ProtocolExamples.CrashBeforeRowDoublesEntry | src/options_m/agents/execution.py:892-930 | a crash after acceptance and before the row leaves a rejected proposal with a live order, and room for a second entry |
| Execution.Broker.PlaceOrder | src/options_m/agents/execution.py:836-890 | the broker refuses a client order id it already holds |
| Execution.ExecutionAgent.Conclude | src/options_m/agents/execution.py:880-930 | row first, status second, as the agent's own run |
| Execution.ExecutionAgent.ReconcileDuplicate | src/options_m/agents/execution.py:892-930 | a refused duplicate is reconciled with the order the broker holds, or marked ambiguous |
| Execution.ExecutionAgent.Submit | src/options_m/agents/execution.py:836-930 | submission, with the reply the broker gives, is the agent's own run |
| Execution.ExecutionAgent.Approves | src/options_m/store.py:1013-1061 | the idempotency and slot checks on the oldest page of orders in flight |
| Execution.ExecutionAgent.ProcessOne | src/options_m/agents/execution.py:544-674 | the state after one proposal, whatever becomes of it, as the agent's own run |
| Execution.ExecutionAgent.ExecuteClose | src/options_m/agents/execution.py:676-819 | the state after a close proposal: in dry run only its status changes; out of it a priced close is sent under its own id, with row and status as the broker answers |
| Execution.ExecutionAgent.ReconcileOne | src/options_m/agents/execution.py:1024-1091 | the state after one poll is the reading written down and a dead entry released, or unchanged when there is no reading |
| Execution.ExecutionAgent.Reconcile | src/options_m/agents/execution.py:1024-1066 | from the read of the oldest fifty orders to the end of the tick, nothing but the agent's own events, each poll bringing back the actual reading |
| Execution.ExecutionAgent.Tick | src/options_m/agents/execution.py:521-542 | from start to end of the tick nothing but the agent's own events as the environment determines them, no crash among them; the invariant is kept; in dry run broker and order rows are untouched, and under the kill switch no entry moves |
| Execution.TickIsARun | src/options_m/agents/execution.py:521-542 | such a tick is a run of the protocol from its start event to its end event |
| Execution.TickIsDetermined | src/options_m/agents/execution.py:521-1091 | a tick has exactly one outcome, so the contract of the tick leaves no other |
| Execution.PricedCloseGoesThrough | src/options_m/agents/execution.py:676-819 | out of dry run a priced close that the broker takes under a fresh id ends in its book, in the order table and close_submitted |
| Execution.ApprovedEntryGoesThrough | src/options_m/agents/execution.py:544-674 | likewise an approved entry whose underlying is free, with the kill switch off |
| Execution.TickPicksTheOldest | src/options_m/agents/execution.py:521-542 | a tick takes the oldest pending proposals in order: five, or fifty under the kill switch |
| CloseOrders.GcdAllIsGreatest | src/options_m/agents/execution.py:155-163 | the parent quantity divides every leg quantity and every common divisor divides it |
| CloseOrders.ClosingStructureQty | src/options_m/agents/execution.py:155-163 | the fold over the legs computes that gcd |
| CloseOrders.CloseQtyIs | src/options_m/agents/execution.py:126-163 | a leg's quantity is the whole contracts held, whichever way, or one where there is not even that |
| CloseOrders.BuildClosingLegs | src/options_m/agents/execution.py:126-152 | one closing leg per held leg, opposite side, its ratio the quantity over the parent |
| CloseOrders.RatiosAreExactAndReduced | src/options_m/agents/execution.py:126-163 | parent times ratio is the leg's quantity, and the ratios share no divisor |
| CloseOrders.CloseFlattensIff | src/options_m/agents/execution.py:126-163 | applying the close leaves a leg at zero exactly when it held a whole non-zero number of contracts |
| Reprice.HalfEvenIsNearest | src/options_m/agents/execution.py:90-92 | the cents sent are the nearest to the price, ties to even |
| Reprice.HalfEvenMonotone | src/options_m/agents/execution.py:90-92 | rounding keeps order |
| Reprice.SentNearPriced | src/options_m/agents/execution.py:90-92 | what is sent is within half a cent of what was priced |
| Reprice.RungPrices | src/options_m/agents/execution.py:102-123 | rung by rung the price moves by the nudge's share of the mark, up for a debit and down for a credit, an urgent close one rung ahead, never below a cent |
| Reprice.RungDue | src/options_m/agents/execution.py:960-984 | the rung due is the number of whole steps since the close was sent, up to the last |
| Reprice.LadderClimbs | src/options_m/agents/execution.py:102-123 | a later rung is at least as marketable, before and after rounding |
| Reprice.LimitNeverRetreats | src/options_m/agents/execution.py:945-1022 | over any looks in time order the limit never moves away from the market, never passes the last rung, never falls below a cent |
| Reprice.StartsOnRungZero | src/options_m/agents/execution.py:676-819 | the first limit sent is rung zero, so the previous row applies from the first look |
| Reprice.QuietExactlyWhenRoundedFarEnough | src/options_m/agents/execution.py:984-1000 | a rung already sent is left alone exactly when rounding did not leave it short of its target |
| Reprice.ReplacesAreBoundedIff | src/options_m/agents/execution.py:945-1022 | over any looks at a broker that echoes and accepts, a close takes at most as many replaces as there are rungs exactly when no rung rounds short of its target; with one that does, any number can be sent |
| Reprice.ShortRoundingResends | src/options_m/agents/execution.py:984-1000 | a rung of 1.004 is sent as 1.00 again on every look |
| ProposalPacing.StepKeepsPaced | src/options_m/agents/strategist.py:296-365 | every step, other agents' inserts and status changes included, keeps the caps, the spacing and the room a choice was made with |
| ProposalPacing.RunsArePaced | src/options_m/agents/strategist.py:192-365 | in every run and every 24-hour window: attempts within the daily cap, attempts per symbol within its cap, looks at a symbol more than min(cooldown, 24 h) apart |
| ProposalPacing.CooldownHoldsIff | src/options_m/agents/strategist.py:320-350 | the configured cooldown is kept in every run exactly when it is no longer than the day looked back over |
| ProposalPacing.MayProposeIff | src/options_m/agents/strategist.py:296-365 | a candidate passes exactly when it is named, not blocked, has no active proposal, was not looked at within min(cooldown, 24 h) and has attempts left in the rolling day |
| ProposalPacing.DayIsFullIff | src/options_m/agents/strategist.py:296-320 | the day is full exactly when its attempts, holds and failed reads aside, reach the daily number |
| ProposalPacing.OneAtATimeThroughoutIff | src/options_m/agents/strategist.py:296-365 | an underlying has at most one active proposal in every world of a run exactly when no other agent ever makes one active beside it or while it is being looked at |
| Strategist.StrategistAgent.CountRecent | src/options_m/agents/strategist.py:323-350 | the loop's counts are the attempts in total and per symbol, and its set is the symbols looked at since the cutoff |
| Strategist.StrategistAgent.PickCandidate | src/options_m/agents/strategist.py:296-365 | the first candidate every filter lets through; none only when the day is full or no candidate passes; the cap flag exactly when the day is full |
| Strategist.StrategistAgent.Pass | src/options_m/agents/strategist.py:192-260 | one pass is a run of the desk; it writes one row exactly when there is evidence and some candidate may be proposed, about the first such one, with the status and action the read calls for |
| TradingCalendar.MonthsTile | src/options_m/iv_backfill.py:441-452 | months follow each other without gap or overlap, leap years included |
| TradingCalendar.MonthOf | src/options_m/iv_backfill.py:428-438 | every day lies in exactly the month found |
| TradingCalendar.ThirdFridayIff | src/options_m/iv_backfill.py:441-452 | the third Friday is the one Friday dated the 15th to the 21st |
| TradingCalendar.ConsecutiveThirdFridays | src/options_m/iv_backfill.py:441-452 | consecutive third Fridays are 28 or 35 days apart |
| TradingCalendar.MonthlyExpiriesAround | src/options_m/iv_backfill.py:428-438 | the stepping loop lists this month's and the next three third Fridays across a year's end |
| TradingCalendar.ExpiryAlwaysFound | src/options_m/iv_backfill.py:411-425 | every session has an expiry, a Friday inside the band and within 17 days of its middle, nearest among the third Fridays of every month there is |
| TradingCalendar.OnlyTheNextThree | src/options_m/iv_backfill.py:428-438 | a third Friday inside the band belongs to the session's month or one of the next two |
| TradingCalendar.StandardMonthlyIff | src/options_m/strategy_builder.py:139-144 | the builder's own monthly test accepts exactly the days the backfill targets |
| IvHistory.IvSeries.AppendIvSnapshots | src/options_m/store.py:332-350 | the readings end up in front in time order, newest first, the rest follow as they were, and the oldest fall off at the limit |
| IvHistory.IvSeries.DailyIvHistory | src/options_m/store.py:417-458 | one row per session, newest first, each the last usable reading of its day, for exactly the latest sessions asked for |
| IvHistory.IvSeries.IvSessionDays | src/options_m/store.py:460-476 | the latest sessions that have a usable reading |
| IvHistory.PushAllAddsDays | src/options_m/store.py:332-350 | while nothing is evicted, writing adds exactly the sessions written |
| IvBackfill.StrikesByExpiry | src/options_m/iv_backfill.py:379-398 | one group per reported expiry, one entry per strike; a symbol stands at an expiry and strike exactly when the last well-formed row for them names it |
| IvBackfill.IndexKeepsLastRows | src/options_m/iv_backfill.py:379-398 | the same of the grouping the fates are computed from |
| IvBackfill.IndexIsNamed | src/options_m/iv_backfill.py:379-398 | only strikes above zero, under a symbol some row carries for them, are ever grouped |
| IvBackfill.Fullest | src/options_m/iv_backfill.py:229-231 | the expiry with the most strikes, the later on a tie |
| IvBackfill.NearestTraded | src/options_m/iv_backfill.py:240-247 | a strike that printed that day, none of those that did nearer the close |
| IvBackfill.InvertBar | src/options_m/iv_backfill.py:266-337 | a reading exactly when the bar passes every check, with its close as the price, and otherwise one counter raised, for the first check failed |
| IvBackfill.ReadingsForExpiry | src/options_m/iv_backfill.py:197-263 | readings and counters account for every session of the group, or a failed read left the counters untouched |
| IvBackfill.BackfillDailyIv | src/options_m/iv_backfill.py:128-194 | missing == written + dropped; every counter is the number of sessions with that fate; complete exactly when every session is kept; the no-expiry counter is nil; nothing dated today or later is written; which sessions have which fate is `SessionIsKeptIff` and `SessionIsUnpricedIff` |
| IvBackfill.BarIsKeptIff | src/options_m/iv_backfill.py:266-337 | a bar is kept exactly when it carries a trade count of at least twenty, a positive close, a tenor, a strike within a tenth of spot and a solved vol in the sanity band; each reason is given exactly when its check is the first to fail |
| IvBackfill.SessionIsKeptIff | src/options_m/iv_backfill.py:233-263 | the same of a session, for the nearest strike of the fullest chain that printed that day and the session's own close |
| IvBackfill.SessionIsUnpricedIff | src/options_m/iv_backfill.py:197-247 | exactly when a session is lost before any bar is looked at: a read failed, no chain is listed, no strike of the fullest one printed that day |
| IvBackfill.RequestSpansTheGroup | src/options_m/iv_backfill.py:208-225 | strikes are asked for from eight percent below the lowest close of the group to eight above its highest, for the two days up to the expiry |
| IvBackfill.BarsSpanTheGroup | src/options_m/iv_backfill.py:233-240 | bars are asked for every strike of the fullest chain over exactly the group's days |
| IvBackfill.FatesPartition | src/options_m/iv_backfill.py:149-194 | every missing session is kept or dropped for one reason |
| IvBackfill.ListContracts | src/options_m/iv_backfill.py:208-225 | what is asked for reaches from below the lowest close of the sessions priced together to above their highest |
| IvRetries.PassAddsKeptDays | src/options_m/iv_backfill.py:186-191 | after a pass the store covers what it covered and the sessions written |
| IvRetries.SecondPassRetriesTheDropped | src/options_m/iv_backfill.py:140-165 | a second pass finds missing exactly the sessions the first dropped, as many as it counted |
| IvRetries.SecondPassRetriesIff | src/options_m/iv_backfill.py:140-165 | for any store and one broker, a second pass retries exactly what the first dropped if and only if every other session held is among the latest window of them |
| IvRetries.EverySecondPassRetriesIff | src/options_m/iv_backfill.py:140-165 | before either pass: it does so whatever the broker answers if and only if every past close is among the latest window of the stored sessions and the past closes together |
| IvRetries.EveryRetryIsIdleIff | src/options_m/iv_backfill.py:160-248 | before either pass: whatever the broker answers, retrying gives every dropped session its old fate if and only if no two missing sessions are priced off one expiry |
| IvRetries.IdleRetryCountsAgain | src/options_m/iv_backfill.py:160-248 | such a retry keeps nothing and counts every reason as often as before |
| IvRetries.RetryReachesAnotherChain | src/options_m/iv_backfill.py:208-248 | an unchanged broker keeps on retry a session it dropped, because the narrower strike band lists another chain |
| IvRetries.BackfillTwice | src/options_m/iv_backfill.py:128-194 | two passes in a row, whatever the broker then answers: the second looks at exactly as many sessions as the first dropped, no session is written twice, and what neither wrote is counted; from an unchanged broker and with no shared expiry it drops all of them again for the same reasons |
| IvRetries.OldestSessionIsRewritten | src/options_m/store.py:417-476 | when a stored session is not among the closes, a covered one can be reported missing again |
| IvBackfill.ReadingsAreAtTheMoney | src/options_m/iv_backfill.py:266-337 | a kept reading was solved from a positive price at a strike within a tenth of the spot and lies in the sanity band |
| IvBackfill.HonestListingFitsTheBand | src/options_m/iv_backfill.py:211-231 | when the listing honours its two-day window the tenor is 17 to 52 days and none is non-positive |
| Campaign.SizingRefusesIff | src/options_m/sizing.py:356-371 | sizing refuses for the horizon exactly when the horizon does not permit opens |
| Campaign.PermitsIff | src/options_m/sizing.py:487-500 | on the k-th session opens are permitted exactly when k plus the minimum to hold is at most the campaign length |
| Campaign.BeforeTheStart | src/options_m/sizing.py:487-500 | before the start date the campaign counts as being in its first session |
| Campaign.FirstSessionIff | src/options_m/sizing.py:487-500 | it counts as the first session until a second one has begun |
| Campaign.OpensOnTheFirstSessions | src/options_m/sizing.py:356-500 | for any cached calendar opens are permitted on exactly the earliest max(0, days - minimum) sessions, or on all that are cached |
| Campaign.OpensOnExactlyTheFirstSessions | src/options_m/sizing.py:356-500 | that number exactly, once as many are cached |
| Campaign.LastCloseIsTodaysIff | src/options_m/store.py:1205-1218 | the last close is today's exactly when today's session has opened |
| Campaign.FlattenActiveIff | src/options_m/exits.py:105-124 | flatten is active exactly in the closing window of the campaign's last session, while it is open |
| Campaign.FlattenIsOneSession | src/options_m/exits.py:105-124 | flatten is active in one session only |
| Campaign.OpensDuringFlattenIff | src/options_m/exits.py:105-124 | while flatten is active opens are permitted exactly when no session need be held; in later sessions never |
| Campaign.EquityAtCampaignStart | src/options_m/sizing.py:519-539 | the oldest readable equity on or after the start date |
| ImpliedVol.Search | src/options_m/volatility.py:146-181 | no answer exactly when f(1e-4) > 0 or f(10) < 0; otherwise each bracket has the previous vol as one end and the tangent's root, or the middle, as its own; it stops at a gap within the tolerance, at a step within it, or after a hundred iterations, with the vol of that moment |
| ImpliedVol.Solve | src/options_m/volatility.py:126-181 | an answer exactly for an in-band price with a sign change, and then in [1e-4, 10], found by such a search; when it bisects throughout on a strictly increasing gap it prices within the tolerance or is within it of the true vol |
| ImpliedVol.RefineIsSound | src/options_m/volatility.py:161-181 | one iteration keeps the sign change across a strictly narrower bracket with sigma strictly inside |
| ImpliedVol.RefineHalves | src/options_m/volatility.py:161-181 | a bisecting iteration halves the bracket |
| ImpliedVol.RootNeverLost | src/options_m/volatility.py:161-181 | the true vol lies in every bracket, so the answer is off by less than the last one's width |
| ImpliedVol.StalledIsClose | src/options_m/volatility.py:161-181 | a search that stalls has a small gap for its slope, or an answer within the tolerance of every vol that reproduces the price |
| ImpliedVol.BisectionFindsTheVol | src/options_m/volatility.py:161-181 | bisecting all the way, the answer prices within the tolerance or is within it of every vol that prices |
| ImpliedVol.NewtonSolvesStraight | src/options_m/volatility.py:161-181 | on a straight gap one Newton step lands on the root and the search stops there |
| ImpliedVol.RootsStayInside | src/options_m/volatility.py:161-181 | no vol that reproduces the price is ever cut off a bracket, unless what cuts it off prices within the tolerance |
| Reliability.ConvictionReliability | src/options_m/sizing.py:265-321 | the filtering and summing routine returns the assessed reliability and sample count |
| Reliability.CauchySchwarz | src/options_m/sizing.py:300-321 | for every list and every pair of centres the squared cross sum never exceeds the product of the square sums |
| Reliability.CorrelationBounded | src/options_m/sizing.py:300-321 | the unclamped correlation lies in [-1, 1] |
| Reliability.ReliabilityIsPositivePart | src/options_m/sizing.py:265-321 | above the floor and with real spread the reliability is the correlation cut off at zero; the upper clamp never bites |
| Reliability.ReliabilityIgnoresOrder | src/options_m/sizing.py:265-321 | the order of the trades does not matter |
| Reliability.CorrelationIgnoresUnits | src/options_m/sizing.py:300-321 | scaling P&L up or down by a positive factor, or shifting it, leaves the correlation alone |
| Reliability.ReliabilityIgnoresUnits | src/options_m/sizing.py:265-321 | and so the reliability, outside the degenerate branch |
| Reliability.StraightLineIsForetold | src/options_m/sizing.py:265-321 | profit that is a rising straight line of conviction is reliability one, a falling one nil |
| Reliability.SameConvictionKeepsPrior | src/options_m/sizing.py:290-321 | convictions that never differ leave the prior standing, however many trades |
| Reliability.TooLittleSpreadIff | src/options_m/sizing.py:300-321 | too little spread is a variance below the square of a billionth in either series |
| Reliability.UsableSkipsTheUnread | src/options_m/sizing.py:280-296 | exactly the outcomes with both a conviction and a profit are used, in order |
| Indicators.ComputeRsi | src/options_m/indicators.py:57-79 | the routine with its running averages computes the index of the readable values |
| Indicators.ComputeAtr | src/options_m/indicators.py:82-95 | the routine with its running average computes the average true range of the readable bars |
| Indicators.AverageBetween | src/options_m/indicators.py:69-76 | a seeded Wilder average never leaves the range of its values |
| Indicators.SmoothingWeights | src/options_m/indicators.py:69-76 | each step keeps all but one part in the period of the average and takes one part of the new value |
| Indicators.AverageGrows | src/options_m/indicators.py:69-76 | the average starts as the mean of the first period of values, and every further value smooths it once |
| Indicators.TrueRangeIsLargest | src/options_m/indicators.py:82-95 | the true range is the largest of the bar's own range and its two reaches from the previous close |
| Indicators.FiniteSkipsTheUnread | src/options_m/indicators.py:57-95 | exactly the unreadable values are skipped and the rest keep their order |
| Indicators.RsiIsTheGainShare | src/options_m/indicators.py:57-79 | the index lies in [0, 100], is the gains' share of the two averages when something moved, and 50 when nothing did |
| Indicators.RsiMirrors | src/options_m/indicators.py:57-79 | the index of c - x is 100 minus the index of x, flat and one-sided series included |
| Indicators.AtrWithinTrueRanges | src/options_m/indicators.py:82-95 | the average true range lies between the smallest and the largest true range |
| Notify.EscapeText | src/options_m/notify.py:47-54 | the appending loop escapes every character in turn |
| Notify.SpecialsAreEscaped | src/options_m/notify.py:40-54 | exactly the characters MarkdownV2 gives a meaning to are escaped, the backslash among them |
| Notify.EscapeRoundTrips | src/options_m/notify.py:47-54 | escaped text is whole tokens and reads back as the original |
| Notify.EvenRunEndsBetweenTokens | src/options_m/notify.py:67-70 | a prefix of whole text ends between tokens exactly when its trailing run of backslashes is even |
| Notify.HeadEndsBetweenTokens | src/options_m/notify.py:57-71 | the kept head is whole tokens, and no longer prefix within the limit is |
| Notify.TruncateFitsIff | src/options_m/notify.py:57-71 | the result is within the limit exactly when the text already was or the limit leaves room for the marker |
| Notify.TruncatedEscapeReadsBack | src/options_m/notify.py:57-71 | the head of a cut escaped message reads back as a prefix of the original |
| Notify.MarkerIsNotEscaped | src/options_m/notify.py:40-71 | the marker carries bare parentheses, so a cut message is never fully escaped |

## Left out

* Sources of proposals and evidence: the language model, prompts, the decision table, earnings blackouts, screening and evidence staleness; the strategist's outcome is an input.
* HTTP, CLI, chat, Telegram delivery, logging, the supervisor and signal handling.
* The broker's transport, pagination and payload decoding; the broker is an environment that accepts, refuses, times out, fills and kills.
* The Postgres branches of the store; the in-memory branches are the model.
* Parsing of chains and positions into contracts and quantities; the model starts from the parsed rows.
* Black-Scholes prices, deltas, vegas and the square root of time, which stay abstract functions; the square root in the correlation is characterised by its defining equation, the solver's price function by being increasing.
* Floating-point rounding, NaN and infinities: an unreadable number is `None`, and only the two-decimal price rounding is modelled.
* The gate's single-comparison checks: the kill switch seen once more, idempotency flag, market open, close blackout, expiry window, total premium, Greek caps, position counts, halts. They only turn more plans away.
* Counters in `detail`, risk events, recorded agent runs and announcements: they change nothing the theorems speak of.
* The evidence, arguments, plan and error fields of proposal rows, and the request and response of order rows.
* The replacement id of a repriced close: the working close is followed as one order, whatever id it currently has, so the loss of that id in the stored response is not captured.
* Uniqueness of close proposals across ticks, and the priority of exit reasons.
* IV rank and percentile, moving averages, realised volatility and window extremes: one-expression statistics.
* Dates after the year 9999, where Python's calendar ends, and daylight-saving shifts: local times are counted in exchange-local minutes.
* The batches of a hundred symbols the backfill's bar request is split into; a batch read that fails counts as the whole read failing.
* The exchange calendar's refresh, and the replay mode that serves a past session.
- Store.Store.ActiveProposalUnderlyings: compares underlyings as stored, because every writer stores them in upper case.
- PlanRisk.PlanProfitAndBreakeven: leaves covered calls to `PlanRisk.CoveredCallPromisesIff`, because they meet the two promises only under its conditions.
- IvRetries.BackfillTwice: does not promise that a second pass over an unchanged broker writes nothing, keeps the same counters or leaves the store alone, except where no two missing sessions share an expiry, because the narrower request can reach another chain (`IvRetries.RetryReachesAnotherChain`).
- ProtocolRuns.NoDoubleEntry: a run may contain one of the three events and still end without a double entry; that each can cause one is shown by a run of its own.
- Protocol.StepKeepsInv: an underlying is the row's own; an intent that named a different one is not modelled.
- Strategist.StrategistAgent.Pass: a look whose model call raises anything but a contract error writes no row, so it starts no cooldown and is one of the passes that write nothing.
- IvRetries.SecondPassRetriesTheDropped: says which sessions are retried and nothing of what becomes of them; it assumes the stored sessions lie in the closes and fit the window, because only then do the counts agree too, and `IvRetries.EverySecondPassRetriesIff` is the exact condition on the sessions.
