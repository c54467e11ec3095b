# Perpetual Product Market Maker: a verified model

The protocol is an EIP-2535 diamond: one contract that routes every function selector to a facet. Its scripts deploy and
upgrade facets by planning lists of Add, Replace and Remove cuts, run each list as one transaction, and keep a manifest
that later runs read back. Behind the diamond, facets keep positions, orders, open interest, funding indexes and virtual
AMM pools in one shared storage.

| files | what they model |
|---|---|
| `Routing.dfy`, `DiamondStorage.dfy` | the routing table as a value, and LibDiamond's storage that implements it in place |
| `Plans.dfy`, `UpgradeV2.dfy` | multi-facet plans built from one snapshot but run in sequence, and the v2 upgrade script |
| `Deploys.dfy`, `Chain.dfy`, `DeploySteps.dfy`, `DeployAll.dfy` | the three ways of keeping selectors unique, the shared helpers, deployment steps 02-04 and the one-go deployment |
| `Upgrades.dfy`, `UpgradeFacet.dfy` | single-facet upgrades in three modes, and unbounded runs of them |
| `FixedPoint.dfy`, `Margin.dfy`, `LibPosition.dfy` | 18-decimal arithmetic, the integration guide's formulas and the contracts' own |
| `Amm.dfy`, `Twap.dfy`, `Funding.dfy`, `FundingRuns.dfy`, `BookFunding.dfy` | vAMM sync, trades and execution prices, price averages, funding rates and indexes, funding over runs and over a market |
| `Ids.dfy`, `Book.dfy`, `BookRuns.dfy` | positions and orders as a state machine, and its runs |
| `Settlement.dfy`, `World.dfy`, `Keeper.dfy` | fees and settlement, the shared storage as a value with what each operation makes of it, and the keeper's batches and cycles |
| `Trading.dfy`, `Sessions.dfy` | the facets as methods of one class over that storage, and transactions on it |
| `Guarantees.dfy`, `KeeperGuarantees.dfy` | what each call asks for and leaves, read off the records before and after it |
| `Histories.dfy`, `HistoryRuns.dfy`, `FundingHistory.dfy` | histories of transactions: open interest, orders, caps, and a position's collateral against a clock |
| `OrderTwice.dfy`, `Failures.dfy` | histories that show where the contracts fall short of what they promise |

Scripts and facets are methods over mutable state, each proved against a function of the values before; the properties are
lemmas about those functions, for all inputs and all runs. Signed division truncates toward zero and unsigned division
rounds down, as in Solidity and BigInt.

## Where the code and its documentation disagree

The model follows the code.

- `scripts/deploy/03-deploy-pricing-facets.js:17-18` says filtering keeps duplicate selectors out of the batch. All facets are
  filtered against the chain before the batch, and VirtualAMMFacet and PriceFeedFacet both expose `getMarkPrice(uint256)`, so on a
  fresh diamond the step reverts (`SharedSelectorReverts`).
- The protocol's `README.md:384-386` moves both reserves of a pool toward the oracle; the contracts keep the base reserve and move the quote
  reserve only (`SyncToOracle`).
- The protocol's `README.md:425-426` adds the rate to both cumulative indexes; the contracts subtract it from the short one
  (`IndexesOpposite`).
- The protocol's `README.md:417` averages the mark price too; the contracts compare the pool's present mark price with the average
  (`UpdateFundingRate`).
- `KeeperMulticallFacet` says that the failure of an order or of a liquidation is caught and fatal to nothing else. But none of the
  token transfers is caught. A batch is undone if and only if an order, at its turn, is due and asks for a transfer that fails: an
  opening order for the lock of its collateral, a close order for its payout (`BatchGoesThrough`); a pass of liquidations if and only if
  a first entry for a liquidatable position asks for a reward that cannot be transferred (`PassGoesThrough`). Either undoes the whole
  cycle with its prices (`ExecuteCycle`, `LockTakesCycleDown`, `PayoutTakesCycleDown`, `RewardTakesCycleDown`).
- An order beyond the open-interest cap is reported by the keeper as failed after its position has been created, with the order left
  active and the position not counted (`KeeperOrder`, `OrderOpensExactly`). So open interest is the sum over positions exactly in the
  histories without such a turn (`OpenInterestOverHistories`), and an order may open several positions (`PositionsOverHistories`,
  `OneOrderTwoPositions`).
- `FundingRateFacet` says funding is settled on every position interaction. Adding collateral, deleveraging and the keeper's
  liquidations do not settle it, and the keeper's order paths read indexes without accruing them (`CallAccounts`, `DeleverageLapses`,
  `StaleIndex`). A charge beyond the collateral is forgiven, and then settling in between matters (`SettlementCharges`,
  `PaidUnlessForgiven`, `SettlingInBetweenCanMatter`).
- `calculateAverageEntryPrice` is documented as a weighted average in 18 decimals; it divides before it scales, so it yields
  whole units only, and the mean exactly under a condition on the four numbers (`AverageIsExact`, `AverageIsWhole`, `AverageCanBeOff`,
  `AverageOfOnePrice`, `AverageBelowOne`).
- A take-profit or stop-loss order is placed on a position, but closes whatever its owner holds in that market when it
  triggers: that position if and only if it is still open (`CloseOrderClosesWhatIsHeld`), else another one, perhaps of the other
  direction (`CloseOrderHitsTheOtherSide`). `executeOrder` accepts such orders by type and fails at the lock.
- The liquidation price of `LibPosition` is not always on the safe side of its own margin check
  (`LiquidationPriceIsConservative`, `LiquidationPriceCanBeShort`).
- `checkLiquidatable`, `liquidate` and the keeper's pass ask about margin in three ways, each two of which agree only under a condition
  (`ViewAgainstLiquidation`, `KeeperAgainstLiquidation`, `ViewAgainstKeeper`, `ViewCanDisagree`, `KeeperCanDisagree`).
- A market's maximum open interest does not bound it: adding to a position does not look at the cap (`CapsOverHistories`,
  `AdditionPassesTheCap`).
- The v2 upgrade filters brand-new facets against the routes as they were, so a selector moving from an updated facet to a new one is
  lost and recorded all the same (`DroppedNeverReachesNew`, `UpgradeKeepsAgreement`).
- The upgrade history counts the obsolete selectors as removed in every mode; only FULL removes them (`HistoryAccounts`,
  `HistoryTellsTheTruth`).

## Model

| member | source | states |
|---|---|---|
| `Routing.AddList` | contracts/diamond/libraries/LibDiamond.sol:118-127 | adding a list succeeds if and only if it repeats nothing and nothing in it is routed; it then routes exactly the list |
| `Routing.ReplaceList` | contracts/diamond/libraries/LibDiamond.sol:143-153 | replacing succeeds if and only if nothing repeats and every selector is routed to a third facet |
| `Routing.RemoveList` | contracts/diamond/libraries/LibDiamond.sol:165-169 | removing succeeds if and only if nothing repeats and every selector is routed to a removable facet; nothing else is lost |
| `Routing.CutOutcome` | contracts/diamond/libraries/LibDiamond.sol:75-170 | when one cut goes through, by action, and the table it leaves, said of the cut and the table before alone |
| `Routing.CutFailure` | contracts/diamond/libraries/LibDiamond.sol:109-227 | why a cut fails: the first guard it does not pass, or what is wrong with its first bad selector |
| `Routing.ApplyConcat` | contracts/diamond/libraries/LibDiamond.sol:80-100 | a list of cuts is its first part, then its second, or the first failure |
| `Routing.CutConservation` | contracts/diamond/libraries/LibDiamond.sol:75-103 | every cut list that goes through changes the number of routed selectors by what it adds less what it removes |
| `DiamondStorage.SelectorsAreDistinct` | contracts/diamond/libraries/LibDiamond.sol:20-23 | a facet's selector array never repeats a selector |
| `DiamondStorage.SelectorsAreRouted` | contracts/diamond/libraries/LibDiamond.sol:20-30 | a facet's array holds exactly the selectors routed to it |
| `DiamondStorage.AppendKeepsPlaces` | contracts/diamond/libraries/LibDiamond.sol:182-191 | appending a selector keeps map, arrays and address list consistent |
| `DiamondStorage.UnplacedKeepsPlaces` | contracts/diamond/libraries/LibDiamond.sol:201-212 | swap-and-pop of a selector keeps every position exact, also when it is the last one |
| `DiamondStorage.DropAddressKeepsPlaces` | contracts/diamond/libraries/LibDiamond.sol:214-226 | swap-and-pop of a facet address keeps every address position exact |
| `DiamondStorage.SelectorPositionsFit` | contracts/diamond/libraries/LibDiamond.sol:113 | the uint96 cast of a position never truncates: there are only 2^32 selectors |
| `DiamondStorage.Diamond.AddFacet` | contracts/diamond/libraries/LibDiamond.sol:176-180 | a facet is listed if it has code |
| `DiamondStorage.Diamond.AddFunction` | contracts/diamond/libraries/LibDiamond.sol:182-191 | one selector more in the facet's array and in the table, invariant kept |
| `DiamondStorage.Diamond.RemoveFunction` | contracts/diamond/libraries/LibDiamond.sol:193-227 | fails for missing and immutable functions; otherwise exactly that selector leaves, positions and address list repaired |
| `DiamondStorage.Diamond.AddFunctions` | contracts/diamond/libraries/LibDiamond.sol:109-128 | the in-place loop reports and leaves what the Add cut of the table says |
| `DiamondStorage.Diamond.ReplaceFunctions` | contracts/diamond/libraries/LibDiamond.sol:134-154 | the in-place loop reports and leaves what the Replace cut of the table says |
| `DiamondStorage.Diamond.RemoveFunctions` | contracts/diamond/libraries/LibDiamond.sol:160-170 | the in-place loop reports and leaves what the Remove cut of the table says |
| `DiamondStorage.Diamond.DiamondCut` | contracts/diamond/libraries/LibDiamond.sol:75-103 | all cuts in order on the storage refine all cuts on the table; any failure leaves the storage untouched |
| `DiamondStorage.Diamond.FacetAddress` | contracts/diamond/facets/core/DiamondLoupeFacet.sol:49-57 | the routed facet, or address(0) exactly when the selector is not routed |
| `DiamondStorage.Diamond.FacetFunctionSelectors` | contracts/diamond/facets/core/DiamondLoupeFacet.sol:28-36 | without repetition, exactly the selectors routed to the facet |
| `DiamondStorage.Diamond.FacetAddresses` | contracts/diamond/facets/core/DiamondLoupeFacet.sol:40-43 | without repetition, exactly the facets that serve a selector |
| `DiamondStorage.Diamond.CountSelectors` | scripts/helpers/diamond-helpers.js:257-264 | summing array lengths over the listed facets counts every routed selector once |
| `Plans.Without` | scripts/upgrade/upgrade-v2-robustness.js:141-143 | filtering keeps exactly the elements outside the set, and keeps a list free of repetition |
| `Plans.ItemStep` | scripts/upgrade/upgrade-v2-robustness.js:148-173 | one facet's Replace, Add and Remove cuts go through if and only if nothing to be added is routed; the result is the intended table |
| `Plans.PlanOutcome` | scripts/upgrade/upgrade-v2-robustness.js:119-226 | exact condition for the whole multi-facet cut: it goes through if and only if each facet's new selectors are neither exposed by an earlier facet nor routed, except where an earlier facet dropped them; the table is then the upgraded one, otherwise the reason is a duplicate |
| `Plans.WholePlan` | scripts/upgrade/upgrade-v2-robustness.js:119-226 | disjoint new lists and nothing to be added routed: never reverts, every selector of an updated facet at its new address, dropped ones unset, all others kept, count balanced |
| `Plans.PlanOwners` | scripts/upgrade/upgrade-v2-robustness.js:125-174 | after a plan each new address serves exactly its new list and each old address nothing |
| `Plans.DistinctAddresses` | scripts/upgrade/upgrade-v2-robustness.js:96-103 | two facets of a ready plan never share an address |
| `Plans.Migration` | scripts/upgrade/upgrade-v2-robustness.js:125-174 | among updated facets, a selector dropped by one and exposed by another ends at the latter only if the dropping facet comes first; in the other order the cut always reverts |
| `Plans.OrderIndependent` | scripts/upgrade/upgrade-v2-robustness.js:125-174 | without such a migration every order of the updated facets has the same outcome and table |
| `UpgradeV2Script.Push` | scripts/upgrade/upgrade-v2-robustness.js:148-173 | a guarded push adds the cut and keeps the counter equal to the volume of its action |
| `UpgradeV2Script.PlanUpdated` | scripts/upgrade/upgrade-v2-robustness.js:125-174 | the loop over updated facets builds the plan of the snapshot diffs |
| `UpgradeV2Script.PlanNew` | scripts/upgrade/upgrade-v2-robustness.js:177-204 | the loop over new facets adds what the chain does not route yet |
| `UpgradeV2Script.TotalsAre` | scripts/upgrade/upgrade-v2-robustness.js:125-204 | every selector planned for a new address is counted as added or replaced, and every one an old address served as replaced or removed |
| `UpgradeV2Script.DroppedNeverReachesNew` | scripts/upgrade/upgrade-v2-robustness.js:177-204 | a selector that an updated facet drops and a brand-new facet exposes never reaches the new facet; it ends unrouted if and only if no updated facet exposes it, and the new facet is on record with it all the same |
| `UpgradeV2Script.PlanResult` | scripts/upgrade/upgrade-v2-robustness.js:206-226 | the transaction succeeds if and only if the plan fits, and totalAdd - totalRemove is the change of the routed count |
| `UpgradeV2Script.RecordedExactly` | scripts/upgrade/upgrade-v2-robustness.js:318-321 | a facet's new record is exact if and only if it is an updated facet or none of its selectors was skipped |
| `UpgradeV2Script.RecordFacets` | scripts/upgrade/upgrade-v2-robustness.js:318-321 | every listed facet is recorded with its new address and full list, later entries winning, and no other record changes |
| `UpgradeV2Script.UpgradeKeepsAgreement` | scripts/upgrade/upgrade-v2-robustness.js:314-344 | from a manifest in agreement the whole manifest stays so if and only if no new facet had a selector skipped; what loses its owner is exactly what earlier contracts of supposedly new facets still serve |
| `UpgradeV2Script.OutsideKept` | scripts/upgrade/upgrade-v2-robustness.js:119-226 | a recorded facet outside the plan keeps exactly what it serves |
| `UpgradeV2Script.RobustnessUpgrade` | scripts/upgrade/upgrade-v2-robustness.js:94-344 | the whole script: goes through if and only if the plan fits the chain as it was; table, counters, the whole manifest and the upgrade history as stated; a revert changes nothing |
| `Deploys.FirstWinsOwner` | scripts/deploy/deploy-all.js:76-156 | routed selectors keep their facet; any other goes to the first facet in deployment order that exposes it |
| `Deploys.TrackedBatch` | tests/helpers/deployDiamond.js:60-91 | a batch deduplicated by a tracker that agrees with the chain goes through, with the first-wins table |
| `Deploys.TrackerRefinesChain` | scripts/deploy/deploy-all.js:76-156 | over any batches: no batch reverts, the tracker stays equal to the routed selectors, and the table is that of asking the chain and cutting facet by facet |
| `Deploys.OneByOneIsFirstWins` | scripts/helpers/diamond-helpers.js:104-141 | filtering one facet against the chain and cutting it alone, facet after facet, gives the first-wins table |
| `Deploys.SnapshotBatch` | scripts/deploy/03-deploy-pricing-facets.js:50-72 | filtering a batch against one snapshot goes through if and only if the filtered lists are pairwise disjoint, and then agrees with first-wins |
| `Deploys.SharedSelectorReverts` | scripts/deploy/03-deploy-pricing-facets.js:17-18 | two facets of one batch with a common free selector make the snapshot batch revert although the tracked batch goes through |
| `Chain.FilterNewSelectors` | scripts/helpers/diamond-helpers.js:67-76 | the loop keeps, in order, exactly what the chain does not route |
| `Chain.BatchDiamondCut` | scripts/helpers/diamond-helpers.js:148-173 | one all-or-nothing transaction for the entries that have selectors, none at all if there are none |
| `DeployStepScripts.StageStep` | scripts/deploy/03-deploy-pricing-facets.js:52-68 | the loop filters every facet against the same chain |
| `DeployStepScripts.DeployStep` | scripts/deploy/03-deploy-pricing-facets.js:44-75 | the step succeeds if and only if no two of its contracts share a free selector; then the first-wins table, each contract recorded at its own address with exactly the selectors routed to it, every other record kept, and an exact manifest stays exact; otherwise nothing changes |
| `DeployStepScripts.StepServes` | scripts/deploy/03-deploy-pricing-facets.js:57-72 | each contract of a step is recorded with exactly what the chain routes to it afterwards |
| `DeployStepScripts.StepIndexes` | scripts/deploy/03-deploy-pricing-facets.js:57-72 | a manifest that is exact before a step is exact after it |
| `DeployAllScript.Dedup` | scripts/deploy/deploy-all.js:84-88 | what is left is exactly what the tracker did not know, and the tracker then knows it |
| `DeployAllScript.StageTracks` | scripts/deploy/deploy-all.js:95-156 | a staged batch, cut, makes the first-wins table, and the tracker is its set of selectors |
| `DeployAllScript.StageIndexes` | scripts/deploy/deploy-all.js:95-156 | the manifest written while staging is exact for the table the batch makes |
| `DeployAllScript.MadeIsFirstWins` | scripts/deploy/deploy-all.js:95-156 | what staging routes contract by contract is the first-wins table |
| `DeployAllScript.DeployBatch` | scripts/deploy/deploy-all.js:95-106 | one batch never reverts and leaves tracker and manifest exact, whatever records the manifest was loaded with |
| `DeployAllScript.NewDiamond` | contracts/diamond/Diamond.sol:12-25 | the constructor routes diamondCut, and nothing else, to the cut facet |
| `DeployAllScript.CoreCuts` | scripts/deploy/deploy-all.js:64-71 | the core transaction goes through if and only if loupe and ownership facet have functions, share none and do not expose diamondCut |
| `DeployAllScript.DeployCore` | scripts/deploy/deploy-all.js:43-81 | diamond, core facets and the seeding of the tracker: tracker exact, records exact over whatever the manifest was loaded with |
| `DeployAllScript.DeployAll` | scripts/deploy/deploy-all.js:43-156 | the whole script, first run or rerun: only the core transaction can revert; at the end first-wins table, exact tracker, every contract recorded at its own address, exact records of all it deployed, earlier records otherwise as they were |
| `DeployAllScript.RerunAgrees` | scripts/helpers/diamond-helpers.js:184-196 | after a rerun the whole manifest agrees with the new diamond if and only if no record that was left over lists a selector |
| `DeployAllScript.RoutesAreNew` | scripts/deploy/deploy-all.js:43-156 | everything the script routes goes to what it has deployed itself |
| `Upgrades.UpgradeOutcome` | scripts/upgrade/upgrade-facet.js:102-164 | per mode, the exact condition and result of the transaction |
| `Upgrades.UpgradeRecordedExactly` | scripts/upgrade/upgrade-facet.js:63-201 | an upgrade is recorded if and only if its mode is known, there is something to diff, ADD_NEW has something to add, and nothing to be added is routed; table, record and history line are then as stated, and otherwise as they were |
| `Upgrades.AddNewAdds` | scripts/upgrade/upgrade-facet.js:133-138 | ADD_NEW with nothing new leaves table, manifest and history as they were, and a recorded one increases the number of routed selectors |
| `Upgrades.FullUpgradeExact` | scripts/upgrade/upgrade-facet.js:84-161 | a FULL upgrade reverts if and only if something in toAdd is routed; else the new address serves exactly the new set, the old one nothing, all other routes unchanged |
| `Upgrades.AgreementByMode` | scripts/upgrade/upgrade-facet.js:105-185 | REPLACE and FULL keep the recorded lists exact; ADD_NEW does if and only if toReplace is empty |
| `Upgrades.OrphansByMode` | scripts/upgrade/upgrade-facet.js:105-185 | routed selectors losing their manifest owner: none under FULL, exactly toRemove under REPLACE, all old ones under ADD_NEW |
| `Upgrades.OrphansOverRuns` | scripts/upgrade/upgrade-facet.js:67-201 | over any run in any modes the routed selectors without an owner are those of the start and what each upgrade abandoned; none finds an owner again |
| `Upgrades.OthersKept` | scripts/upgrade/upgrade-facet.js:185-199 | an upgrade leaves the routes of every other recorded facet alone |
| `Upgrades.UpgradedServes` | scripts/upgrade/upgrade-facet.js:205-206 | what the new address serves after the upgrade, per mode |
| `Upgrades.KnownKept` | scripts/upgrade/upgrade-facet.js:67-90 | recorded addresses stay distinct and handed out, so the next upgrade may start |
| `Upgrades.RunsAgree` | scripts/upgrade/upgrade-facet.js:67-201 | over any run in REPLACE and FULL mode, including aborted and reverted upgrades, every recorded list stays exact |
| `Upgrades.FullRunsOwnEverything` | scripts/upgrade/upgrade-facet.js:139-201 | over any FULL run no routed selector loses its manifest owner |
| `Upgrades.HistoryAccounts` | scripts/upgrade/upgrade-facet.js:187-199 | over any run in any modes, the routed count moves by the history's additions less the removals of its FULL entries |
| `Upgrades.HistoryTellsTheTruth` | scripts/upgrade/upgrade-facet.js:187-199 | over any run the history's additions less its removals are the change of the routed count if and only if no upgrade outside FULL mode was recorded as removing something |
| `UpgradeFacetScript.BuildCuts` | scripts/upgrade/upgrade-facet.js:84-164 | the pushes by mode build the planned list; the script gives up if and only if the mode is unknown, both lists are empty, or ADD_NEW finds nothing new |
| `UpgradeFacetScript.UpgradeFacet` | scripts/upgrade/upgrade-facet.js:63-206 | chain, manifest and history after the script are those of the upgrade step; it gives up exactly in those cases, says it is done if and only if the history grew, and reverts only over a routed selector that the old facet does not serve |
| `Margin.LongAndShortCancel` | docs/FRONTEND_INTEGRATION.md:724-735 | a long and a short of one size and entry sum to zero at every price |
| `Margin.PnlMonotone` | docs/FRONTEND_INTEGRATION.md:724-735 | the truncated profit and loss is monotone in the price |
| `Margin.EstimateIsTight` | docs/FRONTEND_INTEGRATION.md:822-841 | equity at the estimate is less than size/10^18 + size/entry + 1 above maintenance, never below it with a non-negative buffer, and never more than size/entry + 1 below it |
| `Margin.EstimatesAgree` | docs/FRONTEND_INTEGRATION.md:822-841 | long and short have the same equity at their estimates |
| `Margin.EstimateSeparates` | docs/FRONTEND_INTEGRATION.md:804-841 | safe side: equity covers maintenance; entry/10^18 + entry/size + 1 beyond: it does not |
| `LibPosition.PnlIsMagnitude` | contracts/diamond/libraries/LibPosition.sol:14-29 | the twice-rounded result is the sign of the move times one magnitude for both sides |
| `LibPosition.LongAndShortCancel` | contracts/diamond/libraries/LibPosition.sol:14-29 | long and short sum to zero under the contract's rounding too |
| `LibPosition.ChainPnlMonotone` | contracts/diamond/libraries/LibPosition.sol:14-29 | better prices never give less |
| `LibPosition.FormulasAgree` | contracts/diamond/libraries/LibPosition.sol:24-28 | contract and integration guide agree in sign; the guide is larger by less than size/10^18 + 1 |
| `LibPosition.MarginCheckIsExact` | contracts/diamond/libraries/LibPosition.sol:36-49 | the basis-point check is the exact comparison of equity with maintenance |
| `LibPosition.LiquidatableBelow` | contracts/diamond/libraries/LibPosition.sol:36-49 | once liquidatable, liquidatable at every worse price |
| `LibPosition.LiquidationPriceSeparates` | contracts/diamond/libraries/LibPosition.sol:58-88 | with room: on the safe side short of maintenance by less than a unit at most; a stated distance beyond, below it |
| `LibPosition.LiquidationPriceIsConservative` | contracts/diamond/libraries/LibPosition.sol:36-88 | exactly when every price on the safe side keeps the position out of liquidation: with room, unless maintenance is a broken amount and both roundings of the room come out even (a long whose room reaches zero is always safe); without room, when the collateral itself covers maintenance |
| `LibPosition.LiquidationPriceCanBeShort` | contracts/diamond/libraries/LibPosition.sol:58-88 | an input on which the unit is missing: liquidatable at its own liquidation price |
| `LibPosition.AverageIsWhole` | contracts/diamond/libraries/LibPosition.sol:112-124 | the new entry price is the weighted mean rounded down to a multiple of 10^18 |
| `LibPosition.AverageIsExact` | contracts/diamond/libraries/LibPosition.sol:105-124 | the new entry price is the weighted mean in 18 decimals, as documented, if and only if what the mean leaves over a whole number of units is below one part in 10^18 and not below what rounding the two products loses |
| `LibPosition.AverageCanBeOff` | contracts/diamond/libraries/LibPosition.sol:105-124 | two equal sizes at 1 and at 2: the mean is 1.5 and the new entry price 1 |
| `LibPosition.AverageOfOnePrice` | contracts/diamond/libraries/LibPosition.sol:112-124 | adding at the entry price keeps it if and only if it is a multiple of 10^18 |
| `LibPosition.AverageBelowOne` | contracts/diamond/libraries/LibPosition.sol:112-124 | below one unit the new entry price is 0, and profit and loss 0 at every price |
| `LibPosition.ClosingInParts` | docs/trading-guide.md:191-205 | n parts at one price realise the whole up to n - 1 units, toward zero |
| `LibPosition.PartialClosesRealize` | contracts/diamond/facets/trading/PositionFacet.sol:310-329 | any sequence of partial closes and the final close realise the whole toward zero, up to two units and 10^-18 of it per partial close |
| `Amm.PullShrinksGap` | contracts/diamond/facets/pricing/VirtualAMMFacet.sol:79-88 | no overshoot; the gap shrinks by its damped part, strictly if and only if gap times damping is at least 10000 |
| `Amm.GapDecays` | contracts/diamond/facets/pricing/VirtualAMMFacet.sol:75-88 | after n syncs the gap is at most gap0*((10000-d)/10000)^n + 10000/d, cross-multiplied |
| `Amm.PullsSettle` | contracts/diamond/facets/pricing/VirtualAMMFacet.sol:75-88 | after at most gap0 syncs the reserves no longer change and gap times damping is below 10000 |
| `Amm.MarkApproachesOracle` | contracts/diamond/facets/pricing/VirtualAMMFacet.sol:72-88 | the mark price moves toward the oracle price and not past it, up to the rounding of the target |
| `Amm.TradeKeepsProduct` | contracts/diamond/facets/trading/PositionFacet.sol:520-546 | which way a trade moves the quote reserve, and by how much; the product of the reserves is kept up to the rounding of one division each |
| `Amm.TradeAndBack` | contracts/diamond/facets/trading/PositionFacet.sol:520-546 | the exact condition for a close to restore the quote reserve of before the open, trades that round the base reserve to 0 included |
| `Amm.RoundTripDrift` | contracts/diamond/facets/trading/PositionFacet.sol:520-546 | whenever the quote reserve comes back, the base reserve has not grown and has lost a bounded amount |
| `Amm.TradeCanEmptyThePool` | contracts/diamond/facets/trading/PositionFacet.sol:520-546 | a pool whose base reserve a trade rounds to 0, and on which the close has no effect |
| `Amm.LongImpactBound` | contracts/diamond/facets/trading/PositionFacet.sol:478-518 | a long pays at most its size over the base reserve, and a unit, above the oracle price |
| `Amm.LongAboveOracle` | contracts/diamond/facets/trading/PositionFacet.sol:478-518 | a long pays at least the oracle price once the trade outweighs the rounding of the reserves, and falls short of it by a bounded amount before |
| `Amm.ShortBelowOracle` | contracts/diamond/facets/trading/PositionFacet.sol:478-518 | a short receives at most the oracle price once the trade outweighs the rounding of the reserves, and exceeds it by a bounded amount before |
| `Amm.ShortImpactBound` | contracts/diamond/facets/trading/PositionFacet.sol:478-518 | a short receives at most its size over the base reserve, and a unit, less than the oracle price |
| `Amm.ExecutionMatchesTrade` | contracts/diamond/facets/trading/PositionFacet.sol:478-546 | the price of an order is the oracle price plus the average price of the trade it makes in the pool, less the mark price, to the last unit; never below 1, and the oracle price alone where the pool moves no base |
| `Amm.ExecutionPriceIsPositive` | contracts/diamond/facets/trading/PositionFacet.sol:478-518 | an order always has a price where there is an oracle price |
| `Amm.PassPullsListed` | contracts/diamond/facets/core/KeeperMulticallFacet.sol:155-177 | the keeper's pass pulls every pool as often as its market is listed, and nothing else |
| `Twap.CalculateTWAP` | contracts/diamond/libraries/LibTWAP.sol:17-80 | the backward walk computes the plain mean of the price of every second it can reach in the window |
| `Twap.MeanIsAverage` | contracts/diamond/libraries/LibTWAP.sol:17-80 | the average is the sum over the seconds of the window that the last thousand points cover, over their number, rounded down; the latest price when there are none |
| `Twap.MeanWithinPrices` | contracts/diamond/libraries/LibTWAP.sol:17-80 | the average lies between the lowest and highest recorded price |
| `Funding.RateFollowsPremium` | contracts/diamond/facets/trading/FundingRateFacet.sol:61-93 | the rate never points against the premium, respects the cap and is at most twice the premium's share per second |
| `Funding.RateIsPremiumShare` | contracts/diamond/facets/trading/FundingRateFacet.sol:61-93 | the size of the rate to the last unit: the premium over 86400 seconds, enlarged by the imbalance of open interest, cut off at the maximum |
| `FundingRuns.RunKeepsPace` | contracts/diamond/facets/trading/PositionFacet.sol:548-601 | over any run of accruals, refreshes, settlements, resizes and deleveragings: charged + pending + lapsed is what a second-by-second clock charges, up to a unit per payment |
| `FundingRuns.SettledRunPaysTheClock` | README.md:422-437 | a settled position has been charged what every second cost, up to a unit per payment |
| `FundingRuns.TouchesDoNotMatter` | README.md:422-437 | touches in between make no difference to what is charged beyond rounding |
| `FundingRuns.ClockIgnoresTouches` | README.md:422-437 | the reference depends on rates and sizes only |
| `FundingRuns.StaleIndex` | contracts/diamond/facets/core/KeeperMulticallFacet.sol:320-335 | a position opened on an index nobody accrued starts off by what was pending; level if and only if nothing was |
| `FundingRuns.DeleverageLapses` | contracts/diamond/facets/trading/LiquidationFacet.sol:194-210 | deleveraging lets exactly the pending funding of the part it takes away lapse |
| `FundingRuns.PreviewIsCharge` | contracts/diamond/facets/trading/FundingRateFacet.sol:154-174 | the funding shown is the funding the next settlement charges |
| `FundingRuns.IndexesOpposite` | contracts/diamond/facets/trading/PositionFacet.sol:557-560 | the two cumulative indexes stay opposite |
| `FundingHistory.CallAccounts` | contracts/diamond/facets/trading/PositionFacet.sol:548-601 | every call of the exchange means, for a position that stays open, exactly the ledger events stated for it; its collateral changes by the flows of the call and what is forgiven, less the charge |
| `FundingHistory.HistoryAccounts` | contracts/diamond/facets/trading/PositionFacet.sol:548-601 | the same over whole histories |
| `FundingHistory.CollateralFollowsTheClock` | README.md:416-437 | over any history: what has left the collateral, flows apart, with what was forgiven and what is pending, adds up to what every second cost, less what deleveraging let lapse, up to a unit per settlement |
| `FundingHistory.PaidUnlessForgiven` | contracts/diamond/facets/trading/PositionFacet.sol:563-595 | over any history the collateral pays exactly the charges if and only if nothing is forgiven in all; one settlement forgives nothing if and only if its charge is covered or is all the collateral |
| `BookFunding.AccrualIsImbalance` | README.md:416-434 | between size changes, owed by longs less credited to shorts is (longOI - shortOI) times the index change |
| `BookFunding.ChargesMatchImbalance` | README.md:416-434 | the same for the truncated charges, up to a unit per position |
| `Book.MovesKeepSound` | contracts/diamond/storage/AppStorage.sol:108-118 | every operation keeps ids consecutive, held positions active and unique, active sizes positive, close orders without collateral |
| `Book.MoveShortfall` | contracts/diamond/storage/AppStorage.sol:68-71 | no operation but a keeper fill beyond the cap lets open interest fall short of the positions, and that one by exactly the order's size |
| `Book.ExactUnlessBeyondCap` | contracts/diamond/facets/core/KeeperMulticallFacet.sol:343-354 | from an exact state the next is exact if and only if the operation does not fill an order for which there is no room under the cap |
| `Book.MovesKeepUnder` | contracts/diamond/facets/trading/PositionFacet.sol:331-337 | open interest never exceeds the positions, saturating subtraction included |
| `BookRuns.RunsKeepSound` | README.md:219-224 | both invariants over any run |
| `BookRuns.OpenInterestIsSum` | README.md:315-318 | open interest is the sum over active positions in every state of a run if and only if no order is filled beyond the cap |
| `BookRuns.NetMode` | README.md:219-223 | userMarketPosition is non-zero exactly for users with an active position, which is unique and theirs |
| `BookRuns.IdsAreForGood` | contracts/diamond/storage/AppStorage.sol:109-110 | ids count up and are never reused; owner, market and direction never change; closed positions never change |
| `BookRuns.ClosingRestores` | contracts/diamond/facets/trading/PositionFacet.sol:396-398 | after a close the book has room for a new position of the user, in either direction, if and only if the cap has |
| `BookRuns.OrdersEndOnce` | contracts/diamond/facets/trading/OrderBookFacet.sol:102-113 | over any run an order leaves the active state exactly once or is still active |
| `BookRuns.PositionsOfAnOrder` | contracts/diamond/facets/core/KeeperMulticallFacet.sol:306-360 | the positions opened for an order are its fills beyond the cap, and one more if it ended by a fill |
| `BookRuns.AtMostOnePosition` | contracts/diamond/facets/trading/OrderBookFacet.sol:123-274 | without a fill beyond the cap an order opens at most one position; with one, more than one if and only if it is filled again |
| `BookRuns.FillOpensTheOrder` | contracts/diamond/facets/core/KeeperMulticallFacet.sol:313-360 | a fill, counted or not, adds exactly one position, the only one of its user in the market, and touches no other; it ends the order if and only if it is counted |
| `Book.ExecutedOnItsSide` | contracts/diamond/facets/core/KeeperMulticallFacet.sol:455-475 | every fill happens on its side of the trigger: a limit order at its price or better, a stop-limit order between trigger and limit, a take-profit order when the trade has won that much, a stop-loss order when it has lost it |
| `BookRuns.CloseOrderClosesWhatIsHeld` | contracts/diamond/facets/trading/OrderBookFacet.sol:359-389 | a take-profit or stop-loss order, whenever it is executed, closes the position it was placed on if and only if that one is still open; otherwise it closes another position of its owner in the market and the record of the first stays as it was |
| `BookRuns.CloseOrderHitsTheOtherSide` | contracts/diamond/facets/core/KeeperMulticallFacet.sol:372-453 | a run in which a stop placed on a long closes a short |
| `Settlement.TokensAndBack` | contracts/diamond/facets/trading/PositionFacet.sol:449-467 | token amounts survive conversion to dollars and back for up to 18 decimals and never grow |
| `Settlement.WorthInTokens` | contracts/diamond/facets/trading/PositionFacet.sol:449-467 | tokens are dollars rounded down to the token unit, for any number of decimals |
| `Settlement.FeeIsRoundedUp` | contracts/diamond/libraries/LibFee.sol:14-19 | a trading fee is its share of the size, rounded up |
| `Settlement.LeverageIsExact` | contracts/diamond/libraries/LibPosition.sol:95-105 | leverage is within the limit if and only if the size, scaled, is below the next whole step of leverage on the collateral |
| `Settlement.SettlementCharges` | contracts/diamond/facets/trading/PositionFacet.sol:563-595 | in dollars, settlement takes the payment if the collateral covers it and everything otherwise; it takes exactly the payment if and only if it is covered or all there is; settling again charges nothing |
| `Settlement.SettlementMovesTokens` | contracts/diamond/facets/trading/PositionFacet.sol:563-595 | in tokens, a credit adds its worth rounded down, a charge that the tokens exceed takes its worth, any other leaves none; nothing else about the position changes but its index |
| `Settlement.TokensFollowDollars` | contracts/diamond/facets/trading/PositionFacet.sol:563-595 | a covered settlement moves tokens and dollars alike, to less than one token unit |
| `Settlement.SettlingInBetweenCanMatter` | contracts/diamond/facets/trading/PositionFacet.sol:563-595 | a position whose collateral does not cover a charge: settling in between changes what it ends with |
| `Settlement.ReducedKeepsProportion` | contracts/diamond/facets/trading/PositionFacet.sol:314-329 | what stays behind is never less than the remaining size's share of the collateral, and at most a unit and 10^-18 of the collateral more |
| `Settlement.ViewAgainstLiquidation` | contracts/diamond/facets/trading/LiquidationFacet.sol:26-173 | checkLiquidatable and liquidate agree if and only if the collateral covers the pending funding or maintenance does not lie between the two equities |
| `Settlement.KeeperAgainstLiquidation` | contracts/diamond/facets/core/KeeperMulticallFacet.sol:480-505 | the keeper's unsettled check and the settled one agree if and only if maintenance does not lie between the recorded equity and the settled one; always when nothing is pending |
| `Settlement.ViewAgainstKeeper` | contracts/diamond/facets/trading/LiquidationFacet.sol:132-152 | checkLiquidatable and the keeper's check agree if and only if maintenance does not lie between the equity less pending funding and the recorded one |
| `Settlement.KeeperCanDisagree` | contracts/diamond/facets/core/KeeperMulticallFacet.sol:480-500 | a position the keeper passes over although the view shows it as liquidatable and liquidate goes through |
| `Settlement.CancellingPayouts` | contracts/diamond/facets/trading/PositionFacet.sol:603-627 | two cancelling positions pay out what they brought in and whatever the loser's collateral does not cover; no more than they brought in if and only if it covers the loss |
| `Settlement.PayoutIs` | contracts/diamond/facets/trading/PositionFacet.sol:603-627 | a payout is the collateral with the worth of the result, less the fee, and never negative |
| `Settlement.LiquidationShares` | contracts/diamond/facets/trading/LiquidationFacet.sol:46-98 | what a liquidation distributes: the worth of the equity, the penalty its share of it, the reward six tenths of the penalty, each rounded down |
| `Settlement.ViewCanDisagree` | contracts/diamond/facets/trading/LiquidationFacet.sol:132-173 | an uncovered position on which they do not |
| `Trading.Exchange.OpenPosition` | contracts/diamond/facets/trading/PositionFacet.sol:30-138 | succeeds exactly under the facet's checks; then one new counted position at the execution price, funding accrued, the trade in the pool; else nothing changes |
| `Guarantees.OpeningGives` | contracts/diamond/facets/trading/PositionFacet.sol:30-138 | what opening asks for, check by check, if and only if; and the position it leaves: leveraged size, collateral less the fee, execution price, present index, counted and traded |
| `Trading.Exchange.AddSize` | contracts/diamond/facets/trading/PositionFacet.sol:229-284 | succeeds exactly under its checks and leaves exactly the settled, grown position, its size counted and traded; there is no cap on this path |
| `Guarantees.AddingGives` | contracts/diamond/facets/trading/PositionFacet.sol:229-284 | what adding asks for, check by check, if and only if; and what it leaves of the position as funding brings it up to date |
| `Trading.Exchange.PartialClose` | contracts/diamond/facets/trading/PositionFacet.sol:292-353 | succeeds exactly under its checks, a payout that is due and can be made among them, and leaves exactly the settled, reduced position |
| `Guarantees.PartialGives` | contracts/diamond/facets/trading/PositionFacet.sol:292-353 | what a partial close asks for, check by check, if and only if; tokens and dollars it leaves are the rest of what the funding credit or charge makes of them |
| `Trading.Exchange.ClosePosition` | contracts/diamond/facets/trading/PositionFacet.sol:361-411 | the owner closes at a fresh price if the payout that is due is made; the market is free again |
| `Guarantees.ClosingGives` | contracts/diamond/facets/trading/PositionFacet.sol:361-411 | the owner closes at a recent price if and only if the payout, a funding credit included, can be made or is nothing; the position ends, its size leaves open interest and pool |
| `Trading.ClosedMayReopen` | contracts/diamond/facets/trading/PositionFacet.sol:30-96 | after a close or a liquidation the user may open again, in either direction, if and only if everything else that opening asks for is there |
| `Trading.Exchange.AddCollateral` | contracts/diamond/facets/trading/PositionFacet.sol:147-166 | only collateral changes |
| `Guarantees.CollateralGoesIn` | contracts/diamond/facets/trading/PositionFacet.sol:147-166 | if and only if the owner brings some; nothing else changes |
| `Trading.Exchange.RemoveCollateral` | contracts/diamond/facets/trading/PositionFacet.sol:176-219 | succeeds exactly under the facet's checks, the transfer out among them, and the position keeps twice the maintenance margin and the leverage limit |
| `Guarantees.CollateralComesOut` | contracts/diamond/facets/trading/PositionFacet.sol:176-219 | if and only if what is left of the settled position is within the leverage, has twice the maintenance margin, and the transfer is made; nothing else changes but the indexes |
| `Trading.Exchange.Liquidate` | contracts/diamond/facets/trading/LiquidationFacet.sol:26-122 | succeeds if and only if the settled margin is below maintenance and the transfers that are due are made |
| `Guarantees.LiquidationGives` | contracts/diamond/facets/trading/LiquidationFacet.sol:26-122 | anybody liquidates if and only if the settled margin is below maintenance, compared exactly, and the transfers that are due are made; the position ends |
| `Trading.Exchange.AutoDeleverage` | contracts/diamond/facets/trading/LiquidationFacet.sol:183-242 | reduces profitable positions only, if the payout that is due is made; taking everything closes the position |
| `Guarantees.DeleverageGives` | contracts/diamond/facets/trading/LiquidationFacet.sol:183-242 | if and only if the position wins, the part is within its size and the payout that is due is made; the part leaves with its share, unsettled, and not through the pool |
| `Trading.Exchange.PlaceOrder` | contracts/diamond/facets/trading/OrderBookFacet.sol:301-357 | a valid order is stored under the next id |
| `KeeperGuarantees.LimitOrdersGive` | contracts/diamond/facets/trading/OrderBookFacet.sol:301-357 | a limit order is recorded if and only if every check passes, with its trigger as its limit; nothing else changes |
| `KeeperGuarantees.StopLimitOrdersGive` | contracts/diamond/facets/trading/OrderBookFacet.sol:301-357 | the same for a stop-limit order, with its own limit |
| `Trading.Exchange.PlaceCloseOrder` | contracts/diamond/facets/trading/OrderBookFacet.sol:359-389 | a close order copies the position's terms and carries no collateral |
| `KeeperGuarantees.PlacingCloses` | contracts/diamond/facets/trading/OrderBookFacet.sol:359-389 | a take-profit or stop-loss order is recorded if and only if the owner places it on an open position, on that position's terms |
| `Trading.Exchange.CancelOrder` | contracts/diamond/facets/trading/OrderBookFacet.sol:104-113 | only the owner, only while active |
| `KeeperGuarantees.CancellingGives` | contracts/diamond/facets/trading/OrderBookFacet.sol:102-113 | exactly the owner's active order ends, and nothing else |
| `Trading.Exchange.ExecuteOrder` | contracts/diamond/facets/trading/OrderBookFacet.sol:123-274 | fills exactly when every check passes; close orders never pass the lock |
| `KeeperGuarantees.ExecutionGives` | contracts/diamond/facets/trading/OrderBookFacet.sol:123-274 | what a fill asks for, check by check, if and only if; the position it leaves at the oracle price, less the maker fee, counted and traded, the order done with |
| `KeeperGuarantees.FilledAtItsPrice` | contracts/diamond/facets/trading/OrderBookFacet.sol:391-421 | the entry of a position filled for a limit order is never worse than its trigger, for a stop-limit order it lies between trigger and limit |
| `Trading.Exchange.CreateVault` | contracts/diamond/facets/vault/VaultFactoryFacet.sol:25-41 | one account per user, without which nothing can be opened or ordered |
| `Trading.Exchange.InitializePool` | contracts/diamond/facets/pricing/VirtualAMMFacet.sol:31-56 | accepts exactly valid parameters for an uninitialised pool; the mark price starts at the given price up to rounding |
| `KeeperGuarantees.InitializingGives` | contracts/diamond/facets/pricing/VirtualAMMFacet.sol:31-56 | the pool that is set up, if and only if the parameters are valid, the market exists and has none |
| `Trading.Exchange.SyncToOracle` | contracts/diamond/facets/pricing/VirtualAMMFacet.sol:62-92 | one damped pull of one pool |
| `KeeperGuarantees.SyncGives` | contracts/diamond/facets/pricing/VirtualAMMFacet.sol:62-92 | one damped step toward the base reserve's worth at the oracle price, dated now, where there is a pool and a price; else nothing |
| `Trading.Exchange.SyncAllVAMMs` | contracts/diamond/facets/core/KeeperMulticallFacet.sol:155-177 | the loop is the pass of the specification |
| `Trading.Exchange.BatchUpdatePrices` | contracts/diamond/facets/pricing/OracleFacet.sol:30-66 | all prices or none: the list is accepted if and only if each price, in turn, may be pushed |
| `KeeperGuarantees.PricesGoIn` | contracts/diamond/facets/pricing/OracleFacet.sol:30-66 | a list is taken if and only if each price is positive and within the deviation from the one before it, on record or on the list; prices, dates and histories are then those of the list |
| `KeeperGuarantees.PriceUpdatesGive` | contracts/diamond/facets/pricing/OracleFacet.sol:30-66 | the oracle's own entry point takes a non-empty list of existing markets with such prices, and nothing else |
| `Trading.Exchange.UpdateFundingRate` | contracts/diamond/facets/trading/FundingRateFacet.sol:30-96 | accrues at the old rate, then sets the rate from the pool's mark price, the average price and open interest; without an average the old rate stays |
| `KeeperGuarantees.RefreshGives` | contracts/diamond/facets/trading/FundingRateFacet.sol:30-96 | the rate a refresh leaves on record: none without a pool, the sign of the mark price against the average, to the last unit in size, within the maximum; the old one without an average |
| `Trading.Exchange.KeeperOrder` | contracts/diamond/facets/core/KeeperMulticallFacet.sol:246-453 | exactly when an order of a batch is executed, failed, left waiting or takes the batch down, and the state it leaves; one beyond the cap is failed, has its position created, stays active and is not counted |
| `KeeperGuarantees.KeeperAnswers` | contracts/diamond/facets/core/KeeperMulticallFacet.sol:246-453 | an order is left waiting if and only if the price is strictly on its waiting side; the batch is aborted if and only if a transfer asked for is not made; an order is executed if and only if it can be and, if it opens, has room |
| `KeeperGuarantees.KeeperLeaves` | contracts/diamond/facets/core/KeeperMulticallFacet.sol:278-453 | what each order of a batch leaves: the position at the oracle price, counted only with room; or the held position ended, its tokens and dollars settled at the recorded index |
| `KeeperGuarantees.ExecutedAtItsPrice` | contracts/diamond/facets/core/KeeperMulticallFacet.sol:455-475 | whatever the keeper executes is on its side of trigger and limit, and the entry of what it opens too |
| `Keeper.OrderOpensExactly` | contracts/diamond/facets/core/KeeperMulticallFacet.sol:278-369 | an order of a batch opens a position if and only if it is due, openable and lockable, room or no room; it is the one ordered and its user's only one in the market; only room ends the order |
| `Keeper.BatchGoesThrough` | contracts/diamond/facets/core/KeeperMulticallFacet.sol:246-453 | a batch goes through if and only if no order, at its turn, is due and asks for a transfer that fails: an opening order for its lock, a close order for its payout |
| `Keeper.BatchIsLegal` | contracts/diamond/facets/core/KeeperMulticallFacet.sol:246-275 | a batch is a legal run of moves from the state it starts from, and none at all if it is taken down |
| `Keeper.BatchCounts` | contracts/diamond/facets/core/KeeperMulticallFacet.sol:343-360 | a batch that goes through leaves a fill uncounted if and only if some order, at its turn, is openable and lockable without room under the cap |
| `KeeperGuarantees.BatchTallies` | contracts/diamond/facets/core/KeeperMulticallFacet.sol:246-275 | the counters of a batch are the numbers of orders executed and failed, and all others are waiting |
| `Trading.Exchange.ExecuteOrders` | contracts/diamond/facets/core/KeeperMulticallFacet.sol:246-275 | done if and only if no order at its turn asks for a transfer that fails; state and both counters are those of the batch as specified, or the state before |
| `Trading.Exchange.ExecuteLiquidations` | contracts/diamond/facets/core/KeeperMulticallFacet.sol:480-545 | done if and only if no entry that is the first for its position asks for a reward that cannot be transferred; state and counters are those of the pass as specified, or the state before |
| `Keeper.PassLiquidates` | contracts/diamond/facets/core/KeeperMulticallFacet.sol:480-545 | a pass that goes through closes exactly the listed positions that are liquidatable as recorded and touches nothing else; another one changes nothing |
| `Keeper.PassLeavesNone` | contracts/diamond/facets/core/KeeperMulticallFacet.sol:480-545 | after a pass that goes through no listed position is liquidatable |
| `Keeper.PassGoesThrough` | contracts/diamond/facets/core/KeeperMulticallFacet.sol:480-545 | on the state before the pass: it goes through if and only if no entry that is the first for its position is liquidatable with a reward that cannot be transferred |
| `KeeperGuarantees.PassEnds` | contracts/diamond/facets/core/KeeperMulticallFacet.sol:480-545 | a pass that goes through ends exactly the listed positions whose recorded margin is below maintenance, compared exactly |
| `KeeperGuarantees.PassIsUndone` | contracts/diamond/facets/core/KeeperMulticallFacet.sol:508-530 | a pass is undone if and only if some listed position is below maintenance with a reward due that is not transferred at its first entry |
| `Trading.Exchange.ExecutePriceCycle` | contracts/diamond/facets/core/KeeperMulticallFacet.sol:101-113 | prices pushed, pools synced and rates refreshed, each on what the step before left, or nothing |
| `KeeperGuarantees.CyclesAreFair` | contracts/diamond/facets/core/KeeperMulticallFacet.sol:101-240 | after a price cycle every listed market's rate is right for the pool, prices and open interest that the cycle leaves, and its pool has been pulled toward the last price listed for it once for every time it is listed |
| `Trading.Exchange.ExecuteCycle` | contracts/diamond/facets/core/KeeperMulticallFacet.sol:60-98 | the whole cycle: goes through if and only if its prices are accepted, its batch goes through and its pass goes through; otherwise nothing changes |
| `KeeperGuarantees.CycleGives` | contracts/diamond/facets/core/KeeperMulticallFacet.sol:60-98 | a cycle is all or nothing, exactly when its prices are acceptable and no transfer asked for at its turn fails; everything it opens is entered at the prices it brought, and none of its listed positions is left below maintenance |
| `Keeper.CycleIsLegal` | contracts/diamond/facets/core/KeeperMulticallFacet.sol:60-98 | a cycle is a legal run of moves to a coherent state |
| `Histories.CallReaches` | contracts/diamond/Diamond.sol:29-56 | every call of any user, keeper or administrator is the stated legal run of moves to a coherent state |
| `Histories.HistoryReaches` | contracts/diamond/Diamond.sol:29-56 | every history is a legal run of the moves of its calls, so all that holds of runs holds of it |
| `HistoryRuns.OpenInterestOverHistories` | README.md:315-318 | over any history from an exact state open interest is the sum over positions after every move if and only if no cycle that goes through has an order, at its turn, without room under the cap |
| `HistoryRuns.PositionsOverHistories` | contracts/diamond/facets/core/KeeperMulticallFacet.sol:278-369 | over any history the positions opened for an order are its turns in cycles beyond the cap, and one more if it was filled in the end |
| `HistoryRuns.CallKeepsCaps` | contracts/diamond/facets/trading/PositionFacet.sol:229-284 | from within the caps a call leads out of them if and only if it adds a size that does not fit or sets a limit below what is open |
| `HistoryRuns.CapsOverHistories` | contracts/diamond/facets/trading/PositionFacet.sol:229-284 | over any history open interest stays within the caps if and only if no transaction, at its turn, is one of those two |
| `OrderTwice.OneOrderTwoPositions` | contracts/diamond/facets/core/KeeperMulticallFacet.sol:343-360 | from an empty exchange, under one cap throughout, a history of nine transactions in which one order opens two positions |
| `Failures.LockTakesCycleDown` | contracts/diamond/facets/core/KeeperMulticallFacet.sol:294-305 | a reached state in which one order takes a cycle down when its lock is refused, and does not otherwise |
| `Failures.PayoutTakesCycleDown` | contracts/diamond/facets/core/KeeperMulticallFacet.sol:390-440 | a reached state in which a take-profit order takes a cycle down when its payout is not made, and does not otherwise |
| `Failures.RewardTakesCycleDown` | contracts/diamond/facets/core/KeeperMulticallFacet.sol:508-530 | a reached state in which a liquidation takes a cycle down when its reward is not transferred, and does not otherwise |
| `Failures.AdditionPassesTheCap` | contracts/diamond/facets/trading/PositionFacet.sol:229-284 | a reached state within the caps that an addition to a position leaves |
| `Sessions.Transact` | contracts/diamond/Diamond.sol:29-56 | one transaction on the exchange leaves exactly the state specified for it |
| `Sessions.Session` | contracts/diamond/Diamond.sol:29-56 | a history on a fresh exchange leaves exactly the state specified for it |

## Left out

- uint256 and int256 overflow, which reverts in the contracts: amounts are unbounded integers here. The uint96 positions of
  LibDiamond are the exception (`SelectorPositionsFit`).
- Token balances, of the exchange, of its insurance fund and of the users' accounts with their ledgers: whether a transfer that a call
  asks for succeeds is a parameter of the call (`funded`, `locked`, `paid`), and of each entry of a keeper's lists (`Turn.transfers`).
  Which transfers are asked for, and the amounts of the payouts, are modelled.
- The account implementation, which `createVault` requires to be set, is taken to be set.
- Roles, ownership, reentrancy guards, events, position timestamps and the per-user id lists.
- What administrators set is one value with any contents; their facets' own range checks on it are not modelled.
- The `_init` delegatecall of a cut: every script passes the zero address.
- Solidity has no unknown cut action; the revert for one is unreachable.
- Overloaded functions in `getSelectors`, which would repeat a selector: contracts are given with distinct selectors. Lower-casing of
  hexadecimal selectors is the identity on values.
- Dry runs, receipts, gas, console output, JSON files, explorer verification, and the role, collateral, market and vault steps of the
  scripts, among them the TradingAccount implementation that the v2 script deploys in its second phase.
- The read failures that `upgrade-v2-robustness.js:131-135` and `:183-192` catch: the loupe's reads do not fail.
- FundingRuns.RunKeepsPace: states what is charged; `FundingHistory.CollateralFollowsTheClock` states what the collateral pays.
- FundingHistory.CollateralFollowsTheClock: follows a position while it is open; the settlement that closes it is
  `Settlement.SettlementCharges`, and what it pays out is `Guarantees.ClosingGives`.
- The reason with which a facet turns a call down is not specified; that it does, and when, is.
- The quoter, the insurance share of fees and penalties, and the SDK.
