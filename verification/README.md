# Exponent Core, modelled and proved in Dafny

Exponent Core splits a yield-bearing SY token into PT (principal) and YT (yield), runs a market for
PT against SY, and pays rewards to holders of YT and to staked LP. This project models its
accounting and proves what the accounting keeps over whole runs.

How the files fit together:

- `Outcome`, `FixedPoint`, `Sums`: reverting results, the 10^12 fixed point, sums over positions.
- `VaultSpec` holds the vault, its positions and its instruction bodies as functions on snapshots.
  `VaultProgram` performs the same instructions statement by statement on mutable accounts; each
  method succeeds exactly when the function does, and leaves exactly its state.
- `VaultRuns` lets any number of positions act in any order under any rates and indexes.
  `VaultInvariant`, `VaultPreservation` and `VaultSafety` prove the invariant; `Solvency`,
  `VaultAccounting`, `VaultInterest`, `VaultEmissions` and `VaultStreamRuns` say what it means.
  `VaultEffects` and `VaultStreamEffects` say what each instruction moves, token by token and from both
  sides, without calling the functions it is made of, and draw the ledgers of escrow and YT from that.
  `VaultCrossing` carries the invariant over maturity, in an emergency too. `VaultShortfall`,
  `VaultStreamLimits`, `VaultLimits` and `VaultCounterexamples` say exactly where the laws stop.
- `LpSpec`, `LpProgram`, `LpRuns`, `LpConservation`: LP reward accumulators in the same four steps;
  `LpCredit`: the other half of conservation, that rewards are not lost; `LpEffects`: what each
  instruction moves, and whose stake is whose; `LpFunding`: a farm's token account against what it owes.
- `Curve`, `MarketPricing`, `Liquidity`, `MarketLedger`: the price curve over exact reals, a trade
  with the market's own roundings, liquidity shares, and the recorded against the real balances;
  `MarketRuns`: runs of the market's instructions beside the vault they strip and merge through.
- `NumberMul`, `ClaimWindow`: the split 128-bit product, and the limit on interest claims.

Conventions. A failed check, a checked operation that overflows and a panic all revert the whole
transaction; in a run such a step leaves the world unchanged. Rates and indexes are the raw values of
`Number`, natural numbers scaled by 10^12. `PreciseNumber` is not part of this model: division is
taken to truncate at the last place, so `natural / rate` floors to the true floor, while each
reciprocal in `calc_earned_sy` is truncated on its own.

That truncation matters. The vault states a solvency condition and never checks it
(`programs/exponent_core/src/state/vault.rs:109-113`). The proof gives every position a claim, its
YT times the truncated reciprocal of the index it last saw. Earning turns claim into staged SY,
stripping creates it, and no step raises it otherwise. A merge, however, redeems at the true
quotient and gives up claim at the truncated one. `Dust` is the YT outstanding plus the PT merged
before maturity, and the escrow is never short by more than `Dust` units of 10^-12 SY. The exact
condition is false for large supplies; `VaultLimits` gives the run and the exact condition on supply
and rate.

Hypotheses of the run theorems, each a guard that can be read before the step it is asked of:

- `CoveredRun`: where maturity is crossed, the claims at the present rate fit the free SY
  (`VaultCrossing.Covered`). A vault that is not in an emergency meets this by itself
  (`CalmIsCovered`). The vault forbids most steps in an emergency but not withdrawing YT, which can
  leave a low rate on record as maturity passes; then the sum decides. If it fits, everything that
  follows is solvent and PT is backed; if it misses by more than the roundings, one refresh above the
  all-time high with everybody settling leaves PT short. Between the two lies only
  `VaultShortfall.Allowance`, a few units per position.
- `CalmRun`: the special case in which no step commits past maturity in an emergency.
- `AffordableRun` (emission streams): a refresh that begins or ends in an emergency must fit, at the
  rate it reports, within what was pending and what it brings in (`VaultEmissions.PricedIn`); a stream
  is registered at index zero or while nobody holds YT or staged interest; and the run is calm. A run
  of rates that never fall (`RisingRun`) meets it by itself. Indexes may fall: only their rises are
  budgeted.
- `FairRun` (farm funding): a farm's terms change only while it owes nothing.

## Model

| member | source | states |
|---|---|---|
| Solvency.SolventOverEveryRun | programs/exponent_core/src/state/vault.rs:109-113 | after any run of any instructions by any number of positions, rates arbitrary while active, the SY set aside for PT plus treasury plus uncollected interest exceeds the escrow by at most the dust, and not at all below one unit of dust |
| VaultCrossing.SolventWhenCovered | programs/exponent_core/src/state/vault.rs:109-113 | the same for every run whose crossing of maturity meets the condition, an emergency at maturity included |
| VaultCrossing.PtBackedWhenCovered | programs/exponent_core/src/state/vault.rs:569-581 | in such a run, PT is backed by its face value up to the dust after every refreshing instruction outside an emergency |
| VaultCrossing.CalmIsCovered | programs/exponent_core/src/state/vault.rs:120-122 | a vault not in an emergency meets the condition, from the invariant alone |
| VaultCrossing.SafeRun | programs/exponent_core/src/state/yield_token_position.rs:67-92 | the potential with claims capped at the final rate survives every step after the crossing, emergency or not |
| VaultShortfall.UncoveredCrossingLosesBacking | programs/exponent_core/src/state/vault.rs:333-367 | the converse, for every vault left in an emergency: claims that miss the condition by more than the roundings have a continuation, one refresh above the all-time high and everybody settling, after which PT is short of its face value or the escrow short of what YT and treasury are owed |
| VaultShortfall.EarnDeficit | programs/exponent_core/src/state/yield_token_position.rs:154-162 | settling one position pays out all of its claim but two units' worth, scaling included |
| VaultSafety.RunKeepsInvariant | programs/exponent_core/src/state/vault.rs:333-367 | the potential over all positions (claims against free SY, before and after maturity), index order and settled robot are kept by every committed step of every calm run |
| VaultSafety.CommitKeeps | programs/exponent_core/src/instructions/vault/collect_interest.rs:115-131 | one committed instruction of any kind keeps the invariant, including collecting interest, which never recomputes the SY set aside |
| Solvency.InvariantMeansSolvent | programs/exponent_core/src/state/vault.rs:109-113 | the potential implies the stated solvency condition up to the dust, emergencies included |
| VaultLimits.ExactlyWhenReciprocalFits | programs/exponent_core/src/state/yield_token_position.rs:202-220 | for rates above one part in any divisor d of 10^12, supplies of which d times as much fits u64, and no merges yet, every reachable active vault at a supply and rate is exactly solvent if and only if the supply's face value, floored, fits its truncated reciprocal, rounded up |
| VaultLimits.FitsMeansSolvent | programs/exponent_core/src/state/vault.rs:109-113 | the direction of that equivalence that holds for every positive rate |
| VaultLimits.ExactSolvencyFails | programs/exponent_core/src/state/yield_token_position.rs:202-220 | a concrete run of six steps that leaves the escrow a million units short of the stated condition |
| VaultCounterexamples.DepressedMaturityLosesBacking | programs/exponent_core/src/state/vault.rs:333-367 | an instance of the converse: a reached vault of two positions that misses the condition, and whose settlement at rate five commits and leaves PT short |
| VaultCounterexamples.DepressedMaturityIsInsolvent | programs/exponent_core/src/state/vault.rs:333-367 | the same vault, when all PT merges first: five SY short with dust below one unit |
| Solvency.PtIsFullyBacked | programs/exponent_core/src/state/vault.rs:569-581 | after any refreshing instruction outside an emergency, before or after maturity, PT is backed by the floor of its face value; the fallback to the escrow binds by at most the dust and never below one unit of it |
| Solvency.MergePaysFaceValue | programs/exponent_core/src/instructions/vault/merge.rs:239-277 | merging m PT in any reached world pays at most m/rate and more than m/rate - 2 - m/10^12 less its share of the dust |
| Solvency.StripThenMerge | programs/exponent_core/src/instructions/vault/strip.rs:253-264 | stripping a SY and merging all the PT minted at the same rate never returns more than a, and returns more than a - 2 - 1/rate - py/10^12 while the dust is below one unit |
| VaultAccounting.AccountsAgree | programs/exponent_core/src/state/yield_token_position.rs:67-92 | after every calm run: YT equals PT supply until maturity and is never below it; staged interest sums to the vault's uncollected SY; whoever holds YT has 0 < index <= robot's index <= all-time high, and outside an emergency the robot's index is the final rate |
| VaultAccounting.GapNeverShrinks | programs/exponent_core/src/instructions/vault/merge.rs:251-277 | after maturity, over any run, total YT is constant and the PT supply never rises |
| VaultEffects.EscrowIsWhatCameInLessWhatWentOut | programs/exponent_core/src/state/vault.rs:386-398 | over any run, whatever the rates, the escrow is all the SY stripped in less all redeemed, collected as interest (fee included), and taken by the treasury for the robot's interest and for its own share |
| VaultEffects.YtIsWhatWasDepositedLessWithdrawn | programs/exponent_core/src/instructions/vault/withdraw_yt.rs:181-199 | over any run, a user's YT is what they deposited less what they withdrew; nothing anybody else does touches it |
| VaultEffects.StripEffect | programs/exponent_core/src/instructions/vault/strip.rs:234-267 | a committed strip was made while active and at the all-time high; it puts the SY in the escrow, mints its value rounded down as PT within the cap and as YT of the robot, and settles the robot fairly |
| VaultEffects.MergeEffect | programs/exponent_core/src/instructions/vault/merge.rs:239-277 | a committed merge takes what it hands out off the escrow, burns the PT, and burns the YT exactly while active |
| VaultEffects.DepositYtEffect | programs/exponent_core/src/instructions/vault/deposit_yt.rs:179-210 | exactly the amount moves from the robot to the user, never in an emergency; both are settled on what they held before; everybody else stays |
| VaultEffects.WithdrawYtEffect | programs/exponent_core/src/instructions/vault/withdraw_yt.rs:181-199 | exactly the amount moves from the user to the robot, in an emergency or not; everybody else stays |
| VaultEffects.StageYieldEffect | programs/exponent_core/src/instructions/vault/stage_yield.rs:107-130 | robot and user are settled, no YT moves, and never in an emergency |
| VaultEffects.CollectInterestEffect | programs/exponent_core/src/instructions/vault/collect_interest.rs:115-131 | escrow, uncollected total and the user's staged interest, once settled, fall by exactly the amount; owner's part and fee add up to it, the fee rounded up; nothing else changes |
| VaultEffects.EarnSettles | programs/exponent_core/src/state/yield_token_position.rs:67-92 | interest credited is the claim given up to within one unit at the final rate, and at a higher rate that claim scaled, bounded from both sides; in an emergency nothing moves |
| VaultEffects.TakeTreasurySyEffect | programs/exponent_core/src/instructions/vault/admin/treasury/collect_treasury_interest.rs:95-124 | committed exactly when share and escrow suffice, both fall by the amount and nothing else changes |
| VaultEffects.TakeRobotSyEffect | programs/exponent_core/src/instructions/vault/admin/treasury/collect_treasury_interest.rs:95-124 | the robot's staged interest, the uncollected total and the escrow fall by the amount and nothing else changes |
| VaultEffects.CollectEmissionEffect | programs/exponent_core/src/instructions/vault/collect_emission.rs:97-115 | committed exactly when so much of the stream is staged, which falls by the amount; nothing else changes |
| VaultEffects.TakeTreasuryEmissionEffect | programs/exponent_core/src/instructions/vault/admin/treasury/collect_treasury_emission.rs:98-127 | committed exactly when so much has been swept, which falls by the amount; nothing else changes |
| VaultEffects.RegisterEmissionEffect | programs/exponent_core/src/instructions/vault/admin/add_emission.rs:66-91 | a stream starts at the index reported for it with nothing swept, after those there are |
| VaultEffects.ChangeSettingsEffect | programs/exponent_core/src/instructions/vault/admin/modify_vault_setting.rs:85-98 | committed exactly when the fee is at most the whole; fee and cap change and nothing else |
| VaultStreamEffects.StripStreams | programs/exponent_core/src/state/vault.rs:333-367 | a strip refreshes every stream (index recorded, final only while active, the rise on the escrow swept after maturity, both bounds), credits the robot on the SY it stood for, and leaves for PT the lesser of free SY and floored face value |
| VaultStreamEffects.MergeStreams | programs/exponent_core/src/state/vault.rs:333-367 | the same for a merge |
| VaultStreamEffects.DepositYtStreams | programs/exponent_core/src/state/yield_token_position.rs:101-138 | the same for a YT deposit, whose user is also credited, on the SY they stood for before any YT moved, both bounds |
| VaultStreamEffects.WithdrawYtStreams | programs/exponent_core/src/state/yield_token_position.rs:101-138 | the same for a YT withdrawal, dips included |
| VaultStreamEffects.StageYieldStreams | programs/exponent_core/src/state/yield_token_position.rs:101-138 | the same for staging |
| VaultStreamEffects.CollectInterestStreams | programs/exponent_core/src/instructions/vault/collect_interest.rs:115-131 | collecting interest credits the user's streams on the interest staged before it is paid |
| VaultAccounting.CollectingNeverUnderflows | programs/exponent_core/src/instructions/vault/collect_interest.rs:179-203 | collecting at most what is staged never underflows the position's or the vault's counters, nor the escrow below one unit of dust; all three fall by exactly the amount, owner's part and fee add up to it, and the fee is the rate rounded up |
| VaultAccounting.FeeFits | programs/exponent_core/src/instructions/vault/collect_interest.rs:196-203 | the fee is the ceiling of amount times rate, never above the amount, so the split succeeds and loses nothing |
| VaultAccounting.WithdrawNeverRaisesClaims | programs/exponent_core/src/instructions/vault/withdraw_yt.rs:181-199 | withdrawing YT, in an emergency or not, never raises the sum of claims |
| VaultPreservation.MoveYtKeeps | programs/exponent_core/src/instructions/vault/deposit_yt.rs:197-207 | moving YT to a position with an index at least as late keeps soundness and never raises the claims |
| VaultInterest.InterestIsPathIndependent | programs/exponent_core/src/state/yield_token_position.rs:67-92 | for a position with fixed YT while the vault is active, any refreshes and settlements credit at most what one settlement would, and fall short by less than one unit per settlement |
| VaultInterest.RecoveryCreditsNothing | programs/exponent_core/src/state/vault.rs:346-354 | any fall and recovery that stays at or below the all-time high credits nothing to a position that has seen it |
| VaultInterest.SweepsKeepValue | programs/exponent_core/src/state/vault.rs:446-455 | over any climb of rates after maturity, the value of the SY outside treasury and uncollected never falls, and grows by less than one unit's value per refresh |
| VaultStreamRuns.EmissionsConserved | programs/exponent_core/src/state/yield_token_position.rs:101-129 | over any rising run, all that positions have staged of a stream, the treasury has swept and anyone was ever paid stays within the index rises times the escrow (and dust) at each refresh |
| VaultStreamRuns.EmissionsConservedThroughDips | programs/exponent_core/src/state/yield_token_position.rs:101-129 | the same for every rate, dips included, as long as each refresh that touches an emergency fits at its rate |
| VaultStreamLimits.DipConservesExactlyWhenOwedFits | programs/exponent_core/src/state/yield_token_position.rs:101-118 | in any vault, a dip with everybody settling in it credits exactly the sum each is owed at the depressed rate, and keeps the stream within its budget if and only if that sum, read before the dip, fits |
| VaultStreamLimits.DipFitsExactlyWhenAffordable | programs/exponent_core/src/instructions/vault/withdraw_yt.rs:181-199 | with everybody caught up and a rise of whole tokens per SY, the dip credits within what the refresh brings in if and only if it meets the guard of the run theorem |
| VaultStreamLimits.DipIsAffordableWhenBalancesFit | programs/exponent_core/src/state/yield_token_position.rs:101-104 | with everybody caught up, that guard holds if and only if the SY that positions stand for at the depressed rate fits the escrow and dust |
| VaultStreamLimits.ExactlyWithoutHistory | programs/exponent_core/src/instructions/vault/admin/add_emission.rs:66-91 | conservation over all rising runs, with streams registered at index x allowed while YT is held, holds if and only if x is zero |
| VaultStreamLimits.LateRun | programs/exponent_core/src/state/vault.rs:369-384 | for every index and supply whose credit fits u64, the run that stages the index times the supply for a stream that brought in nothing |
| VaultEmissions.SettlingKeepsShare | programs/exponent_core/src/state/yield_token_position.rs:67-118 | settling interest never raises a position's share (staged plus claim) and the share covers the balance that emissions are earned on |
| VaultCounterexamples.HistoryIsCreditedTwice | programs/exponent_core/src/instructions/vault/admin/add_emission.rs:66-91 | an instance of LateRun: 500 tokens staged although the index never moved |
| VaultCounterexamples.DipOverCreditsEmissions | programs/exponent_core/src/instructions/vault/withdraw_yt.rs:181-199 | a withdrawal during a dip credits 170 tokens for an index rise of one on an escrow of 110 SY |
| VaultCounterexamples.DepressedDipWasUnaffordable | programs/exponent_core/src/instructions/vault/withdraw_yt.rs:181-199 | that dip did not meet the guard |
| VaultProgram.YieldTokenPosition.EarnAllWithTracking | programs/exponent_core/src/state/yield_token_position.rs:120-138 | trackers added, interest and every stream settled in place; succeeds exactly when VaultSpec.Earn does, with its state |
| VaultProgram.YieldTokenPosition.EarnSyInterest | programs/exponent_core/src/state/yield_token_position.rs:67-92 | interest staged, vault's uncollected raised, index moved, nothing at all in an emergency |
| VaultProgram.YieldTokenPosition.EarnEmissions | programs/exponent_core/src/state/yield_token_position.rs:101-118 | the loop over streams credits each tracker on the position's SY balance, or reverts if one cannot be credited |
| VaultProgram.VaultAccount.UpdateFromSyState | programs/exponent_core/src/state/vault.rs:333-367 | sweeps first, then rates, indexes and the SY for PT, in the source's order |
| VaultProgram.VaultAccount.SweepEmissionsToTreasury | programs/exponent_core/src/state/vault.rs:281-297 | all surpluses are computed before any treasury balance moves, and it comes to one pass over the streams |
| VaultProgram.VaultAccount.HandleStrip | programs/exponent_core/src/instructions/vault/strip.rs:234-267 | refresh, emergency check, escrow, supply, robot's YT, SY for PT; succeeds exactly when VaultSpec.HandleStrip does, with its state |
| VaultProgram.VaultAccount.HandleMerge | programs/exponent_core/src/instructions/vault/merge.rs:239-277 | likewise; YT leaves the robot only while active |
| VaultProgram.VaultAccount.HandleDepositYt | programs/exponent_core/src/instructions/vault/deposit_yt.rs:179-210 | likewise; both positions settled before YT moves |
| VaultProgram.VaultAccount.HandleWithdrawYt | programs/exponent_core/src/instructions/vault/withdraw_yt.rs:181-199 | likewise; no emergency check |
| VaultProgram.VaultAccount.HandleStageYield | programs/exponent_core/src/instructions/vault/stage_yield.rs:107-130 | likewise; settles one user |
| VaultProgram.VaultAccount.CollectInterest | programs/exponent_core/src/instructions/vault/collect_interest.rs:95-131 | amount checked against what was staged before earning, then escrow, position and vault lowered by it |
| LpConservation.FarmRewardsConserved | programs/exponent_core/src/state/market_two.rs:884-945 | through any interleaving of deposits, withdrawals, claims, new positions, new and changed farms, what all positions have staged of a farm plus all that was claimed never exceeds the tokens emitted |
| LpConservation.MarketEmissionsCovered | programs/exponent_core/src/instructions/market_two/market_collect_emission.rs:64-96 | in every reached world staked balances add up to the escrow, all staged rewards of a stream are within the market's record, and so collecting never underflows |
| LpConservation.FarmEmissionDependsOnEndPoints | programs/exponent_core/src/state/market_two.rs:905-916 | over any run that leaves a farm's terms alone it emits its rate times the seconds between first and last look, none after its expiry |
| LpFunding.FarmPaysEveryClaim | programs/exponent_core/src/instructions/market_two/admin/add_farm.rs:85-109 | over any run that changes a farm's terms only while it owes nothing, its token account covers everything staged, everything pending and the seconds to come, so every staged reward can be paid |
| LpFunding.ChangeCoversOnlyIfNothingIsOwed | programs/exponent_core/src/instructions/market_two/admin/modify_farm.rs:74-119 | changing a farm's terms leaves an account that covers what the farm owes if and only if it owed nothing |
| LpSpec.EmissionIsScheduleIndependent | programs/exponent_core/src/state/market_two.rs:905-916 | the seconds credited over any nondecreasing schedule are min(expiry, last) - min(expiry, first) |
| LpCredit.RewardsAreNotLost | programs/exponent_core/src/state/personal_yield_tracker.rs:33-79 | the lower half: through any interleaving, staged plus paid plus pending of a farm or market emission is at least all that came in while LP was staked, less one token per settlement and less than one last place per staked LP at each share-out |
| LpCredit.CreditIsWhole | programs/exponent_core/src/state/personal_yield_tracker.rs:44-54 | settling a tracker credits what was pending less a remainder below one token |
| LpEffects.StakeIsWhatWasDepositedLessWithdrawn | programs/exponent_core/src/instructions/market_two/withdraw_lp.rs:87-117 | over any run a user's staked LP is what they deposited less what they withdrew |
| LpEffects.DepositEffect | programs/exponent_core/src/instructions/market_two/deposit_lp.rs:81-111 | every index rises by its share of what came in on the LP staked before (both bounds), the user is settled at those indexes on the old balance (both bounds), then balance and escrow rise by exactly the amount; everybody else stays |
| LpEffects.WithdrawEffect | programs/exponent_core/src/instructions/market_two/withdraw_lp.rs:87-117 | the same with balance and escrow falling by the amount |
| LpEffects.WithdrawUndoesDeposit | programs/exponent_core/src/instructions/market_two/withdraw_lp.rs:87-117 | in the second of a deposit, withdrawing the same amount commits and leaves the world as if the position had only been settled |
| LpEffects.FirstDepositCommits | programs/exponent_core/src/instructions/market_two/deposit_lp.rs:81-111 | a new position deposits at once exactly when the escrow can hold it |
| LpEffects.CollectEffect | programs/exponent_core/src/instructions/market_two/market_collect_emission.rs:64-96 | committed exactly when the record covers what is staged, which is paid in full and taken off the record; nothing else changes |
| LpEffects.ClaimEffect | programs/exponent_core/src/instructions/market_two/claim_farm_emissions.rs:59-75 | committed exactly up to what is staged, which falls by the amount; nothing else changes |
| LpEffects.NewFarmEffect | programs/exponent_core/src/instructions/market_two/admin/add_farm.rs:85-109 | farms are brought up to date, then one is added at index zero for a mint that none of them pays |
| LpEffects.ChangeFarmEffect | programs/exponent_core/src/instructions/market_two/admin/modify_farm.rs:74-119 | farms are brought up to date under the old terms before the new ones start |
| LpConservation.StagingConserves | programs/exponent_core/src/state/personal_yield_tracker.rs:33-79 | the upper half: settling, trackers created late at index zero included, keeps staged plus paid plus pending within the budget (LpCredit.CreditIsWhole is the lower) |
| LpProgram.Trackers.EnsureTrackersAndEarnAll | programs/exponent_core/src/state/personal_yield_tracker.rs:33-79 | the two loops, in place, come to the specification or revert with it |
| LpProgram.LpPositionAccount.StageAll | programs/exponent_core/src/state/lp_position.rs:77-87 | both kinds of tracker settled at the market's indexes |
| LpProgram.LpPositionAccount.NewFromMarket | programs/exponent_core/src/state/lp_position.rs:41-75 | a new position starts at every current index with nothing staged |
| LpProgram.LpMarketAccount.UpdateEmissionsFromPositionState | programs/exponent_core/src/state/market_two.rs:322-339 | each stream's index rises by the newly claimable share, and the record follows |
| LpProgram.LpMarketAccount.IncreaseShareIndexes | programs/exponent_core/src/state/market_two.rs:884-903 | each farm's index rises for the seconds since the last look |
| LpProgram.LpMarketAccount.DepositLp | programs/exponent_core/src/instructions/market_two/deposit_lp.rs:81-111 | indexes, position, then escrow and balance |
| LpProgram.LpMarketAccount.WithdrawLp | programs/exponent_core/src/instructions/market_two/withdraw_lp.rs:87-117 | indexes, position, then balance and escrow |
| LpProgram.LpMarketAccount.CollectEmission | programs/exponent_core/src/instructions/market_two/market_collect_emission.rs:64-96 | everything staged is paid, zeroed and taken off the record |
| MarketPricing.BuyThenSellNeverProfits | programs/exponent_core/src/state/market_two.rs:440-531 | with real-valued ln and exp and the market's own integer roundings, buying any PT amount and selling it back in the same second never gains SY, fee kept in the pool, any treasury share, flash or not |
| MarketPricing.SellThenBuyNeverProfits | programs/exponent_core/src/state/market_two.rs:440-531 | selling and buying back never gains SY either; the treasury's share is at most the whole fee, the bound that market creation (`state/market_two.rs:285-286`) and the settings instruction both enforce |
| MarketPricing.TradeKeepsAnchor | libraries/time_curve/src/math.rs:214-228 | the anchor found after a trade from the new implied rate is the anchor the trade was priced with, or every later trade reverts |
| Curve.AnchorRecoversRate | libraries/time_curve/src/math.rs:101-121 | storing the implied rate and finding the anchor from it are inverse |
| Curve.QuoteIsAgainstTheTrader | libraries/time_curve/src/math.rs:259-303 | PT is always worth less than the asset, the fee is never negative, and it goes against the trader on either side, flash swap or not |
| Curve.TradeIsPricedFairly | libraries/time_curve/src/math.rs:259-303 | the quote's rate solves the curve's equation at the balances the trade leaves, every PT trades at it, and the fee is feeRate - 1 of the worth for a seller, 1 - 1/feeRate of it for a buyer, and feeRate - 1 of face less worth in a flash swap of either side |
| Curve.QuotedExactlyWhen | libraries/time_curve/src/math.rs:234-279 | a trade is quoted if and only if the pool has the PT and keeps asset against it, the fee rate is not below one, and the curve prices PT below the asset where the trade leaves it |
| Curve.FeeIsTheRate | libraries/time_curve/src/math.rs:233-243 | selling, worth and fee together are the worth times the fee rate; buying, what is left after the fee times the fee rate is the worth |
| Curve.TermsMean | libraries/time_curve/src/math.rs:23-98 | steepness times years left is its root, and the logarithm of the fee rate is its root times years left |
| Curve.RateSolvesCurve | libraries/time_curve/src/math.rs:6-20 | the exchange rate is the only rate at which exp((rate - anchor) * steepness) times the asset is the PT |
| Curve.AnchorPassesThroughRate | libraries/time_curve/src/math.rs:214-228 | the anchor found puts the last implied rate, compounded, on the curve at the present balances |
| Curve.ImpliedRateIsOnCurve | libraries/time_curve/src/math.rs:101-121 | the implied rate, compounded over the time left, is the curve's rate at the balances |
| Curve.ImpliedRateExists | libraries/time_curve/src/math.rs:101-114 | it exists if and only if both sides are in the pool and the curve's rate there is positive |
| Curve.RateRises | libraries/time_curve/src/math.rs:14-20 | the exchange rate rises with the proportion of PT |
| MarketPricing.PaidIsAtLeastReceived | programs/exponent_core/src/state/market_two.rs:623-677 | being paid no more asset than was paid in never pays more SY, through both roundings |
| MarketPricing.TradeMovesItsQuote | programs/exponent_core/src/state/market_two.rs:440-531 | a priced trade in full: anchored at the last implied rate on the asset rounded down, quoted fairly on the asset rounded against the trader, SY and fee within one unit of the quote at the SY rate and rounded to the pool, treasury share floored, balances moved by just those, and a new implied rate on the same curve |
| MarketPricing.SyIsFair | programs/exponent_core/src/state/market_two.rs:623-677 | a payment is of the asset rounded up and less than one SY above its value, a receipt of the asset rounded down and less than one SY below it |
| MarketPricing.PricedTradeFitsLedger | programs/exponent_core/src/state/market_two.rs:482-512 | a priced trade with opposite signs is exactly a trade of the ledger, and the priced balances move as the ledger's record does |
| MarketPricing.MarketFinancials.TradePt | programs/exponent_core/src/state/market_two.rs:440-531 | the record updated in place succeeds exactly when PriceTrade does, with its pool |
| MarketPricing.MarketFinancials.AddLiquidity | programs/exponent_core/src/state/market_two.rs:565-590 | the balances rise by what the formula takes |
| MarketPricing.MarketFinancials.RmLiquidity | programs/exponent_core/src/state/market_two.rs:592-611 | the balances fall by the floor of each proportional share, and only an amount beyond the supply is refused |
| Liquidity.AddIsFair | libraries/time_curve/src/math.rs:131-171 | a deposit mints the smaller integer share; the side that binds, by cross products, is taken in full, the other is charged its proportional share to within one token either way and never beyond the intent, and each token taken covers the share minted |
| Liquidity.RemoveIsFair | libraries/time_curve/src/math.rs:180-199 | a withdrawal pays the floor of each share |
| Liquidity.HoldersAreNeverDiluted | libraries/time_curve/src/math.rs:131-199 | over any run of deposits and withdrawals, the last of which may empty the pool, the SY and the PT behind one LP never fall |
| Liquidity.AddThenRemoveNeverProfits | libraries/time_curve/src/math.rs:131-199 | adding and then burning the LP just minted returns at most what was put in, of each token |
| Liquidity.RemoveThenAddNeverProfits | libraries/time_curve/src/math.rs:131-199 | withdrawing and then depositing the proceeds mints at most the LP burned |
| MarketLedger.RecordMatchesHoldings | programs/exponent_core/src/state/market_two.rs:482-512 | over any run of trades, flash swaps and liquidity changes with any curve output, recorded PT is the PT held, and the SY held is the SY recorded plus all leftovers of YT purchases |
| MarketLedger.SyIsConserved | programs/exponent_core/src/instructions/market_two/trade_pt.rs:267-317 | over any such run the pool's and fee account's SY changes by exactly what traders and providers put in or took out |
| MarketRuns.TokensAreConserved | programs/exponent_core/src/instructions/market_two/buy_yt.rs:183-307 | over any run of trades, flash swaps through the vault's own strip and merge, liquidity changes, strips and merges by any number of traders: no SY is created or lost between pool, fee account, wallets and vault, all PT and LP issued are held, and all YT held is what the vault's robot stands for |
| MarketRuns.PoolHoldsWhatItRecords | programs/exponent_core/src/instructions/market_two/sell_yt.rs:201-266 | over any such run of instructions, reverted ones included, recorded PT is the PT held and the SY held is the SY recorded plus leftovers that only grow |
| MarketLedger.MarketAccount.TradePt | programs/exponent_core/src/instructions/market_two/trade_pt.rs:164-317 | succeeds exactly when record, tokens, signs and slippage allow; then record and tokens move alike and the trader's wallet by the trade |
| MarketLedger.MarketAccount.BuyYt | programs/exponent_core/src/instructions/market_two/buy_yt.rs:183-307 | succeeds exactly when the trader puts in some SY of their own and the loan, the strip and the sale of all the PT go through; repaying never fails; costs the trader exactly `sy_in`, leaves their PT unchanged, gives the YT minted, clears the flash flag |
| MarketLedger.MarketAccount.SellYt | programs/exponent_core/src/instructions/market_two/sell_yt.rs:201-266 | succeeds exactly when the loan, the merge and the purchase within the minimum do; the trader's PT is unchanged and the pool ends as after a plain purchase of PT |
| MarketLedger.MarketAccount.DepositLiquidity | programs/exponent_core/src/instructions/market_two/deposit_liquidity.rs:155-193 | while the market is active, exactly when caps, minimum and wallet allow, record and holdings rise alike and LP is minted |
| MarketLedger.MarketAccount.WithdrawLiquidity | programs/exponent_core/src/instructions/market_two/withdraw_liquidity.rs:151-184 | exactly when supply, minimums and holdings allow, record and holdings fall alike and LP is burned |
| NumberMul.FastMulFloorIsExact | libraries/precise_number/src/lib.rs:217-256 | the split product is floor(a*b/10^24) and succeeds if and only if both raw values fit u128 and that floor fits u64 |
| NumberMul.RawU128 | libraries/precise_number/src/lib.rs:149-160 | succeeds exactly when the four words spell a value below 2^128, and gives it |
| NumberMul.FromRawU128 | libraries/precise_number/src/lib.rs:162-166 | reading back what was stored gives the same value |
| ClaimWindow.AtMostTwoWindows | programs/exponent_core/src/state/vault.rs:465-485 | with fixed settings, claims accepted in any interval no longer than the window total at most twice the maximum |
| ClaimWindow.TwoWindowsAreReached | programs/exponent_core/src/state/vault.rs:465-485 | two claims one second apart reach that bound |
| ClaimWindow.TotalIsWhatTheWindowAccepted | programs/exponent_core/src/state/vault.rs:465-485 | over any claims in order, the window's total is exactly what was accepted since the window began (with what a window already open held) and within the maximum |
| ClaimWindow.ClaimIsCounted | programs/exponent_core/src/state/vault.rs:465-485 | a claim is accepted if and only if it fits its window together with what that holds, and is added to it |
| ClaimWindow.WindowsDoNotOverlap | programs/exponent_core/src/state/vault.rs:467-472 | a later window begins after the earlier one has run out |
| ClaimWindow.ClaimLimits.VerifyClaimLimits | programs/exponent_core/src/state/vault.rs:465-485 | the window updated in place accepts exactly what the specification accepts |

## Left out

- Solvency.SolventOverEveryRun: exact below one unit of dust only, because the exact condition is false beyond it (VaultLimits.ExactSolvencyFails); VaultLimits.ExactlyWhenReciprocalFits gives the exact condition before any merge. It asks for calm runs; VaultCrossing.SolventWhenCovered does not.
- VaultShortfall.UncoveredCrossingLosesBacking: supposes that the steps of the continuation commit; a stream or a supply so large that someone cannot be settled within u64 stops it. Claims that miss the condition by less than the roundings are decided neither way.
- VaultLimits.ExactlyWhenReciprocalFits: the supply and its cost must fit the account's fields, so that the run that breaks the condition can be played; raw rate 1 has no earlier rate to start from. There only VaultLimits.FitsMeansSolvent is proved.
- VaultStreamRuns.EmissionsConserved: for rates that never fall; VaultStreamRuns.EmissionsConservedThroughDips has no such condition. The escrow at each refresh is counted with the dust added.
- VaultStreamRuns.EmissionsConservedThroughDips: asks for each refresh that touches an emergency to fit; the converse is proved for one dip with everybody settling in it, not over whole runs in which some settle in the dip and some after it.
- VaultStreamLimits.ExactlyWithoutHistory: for indexes whose credit to a single unit of SY fits u64; beyond that nobody whose YT stands for any SY can be settled.
- VaultInterest.InterestIsPathIndependent: for an active vault, as the claim is; after maturity settled interest is scaled to the current rate.
- MarketPricing.MarketFinancials.TradePt: the time left must not be zero (at the very second of expiry the f64 exchange rate is one and the source's assertion refuses the trade), the scalar root and the SY rate must be positive, and an implied rate that f64 would store as NaN or infinity is stored as undefined, on which every later trade reverts.
- Liquidity.AddIsFair: reserves and LP supply must be positive; what IEEE division by zero does to an empty pool is not modelled. The same holds of the other liquidity members.
- MarketLedger.MarketAccount.BuyYt: the amounts minted and merged by the vault in the two flash swaps are parameters, as are the curve's answers; MarketRuns takes them from VaultSpec. SPL balances are unbounded naturals.
- Rounding and overflow of f64, and the bodies of `ln` and `exp`: any increasing `ln` with `exp` as its inverse.
- Overflow of the 256-bit intermediates inside `PreciseNumber`; the library is not part of this model.
- Status flags, minimum operation sizes and the claim window in the run theorems: each can only refuse a step, and the theorems hold of every run of the steps that remain. The window itself is in ClaimWindow.
- Removing a vault or market emission stream, lookup tables, metadata, reallocation and the market's creation.
- The fee split when vault emissions are collected: it divides an amount already taken off the position, or refuses.
- LpFunding.FarmPaysEveryClaim: a change of terms to an expiry already past is taken as refused, because the surplus it would pay out exceeds the account; i64 overflow of the tokens needed is not modelled.
- Net balance limits on liquidity, whose percentages are f64 casts.
- Cross-program calls, accounts, signer seeds, events and SPL transfers beyond their effect on balances; the wrapper instructions, which only compose modelled steps.
- The mock SY program: refreshes report any rate and any indexes.
- `dec_num`, the bump allocator, `exponent_admin` lists and account sizes: easy members only.
