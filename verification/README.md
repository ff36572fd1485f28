# Starflet: vault, swap, tax and registry, modelled and proved in Dafny

This project models four parts of the starflet contracts and proves what they keep, step by step
and over whole runs:

- the **planet vault** (`packages/planet`): shares of a vault priced in 18-digit fixed point, where
  every division rounds down; bond, unbond, settlement of gains and losses, commission and claims;
- the **swap planet** (`contracts/swap-arbitrage`): a vault kept in aUST whose Swap call redeems,
  prepares, routes, halves and retries, deposits and settles through a chain of replies;
- the **tax** on native payments (`packages/terraswap/src/asset.rs`);
- the **registry** (`contracts/starflet`): a trial bond and unbond decides on admission, and the
  stored planets are listed in pages.

A CosmWasm call, with all its submessages and replies, commits or is rolled back. Each contract is
a class whose methods are the handlers and update the stored items in place; a host class stands
for the chain, carries out what a handler answers and rolls back a failed call. `Deliver` of each
host is proved to make exactly the transition of a function `Step`, and the theorems over runs are
about `Run`, which folds `Step` over any list of calls. A handler may leave its own storage half
changed when it fails (a claim on a CW20 planet does, and so does every rejected AddPlanet); only
the roll-back makes the call atomic, and that is in the model.

| file | contents |
|---|---|
| `Wrappers.dfy`, `FixedPoint.dfy` | results of a call; raw decimals and their floors |
| `Assets.dfy` | assets, `compute_tax`, `deduct_tax`, the tax the chain charges |
| `Ledger.dfy` | what each handler does to VAULTS, COMMISSION and the supply; share rate; round trips |
| `Shares.dfy` | holdings, quotes, aggregate solvency, draining |
| `PlanetRuns.dfy` | `PlanetWorld`: a planet with holders and real balance, as a state machine; `PlanetRuns`: theorems over runs |
| `Calls.dfy` | what each call on a planet does: when it commits, whose tokens move, what is paid |
| `Widths.dfy` | the 128-bit and 256-bit integers of the code |
| `Leaving.dfy` | which holders can be paid when they leave one after the other |
| `PlanetContract.dfy` | the class `Planet` and its host |
| `Routes.dfy`, `Retry.dfy` | route strings; the halving retry loop |
| `SwapRuns.dfy`, `SwapArbitrage.dfy` | the swap planet as a state machine, its theorems, its class and host |
| `Paging.dfy`, `Registry.dfy` | byte-ordered listing in pages; the registry, its theorems, its class |
| `Admission.dfy` | the registry's trial run against the vault |

In short, with N = VAULTS - COMMISSION, supply S and rate r (one = 10^18):

- N covers S tokens at the old rate after every committed call, so the rounded rate never falls,
  except when the last token of a planet above par is unbonded and the rate is reset to one.
- Bonding and leaving at once never pays more than was put in, for every live ledger, and costs at
  most (r - 1) rounded up to whole units.
- In the books all holders can leave in any order, none with less than the quote from before, and less
  than S + n units raw stay.
- For real they can while the balance covers N. In reachable states that is so exactly when it covers
  VAULTS, and both exactly when no more has been claimed since the last settlement than payments have
  left behind and others have sent in (`NetIsCoveredExactlyWhen`); when S + n units raw are missing,
  somebody cannot leave (`ClaimsDecideWhoLeaves`).
- VAULTS is exactly the real balance plus what was claimed since the last settlement, less what payments
  have left behind and others have sent in since, for every asset and any tax (`BooksAreExact`). A
  payment leaves at most two units behind at tax rates up to one (`DustIsSmall`).
- A bonder's principal is safe over any later run, up to (r - 1) rounded up (`PrincipalIsSafe`), and no
  sequence of trades that does not empty the planet on the way takes out more than it puts in and the
  tokens it uses up were worth, up to S raw units (`TradersTakeNoMore`).

Findings, kept as the code has them:

- `try_claim` pays commission without lowering VAULTS, so the real balance can fall below VAULTS
  (`BalanceCanFallShort`); `ClaimLeavesVaultsBehind` says exactly when, under any tax, and what that
  does to the next execute. A claim also raises what the tokens are quoted at while it pays coins out:
  after one gain and one claim the only holder of a planet can be unable to leave
  (`ClaimCanTrapTheHolder`). `AllLeaveExactlyWhen` is the exact condition for any list of leavers.
- `try_unbond` of a CW20 planet transfers the number of tokens, not their worth;
  `TokenPayoutIsShares` says exactly when the two agree, `TokenHolderIsPaidShort` is a run in which a
  holder gets half.
- Nothing bounds `commission_rate`. A bound of one is exactly what is needed (`CommissionRateBound`)
  and is the one assumption on callers in the theorems over runs.
- In the trial of AddPlanet tax is charged on top of the coin, but the verdict allows for the tax
  contained in it. When the two differ by more than ten no planet with holders can be admitted
  (`TaxCanFailEveryPlanet`, `HighTaxAdmitsNobody`). `TaxIsTooMuchExactlyWhen` says when they do: at a rate
  of 0.4 percent or more, exactly when the cap exceeds the contained tax by more than ten
  (`RateDecidesTax`). A planet without holders in which a unit or more was left
  behind is rejected too, because the trial returns too much (`EmptyPlanetIsRejected` is a run that ends
  there). Which share rates rounding alone can fail in a reachable planet is decided by
  `RateAlwaysPassesExactlyWhen`: none up to ten.
- A route with `native_swap` as its first leg offers its coin undeducted. The first attempt, which offers
  everything, cannot be paid then if it is taxed; a later one can, and shrinks the deposit balance
  by the tax (`UnsafeAttemptShrinks`). `SwapNeverShrinksExactlyWhen` is the exact condition for the whole
  loop of attempts, and `SwapNeverShrinksInShort` what it comes to at tax rates up to one. Anything
  after a second separator of a route string is ignored, and a path may therefore be longer than the
  two legs it stands for (`AcceptedPaths`).
- A bond of the swap planet deposits the amount it names, whatever coins came with it; the vault only
  counts the aUST that came in, and `BondKeepsCashExactlyWhen` says when the deposit balance is kept.
- The error texts of `store_planet` say "less than" 80 and 200; the code accepts both lengths.

Assumptions on contracts outside the repository: the vault token mints, burns and moves what it is
told to; a redeem, a deposit and a route either fail without a trace or have the effect given as an
input of the call; the router aborts when it cannot return `minimum_receive`; the chain charges its
tax on coins that a contract sends, never on uluna, rounding up or down (both are covered); raw
decimals of cosmwasm-bignumber multiply and divide with one final floor and abort on underflow and
on division by zero. The funds of a bond of the planet package arrive with it; other units of the
asset may arrive at any time, and count as sent in by others. cosmwasm-bignumber is not part of this
model.

## Model

| member | source | states |
|---|---|---|
| FixedPoint.DecDivCancels | packages/planet/src/contract.rs:155 | the decimal quotient of the share rate is the plain floor of N / S, without the scale |
| Assets.DeductTaxIsGreatest | packages/terraswap/src/asset.rs:32-64 | an amount n can be sent out of a gross amount, tax included, if and only if n is at most the deducted amount |
| Assets.DeductTaxUnderTruncation | packages/terraswap/src/asset.rs:32-64 | against a chain that rounds its tax down the deducted amount is still affordable and at most one unit short |
| Assets.DeductedPaymentFits | packages/terraswap/src/asset.rs:54-64 | the prepared payment and its tax always fit in what was set aside |
| Assets.DeductTaxMonotone | packages/terraswap/src/asset.rs:54-64 | a larger gross amount never pays less |
| VaultLedger.RateAtLeast | packages/planet/src/contract.rs:143-156 | a ledger has at least a rate if and only if its net covers all tokens at that rate |
| VaultLedger.BackedIsRateOne | packages/planet/src/contract.rs:143-156 | every token is backed by a whole unit if and only if the rate is at least one |
| VaultLedger.BondKeepsRate | packages/planet/src/contract.rs:158-184 | a bond fails exactly at rate zero and otherwise never lowers the rate, although it mints at a rounded rate |
| VaultLedger.UnbondKeepsRate | packages/planet/src/contract.rs:186-231 | an unbond of existing tokens never underflows VAULTS and never lowers the rate of those who stay |
| VaultLedger.SettleKeepsNet | packages/planet/src/contract.rs:309-347 | with a commission rate of at most one a settlement never lowers the holders' net, and a loss leaves it as it was |
| VaultLedger.CommissionRateBound | packages/planet/src/contract.rs:323-326 | the commission rate is at most one if and only if every gain leaves the holders no worse off |
| VaultLedger.RoundTrip | packages/planet/src/contract.rs:158-231 | bonding into a live ledger and unbonding the mint pays at most the bond and at least the bond less (r - 1) rounded up |
| VaultLedger.RoundTripFromEmpty | packages/planet/src/contract.rs:145-147 | the first bonder of an empty ledger gets at least the bond back, and exactly the bond if and only if amount * floor(N / amount) is below one unit |
| VaultLedger.MintIsGreatest | packages/planet/src/contract.rs:158-184 | a bond mints the greatest number of tokens that the amount pays for at the rate, a token for each unit when there are none |
| VaultLedger.WorthIsGreatest | packages/planet/src/contract.rs:186-201 | an unbond is worth the greatest number of whole units that its tokens are worth at the rate |
| VaultLedger.CommissionIsGreatest | packages/planet/src/contract.rs:319-326 | a gain accrues the greatest raw amount within its product with the commission rate, at any rate |
| VaultLedger.ClaimIsGreatest | packages/planet/src/contract.rs:265-266 | a claim pays the greatest number of whole units in COMMISSION and leaves none of it |
| Shares.QuotesBounds | packages/planet/src/contract.rs:421-441 | the quotes of any holders stay below their tokens times the rate, by less than a unit each |
| Shares.Solvency | packages/planet/src/contract.rs:421-441 | all quotes plus the commission are covered by VAULTS, which exceeds them by less than S + n units raw |
| Shares.DrainInAnyOrder | packages/planet/src/contract.rs:186-201 | unbonding everybody succeeds in any order, pays each at least the initial quote and leaves less than S + n units raw |
| Shares.HoldersDrainInAnyOrder | packages/planet/src/contract.rs:186-201 | the same for the holders of the vault token and any order of leaving, with the same bound on what stays |
| PlanetWorld.StepShares | packages/planet/src/contract.rs:171-226 | mint and burn keep the supply equal to the sum of all holdings |
| PlanetRuns.StepRate | packages/planet/src/contract.rs:143-347 | a committed call lowers the rate if and only if it unbonds the last token at a rate above one |
| PlanetRuns.ReachableIsGood | packages/planet/src/state.rs:33-79 | in every reachable state COMMISSION is part of VAULTS, N backs every token and holdings add up to the supply |
| PlanetRuns.BondAndUnbondCommit | packages/planet/src/contract.rs:158-231 | in such a state a bond always commits and mints at most the amount; an unbond commits exactly with enough tokens and balance |
| PlanetRuns.HolderNeverLoses | packages/planet/src/contract.rs:421-441 | whatever others do over a run, the quote of a holder who keeps their tokens never falls |
| PlanetRuns.QuotesAreCovered | packages/planet/src/contract.rs:421-441 | in every reachable state all quotes and the commission together are covered by VAULTS |
| PlanetRuns.Conservation | packages/planet/src/contract.rs:169-341 | VAULTS and COMMISSION are exactly the sums of what all committed calls put in and took out |
| PlanetRuns.LossIsAbsorbedOrRejected | packages/planet/src/contract.rs:331-344 | an execute without gain commits exactly when it must settle and the commission covers the loss, and then leaves N unchanged |
| PlanetRuns.AccrualFallsShortByLessThanGains | packages/planet/src/contract.rs:323-326 | over k gains at one rate the commission falls short of that on their sum by less than k raw units |
| PlanetRuns.BalanceCoversVaults | packages/planet/src/contract.rs:201-277 | VAULTS exceeds the real balance by at most what was claimed since the last settlement |
| PlanetRuns.BooksAreExact | packages/planet/src/contract.rs:158-347 | in every reachable state, for every asset, tax and commission rate, VAULTS equals the balance plus the open claims less what payments left behind and others sent in since the last settlement |
| PlanetRuns.DustIsNotNegative | packages/planet/src/contract.rs:201-277 | in every reachable state the payments since the last settlement have cost no more than what they were prepared from |
| PlanetRuns.UntaxedLeavesNoDust | packages/planet/src/contract.rs:201-277 | payments of untaxed native coins leave nothing behind |
| PlanetRuns.DustIsSmall | packages/planet/src/contract.rs:201-277 | at tax rates up to one the payments of a native planet since the last settlement have left at most two units each behind |
| Assets.DeductTaxLeavesLittle | packages/terraswap/src/asset.rs:54-64 | what deduct_tax sets aside is used up to the rate rounded up, and one unit more if the chain rounds down |
| PlanetRuns.ClaimLeavesVaultsBehind | packages/planet/src/contract.rs:256-347 | under any tax the balance covers VAULTS exactly when payments left behind and others sent in as much as was claimed since the last settlement, and the next plain execute commits exactly when its gain makes up the difference |
| PlanetRuns.NoCommissionWhileClaimsAreOpen | packages/planet/src/contract.rs:256-347 | in every reachable state nothing is claimed since the last settlement or COMMISSION is zero |
| PlanetRuns.NetIsCoveredExactlyWhen | packages/planet/src/contract.rs:186-281 | in reachable states the balance covers N if and only if it covers VAULTS, if and only if dust and gifts make up for the open claims |
| PlanetRuns.BalanceCanFallShort | packages/planet/src/contract.rs:265-277 | a run after which the balance is half of VAULTS |
| PlanetRuns.TokenPayoutIsShares | packages/planet/src/contract.rs:203-211 | a CW20 unbond pays its worth exactly while the premium on the tokens is below one unit |
| PlanetRuns.TokenHolderIsPaidShort | packages/planet/src/contract.rs:203-211 | a run for any number of tokens after which the only holder has left with half their worth |
| PlanetRuns.PrincipalIsSafe | packages/planet/src/contract.rs:158-231 | over any later run in which a bonder keeps the tokens, those minted for a bond are worth at least the amount less (r - 1) rounded up, and the whole amount if there were no holders |
| PlanetRuns.TradersTakeNoMore | packages/planet/src/contract.rs:158-231 | any bonds, unbonds and transfers that do not empty the planet on the way take out less than they put in plus the worth of the tokens used up plus S raw units |
| PlanetCalls.BondMints | packages/planet/src/contract.rs:158-184 | a bond always commits and gives the sender alone as many tokens as the amount pays for |
| PlanetCalls.UnbondPays | packages/planet/src/contract.rs:186-231 | a committed unbond burns the sender's tokens alone and pays what tax leaves of their worth, or the token count of a CW20 asset |
| PlanetCalls.ExecuteSettles | packages/planet/src/contract.rs:233-347 | an execute commits exactly for the owner, with a gain or with a loss that must settle and is covered, and accrues commission on the gain alone |
| PlanetCalls.ClaimPays | packages/planet/src/contract.rs:256-281 | a claim commits exactly for the owner of a native planet that can pay the whole units of COMMISSION, drains it and leaves less than one unit unpaid |
| PlanetCalls.ConfigIsReplaced | packages/planet/src/contract.rs:102-141 | a config update commits exactly for the owner with a valid new owner, and changes what is given and nothing else |
| PlanetCalls.NewConfigTakesEffect | packages/planet/src/contract.rs:102-141 | afterwards only the new owner can execute, and the next gain accrues at the new rate |
| PlanetCalls.OnlyTheOwner | packages/planet/src/contract.rs:112-114 | execute, claim and config update by anybody else fail |
| PlanetCalls.QuoteIsGreatest | packages/planet/src/contract.rs:421-441 | a quote is the greatest number of whole units that the tokens are worth at the rate |
| PlanetContract.PayoutMsgPays | packages/planet/src/contract.rs:203-216 | the payment goes to the unbonder, is a CW20 transfer exactly for a CW20 asset, and costs what the specification reckons with |
| Leaving.AllLeaveExactlyWhen | packages/planet/src/contract.rs:186-231 | any list of distinct holders can unbond all they hold, under any taxes, if and only if the balance covers what their payments cost in that order |
| Leaving.EveryoneCanLeave | packages/planet/src/contract.rs:186-231 | while the balance covers N every such list can, each worth no less than the initial quote; a native planet sends at least what that quote pays after tax, a CW20 planet as many units as tokens |
| Leaving.SomebodyIsNotPaid | packages/planet/src/contract.rs:186-231 | when the balance falls short of N by S + n units raw and all holders of an untaxed native planet leave, some unbond fails |
| Leaving.ClaimsDecideWhoLeaves | packages/planet/src/contract.rs:186-281 | in reachable states all can leave while dust and gifts since the last settlement make up for the claims, and somebody cannot when S + n units raw are missing |
| Leaving.ClaimCanTrapTheHolder | packages/planet/src/contract.rs:256-281 | a run with one gain and one claim after which the only holder cannot unbond |
| Widths.BalancesKeepNarrow | packages/planet/src/contract.rs:256-347 | claims and open commission never outgrow a 128-bit balance |
| Widths.WidthsSuffice | packages/planet/src/contract.rs:143-347 | while real balances are 128-bit no product of bond, unbond or execute leaves 256 bits, mint and claim fit in 128 bits, and so does the worth of an unbond that can be paid, unless it is taxed while claims are open, when it can be one or two units over the balance |
| Widths.PaidWorthFits | packages/planet/src/contract.rs:186-201 | an unbond that commits is worth at most the balance plus two, and at most the balance if it is untaxed, CW20 or no claim is open |
| PlanetContract.Planet.constructor | packages/planet/src/contract.rs:35-76 | a new planet has empty books |
| PlanetContract.Planet.AddVaults | packages/planet/src/state.rs:38-43 | adds to VAULTS |
| PlanetContract.Planet.SubVaults | packages/planet/src/state.rs:45-50 | takes from VAULTS, or aborts on underflow without a change |
| PlanetContract.Planet.SetVaults | packages/planet/src/state.rs:52-54 | replaces VAULTS |
| PlanetContract.Planet.AddCommission | packages/planet/src/state.rs:60-65 | adds to COMMISSION |
| PlanetContract.Planet.SubCommission | packages/planet/src/state.rs:67-72 | takes from COMMISSION, or aborts on underflow without a change |
| PlanetContract.Planet.SubAllCommission | packages/planet/src/state.rs:74-79 | answers all of COMMISSION and leaves none |
| PlanetContract.Planet.ComputeShareRate | packages/planet/src/contract.rs:143-156 | the decimal arithmetic of the code computes the floor N / S, one for an empty supply, an abort when COMMISSION exceeds VAULTS |
| PlanetContract.Planet.TryBond | packages/planet/src/contract.rs:158-184 | takes the stored items along the ledger's bond and answers the mint for the sender |
| PlanetContract.Planet.TryUnbond | packages/planet/src/contract.rs:186-231 | takes them along the ledger's unbond and answers the payment and the burn |
| PlanetContract.Planet.TryClaim | packages/planet/src/contract.rs:256-281 | only the owner; drains COMMISSION and answers the taxed payment, failing for a CW20 asset with COMMISSION already zero |
| PlanetContract.Planet.TryUpdateConfig | packages/planet/src/contract.rs:102-141 | only the owner; replaces what is given, and rejects a new owner whose address is not valid without a change |
| PlanetContract.Planet.ReplyExecute | packages/planet/src/contract.rs:309-347 | takes the stored items along the ledger's settlement, or fails without a change |
| PlanetHost.PlanetHost.Deliver | packages/planet/src/contract.rs:78-100 | a whole call makes the transition of the specification or leaves everything as it was |
| Routes.SplitJoins | contracts/swap-arbitrage/src/contract.rs:263 | joining the split pieces gives the string back, and no piece holds a separator |
| Routes.PrintedRouteParses | contracts/swap-arbitrage/src/contract.rs:217-220 | every printed pair of exchange names is read back |
| Routes.AcceptedPaths | contracts/swap-arbitrage/src/contract.rs:258-343 | a path is accepted if and only if it starts with a route, whose first leg is native_swap for a CW20 deposit asset |
| Routes.RouteUsesNamedExchanges | contracts/swap-arbitrage/src/contract.rs:284-343 | each leg of an accepted path is the operation of the exchange it names, from the deposit asset to uluna and back |
| Routes.CoinIsGreatest | contracts/swap-arbitrage/src/contract.rs:276-282 | native_swap is sent the whole amount, any other first leg the greatest coin that fits in it with its rounded-up tax |
| Routes.RouteIsClosedCycle | packages/terraswap/src/router.rs:37-47 | an accepted route is a closed cycle through uluna if and only if the deposit asset is native, and asks for at least what it offers |
| Retry.OfferedIsQuotient | contracts/swap-arbitrage/src/contract.rs:507-510 | the k-th offer is the prepared amount divided once by 2^k |
| Retry.RetryOutcome | contracts/swap-arbitrage/src/contract.rs:478-530 | the loop stops at the first attempt that goes through, and gives up after exactly K + 1 failures |
| Retry.FillsExactlyWhen | contracts/swap-arbitrage/src/contract.rs:478-530 | it ends well if and only if one of the attempts up to K goes through |
| Retry.LastAttemptIsLeast | contracts/swap-arbitrage/src/contract.rs:443-519 | K is the first attempt that offers less than 10,000,000,000 |
| Retry.AtMostNinetySixAttempts | contracts/swap-arbitrage/src/contract.rs:443-530 | K is at most 95 for 128-bit amounts, and 95 is reached |
| Retry.NoTinyOffers | contracts/swap-arbitrage/src/contract.rs:443-530 | an amount of at least the limit is never offered in less than half the limit |
| SwapRuns.SwapIsPlanet | contracts/swap-arbitrage/src/contract.rs:98-606 | over every run the vault of the swap contract moves as a planet does under the corresponding calls |
| SwapRuns.CallsOnVault | contracts/swap-arbitrage/src/contract.rs:98-606 | which planet call each committed call is to the vault |
| SwapRuns.CallCommitsExactlyWhen | contracts/swap-arbitrage/src/contract.rs:98-215 | the exact commit condition of every call but Swap: that of the planet call, and that the money market does its part |
| SwapRuns.ReachableSwapState | contracts/swap-arbitrage/src/state.rs:43-66 | in every reachable state the vault is backed, its books equal aUST plus open claims less aUST sent in by others, and TMP_SWAP is empty |
| SwapRuns.DepositorNeverLoses | contracts/swap-arbitrage/src/contract.rs:405-422 | the quote of a depositor who keeps their tokens never falls over a run, in aUST and, unless aUST loses value, in deposit coins |
| SwapRuns.DepositQuoteIsGreatest | contracts/swap-arbitrage/src/contract.rs:405-422 | the quote in deposit coins is the greatest number of whole coins that the quoted aUST is worth at the exchange rate |
| SwapRuns.DepositorsCanLeave | contracts/swap-arbitrage/src/contract.rs:98-156 | while the aUST covers N all depositors can leave in any order, each at no less than the aUST quoted |
| SwapRuns.ClaimsDecideWhichDepositorsLeave | contracts/swap-arbitrage/src/contract.rs:98-156 | in reachable states the aUST covers N if and only if no more is claimed than others sent in since the last settlement; then all depositors can leave, and when S + n units raw are missing one cannot |
| SwapRuns.SwapIsAllOrNothing | contracts/swap-arbitrage/src/contract.rs:451-530 | a Swap changes nothing, or sets VAULTS to a strictly larger balance, accrues exactly the floored commission and does not lower the rate |
| SwapRuns.SwapCommitsExactlyWhen | contracts/swap-arbitrage/src/contract.rs:222-530 | the exact condition under which a Swap commits, over all answers of the outside |
| SwapRuns.RedeemIsGreatest | contracts/swap-arbitrage/src/contract.rs:222-256 | a Swap redeems the most aUST that the amount pays for, exactly when the money market pays and so much is owned; otherwise the balances stay |
| SwapRuns.SwapDepositsAll | contracts/swap-arbitrage/src/contract.rs:478-500 | a committed Swap deposits what tax leaves of all its coins, and ends with the aUST left by the redeem plus the aUST minted |
| SwapRuns.RouteNeverShrinksCash | contracts/swap-arbitrage/src/contract.rs:271-308 | whatever the router answers, an attempt leaves the deposit balance no smaller exactly when coin and tax fit in the offer |
| SwapRuns.SwapNeverShrinksExactlyWhen | contracts/swap-arbitrage/src/contract.rs:469-527 | whatever the router answers to all attempts, the deposit balance ends at no less than was prepared, if and only if no attempt up to K is an undeducted native_swap whose coin is taxed and payable with its tax |
| SwapRuns.UnsafeAttemptShrinks | contracts/swap-arbitrage/src/contract.rs:469-527 | for each such attempt, the run in which only it goes through and returns the minimum shrinks the balance by exactly the tax |
| SwapRuns.SwapNeverShrinksInShort | contracts/swap-arbitrage/src/contract.rs:469-527 | at tax rates up to one this is so exactly unless native_swap goes first, the amount reaches the limit and half of it is taxed |
| SwapRuns.UnbondKeepsCash | contracts/swap-arbitrage/src/contract.rs:564-585 | an unbonder is paid out of the redeemed coins alone; payment, tax and what stays add up to them |
| SwapRuns.BondKeepsCashExactlyWhen | contracts/swap-arbitrage/src/contract.rs:191-215 | a bond of deposit coins leaves the deposit balance no smaller if and only if the coins sent with it cover the deposit and its tax; one of another coin never shrinks it |
| SwapRuns.ClaimSweepsCash | contracts/swap-arbitrage/src/contract.rs:586-606 | the owner is paid out of all deposit coins, so at least what the redeemed commission alone would pay, and without tax more exactly when there were other coins |
| SwapArbitrage.SwapArbitrage.TryBond | contracts/swap-arbitrage/src/contract.rs:191-215 | remembers the bonder and the aUST owned, and answers the deducted coin of the asset named; a CW20 asset fails without a change |
| SwapArbitrage.SwapArbitrage.ReplyBond | contracts/swap-arbitrage/src/contract.rs:532-550 | bonds exactly the aUST that came in since, for the remembered bonder |
| SwapArbitrage.SwapArbitrage.ReceiveUnbond | contracts/swap-arbitrage/src/contract.rs:98-156 | takes the vault along the ledger's unbond and answers the worth to redeem |
| SwapArbitrage.SwapArbitrage.TryClaim | contracts/swap-arbitrage/src/contract.rs:345-372 | only the owner; drains COMMISSION and redeems its whole units |
| SwapArbitrage.SwapArbitrage.TrySwap | contracts/swap-arbitrage/src/contract.rs:222-256 | stores the path and the amount and redeems the amount at the exchange rate |
| SwapArbitrage.SwapArbitrage.ReplyPrepare | contracts/swap-arbitrage/src/contract.rs:451-477 | tolerates ten missing units, stores the whole balance as the offer and routes it |
| SwapArbitrage.SwapArbitrage.ReplySwap | contracts/swap-arbitrage/src/contract.rs:478-531 | deposits after a success; halves after a failure, or gives up below the limit |
| SwapHost.SwapHost.RunRoutes | contracts/swap-arbitrage/src/contract.rs:478-531 | the loop of replies over the stored item computes the retry outcome |
| SwapHost.SwapHost.Deliver | contracts/swap-arbitrage/src/contract.rs:78-96 | a whole call makes the transition of the specification or leaves everything as it was |
| Paging.BeforeIsTotal | contracts/starflet/src/state.rs:80-83 | the byte order of keys is total and strict |
| Paging.BeforeIsByteOrder | contracts/starflet/src/state.rs:80-83 | it is the order of the first differing byte, prefixes first |
| Paging.AscendingIsSorted | contracts/starflet/src/state.rs:80-83 | a range over the store visits the keys in strictly ascending order |
| Paging.Ascending | contracts/starflet/src/state.rs:80-83 | and it visits every stored key once |
| Paging.PageAt | contracts/starflet/src/state.rs:70-89 | a page is the slice of the listing after its start, as long as asked for (ten by default, thirty at most) if so much is left, and ends with the address from which the next one starts |
| Paging.PageFrom | contracts/starflet/src/state.rs:70-89 | for any start, stored or not, the page is the first planets of the listing whose address comes after it |
| Paging.PagingIsComplete | contracts/starflet/src/state.rs:70-89 | following the pages yields the whole listing if and only if the limit is not zero or nothing is stored, in pages of at most the size asked for (ten by default, thirty at most) and the least number of them |
| Paging.ListingIsRegistry | contracts/starflet/src/state.rs:17-68 | the listing holds every stored planet once, in byte order, and nothing else |
| RegistryWorld.AddPlanetExactlyWhen | contracts/starflet/src/contract.rs:98-231 | AddPlanet commits exactly when the texts fit, the bond gave tokens and the balance ends within ten units below the start less twice the tax |
| RegistryWorld.UntaxedAssetIsAddedExactlyWhen | contracts/starflet/src/contract.rs:202-228 | for a CW20 asset and for uluna the balance must end within ten units below the start, whatever the tax |
| RegistryWorld.RemovePlanetExactlyWhen | contracts/starflet/src/contract.rs:269-291 | a removal commits exactly when the planet is stored; then it is neither stored nor listed, and nothing else changes |
| RegistryWorld.EditPlanetExactlyWhen | contracts/starflet/src/contract.rs:233-267 | an edit commits exactly when the planet is stored and the resulting texts fit; given texts are replaced, nothing else changes |
| RegistryWorld.UpdateAdminTakesEffect | contracts/starflet/src/contract.rs:74-96 | after an update the new admin can call and the old one cannot |
| RegistryWorld.OnlyTheAdmin | contracts/starflet/src/contract.rs:74-291 | every call of anybody else fails without a change |
| RegistryWorld.RemovedStaysUnlisted | contracts/starflet/src/contract.rs:269-291 | a removed planet is not listed over any run before a committed AddPlanet of it |
| RegistryWorld.RunIsTidy | contracts/starflet/src/state.rs:38-68 | over every run keys match addresses, texts keep their bounds and TMP_ADD_PLANET is empty |
| RegistryWorld.ReachableRegistryPages | contracts/starflet/src/contract.rs:318-322 | in every reachable state the pages reassemble the registry |
| RegistryWorld.EveryListedPlanetPassed | contracts/starflet/src/contract.rs:173-231 | every planet ever listed was admitted by a committed AddPlanet with a trial within the tolerance, and has been listed ever since that call |
| RegistryContract.Starflet.StorePlanet | contracts/starflet/src/state.rs:36-60 | stores under the planet's own address, or fails on a long text without a change |
| RegistryContract.Starflet.TryAddPlanet | contracts/starflet/src/contract.rs:98-170 | only the admin; stores the planet and opens the trial |
| RegistryContract.Starflet.ReplyUnbond | contracts/starflet/src/contract.rs:202-228 | gives the verdict and closes the trial |
| RegistryContract.Starflet.TryEditPlanet | contracts/starflet/src/contract.rs:233-267 | only the admin, only a stored planet; replaces what is given |
| RegistryContract.Starflet.TryRemovePlanet | contracts/starflet/src/contract.rs:269-291 | only the admin, only a stored planet; removes it |
| RegistryContract.Starflet.Deliver | contracts/starflet/src/contract.rs:50-72 | a whole call makes the transition of the specification or leaves everything as it was |
| Admission.PlanetPassesExactlyWhen | contracts/starflet/src/contract.rs:98-228 | the exact condition, tax, rounding and balances included, under which the trial of any backed planet passes |
| Admission.LivePlanetPassesExactlyWhen | contracts/starflet/src/contract.rs:98-228 | for a planet with holders, which can always pay the trial back |
| Admission.HonestPlanetPasses | contracts/starflet/src/contract.rs:25-26 | without tax every planet with holders and a rate from one to ten passes |
| Admission.RateAlwaysPassesExactlyWhen | contracts/starflet/src/contract.rs:25-26 | all reachable untaxed planets with holders and a given rate pass if and only if the trial amount, rounded at that one rate, loses at most ten |
| Admission.WorstRun | packages/planet/src/contract.rs:158-347 | one bond and one gain lead to a planet of any rate above one whose rate the trial bond does not raise |
| Admission.HonestRates | contracts/starflet/src/contract.rs:25-26 | this is so for every rate from one to ten, and not for nineteen |
| Admission.EmptyPlanetPassesExactlyWhen | contracts/starflet/src/contract.rs:98-228 | the exact condition for a planet without holders under any tax, in terms of what was left behind in it |
| Admission.EmptyUntaxedPlanetPassesExactlyWhen | contracts/starflet/src/contract.rs:202-228 | without tax it passes if and only if less than one unit was left behind |
| Admission.EmptyPlanetIsRejected | contracts/starflet/src/contract.rs:202-228 | a run after which the only holder has left, one unit stays and no trial passes |
| Admission.TaxCanFailEveryPlanet | contracts/starflet/src/contract.rs:211-220 | when the charged tax exceeds the reckoned one by more than ten no planet with holders passes |
| Admission.TaxIsTooMuchExactlyWhen | packages/terraswap/src/asset.rs:32-64 | the charged tax exceeds the reckoned one by more than ten if and only if both the tax on top and the cap exceed the contained tax by more than ten |
| Admission.RateDecidesTax | packages/terraswap/src/asset.rs:32-64 | the tax on top does so from 0.4 percent on, and does not up to 0.25 percent, whichever way the chain rounds |
| Admission.HighTaxAdmitsNobody | contracts/starflet/src/contract.rs:98-231 | from 0.4 percent on, with a cap more than ten above the contained tax, every AddPlanet of a planet with holders fails in the registry |
| Admission.HonestPlanetIsAdmitted | contracts/starflet/src/contract.rs:98-231 | the registry commits the AddPlanet of an honest planet |

## Left out

- JSON and binary encoding, attributes, the generated protobuf files and the reply that stores the token address after instantiation.
- Address validation other than that of a new owner of a planet, the router address, the stored Anchor addresses and `migrate`; a planet's token address counts as known from the start.
- Queriers: balances, supply, tax rate and cap, exchange rate and minted amounts are state or inputs of a call.
- `EXECUTE_SKIP`: it settles nothing, so what such a call takes from the real balance is outside the runs, and what it brings in counts as sent in by others; a settling reply may find any balance.
- `MSG_REPLY_MIGRATE`: no submessage of the repository carries this id.
- A CW20 deposit asset of the swap contract: its class and runs take a native deposit coin; route strings are treated for both.
- Bonds of the planet package that do not come with its own asset. The check at `packages/planet/src/contract.rs:90-93` compares the coins sent with the denomination the caller names, never with the configured asset, and skips a CW20 asset; here the bonded amount always arrives.
- Re-entrant calls; a coin of amount zero and a mint or burn of zero tokens succeed here.
- 128-bit sums outside the vault arithmetic (`amount + 10` in the prepare reply, the token supply) are unbounded here.
- Strings are sequences of one-byte characters, so the length of a title is its number of characters.
- Widths.WidthsSuffice: a taxed unbond while claims are open can be worth 2^128 or 2^128 + 1 units and cost less than the balance; it commits here and aborts in the code.
