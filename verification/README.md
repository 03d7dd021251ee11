# Money and asset state machines of the Aeonblight backend, in Dafny

This project models the parts of the game backend that move tokens and assets,
and proves what they keep over every run: the bridge to the Solana chain
(deposits, payment orders, withdrawals and payouts), the marketplace and NFT
minting, the Base58 codec, inventory packing and material consumption, the
administrator's timeline and compensation filter, and weighted affix rolls.

How the model is built:

- A database table with serial ids is a sequence whose position is the id. A
  store method is one transaction: a function that gives the new tables or a
  failure, beside a class whose method does the same work in place, row by row,
  and rolls back on the first error. The method is proved against the function,
  and the lemmas are about the function.
- The `*Outcomes.dfy` files say of each transaction, without naming its function's
  parts, when it succeeds, which rows it writes, and that it writes no others; the
  `*Proofs.dfy` and `*Runs.dfy` files say what holds over whole runs.
- A run is a sequence of steps over those functions, in any interleaving, with
  any parameters; a failed step changes nothing.
- Counts and totals are sums of a weight over the rows of a table
  (`Basics.Sum`), so "exactly one live record" is a sum that is one.
- Time, the RPC node's answers, random picks, and the order in which a locking
  query or a Go map gives its rows are parameters or left open.

| files | what they model |
|---|---|
| `Basics.dfy`, `Sorting.dfy` | results, sums over rows, string order, sorting |
| `Credits.dfy` | amounts, inbound credits, payer attribution, payment acceptance |
| `Bridge*.dfy` | deposit scan, receipts, payment orders, purchase caps |
| `Withdrawal*.dfy` | withdrawals, rolling budgets, payouts |
| `Tokens.dfy`, `Economy*.dfy` | token purse, marketplace, NFT minting |
| `Storage.dfy`, `Materials.dfy` | organizing a bag, consuming materials |
| `Base58.dfy` | the codec |
| `Timeline.dfy`, `Filter.dfy`, `Affixes.dfy` | timeline page, filter compilation, affix rolls |

Where a natural claim does not hold of the code, a lemma gives the input and
another says exactly when it holds:

- `Timeline.TieGivesTheWrongPage` / `Timeline.PageRightIff`: the sources break
  ties by number, the merged page by string.
- `EconomyExample.FeeAbovePriceMakesTokens` / `EconomyTheorems.BuyConservesIff`:
  a fee above 10000 basis points is recorded but not paid by anyone.
- `WithdrawalExample.ProcessedAtMayExceedTheHour` / `WithdrawalProcessed.ProcessedHeldIff`:
  submission rewrites `processed_at`, so totals by that column may pass a limit;
  they stay within it throughout a run exactly when every submission fits, which
  is known before it is made. The budget over approval time always holds.
- `BridgeExample.TrustedSignatureMayCountTwice` / `BridgeTrust.CountsOnceIff`: a
  signature taken on trust while the RPC node is off may count twice once the
  node is switched on; it does not exactly when no confirmation meets a credited
  signature and no scan meets an unreceipted one of a fulfilled order that it
  would credit.
- `Credits.AcceptedThoughNegative` / `Credits.AcceptedIffSettled`: without
  decimals a raw amount of 2^63 or more is accepted although it converts to a
  negative game amount.
- `Credits.EmptyOwnerHidesThePayer` / `Credits.EmptyPayerMeansNobody`: an empty
  payer means that nobody lost tokens unless a row has an empty owner.
- `Storage.SplitJoinIff`: a key splits back exactly when the item id has no bar.

## Model

| member | source | states |
|---|---|---|
| `Withdrawals.SubmitAll` | internal/platform/store/chain.go:553-614 | submitting a batch adds no row and leaves every payout pointing to the same withdrawal |
| `WithdrawalProofs.BudgetIsSum` | internal/platform/store/chain.go:359-382 | the running budget maps equal the sums of live processed withdrawals of the hour, the day, and each account's day |
| `WithdrawalProofs.BucketsContiguous` | internal/platform/store/store.go:2535-2551 | in one time zone, hours are stretches of 3600 seconds and days of 24 hours, so a time between two times of one bucket lies in it |
| `WithdrawalProofs.ProcessPicksFrame` | internal/platform/store/chain.go:411-475 | a batch writes no row it did not select |
| `WithdrawalProofs.BudgetCoversApprovals` | internal/platform/store/chain.go:359-382 | although submission moves `processed_at`, the budget a batch starts from covers every live approval of the current hour and day |
| `WithdrawalProofs.RunningBudgetExact` | internal/platform/store/chain.go:411-475 | at every point of a batch the running totals equal the sums over the rows as they then stand |
| `WithdrawalProofs.ApprovedIffWithinLimits` | internal/platform/store/chain.go:411-475 | a row of a batch is approved exactly when it is within the single limit and, added to the rows' sums for its account's day, the hour and the day, within those limits |
| `WithdrawalOutcomes.PickedRowOutcome` | internal/platform/store/chain.go:411-475 | every picked row of a committed batch: MANUAL_REVIEW exactly when above the single limit, or above its account's day, or within the hour and above the day; QUEUED exactly when only the hour refuses it; approved exactly within all four; the reason names the limit, and account, wallet and amount stay |
| `WithdrawalOutcomes.BatchFailsIff` | internal/platform/store/chain.go:429-478 | a batch rolls back only in stub mode, exactly when an admitted row would get a signature that another payout has |
| `WithdrawalProofs.ApproveKeeps` | internal/platform/store/chain.go:411-475 | an approval within the remaining budget keeps budgets, payout pairing, confirmations and per-account entitlement |
| `WithdrawalProofs.RequestKeeps` | internal/platform/store/postgres.go:2382-2433 | a request moves the amount from the balance to an outstanding withdrawal: entitlement is unchanged |
| `WithdrawalProofs.ReviewKeeps` | internal/platform/store/postgres.go:2467-2520 | a review approves or rejects with the amount given back, keeping all invariants |
| `WithdrawalProofs.SubmitOneKeeps` | internal/platform/store/chain.go:553-614 | sending a payout, or failing to, moves withdrawal and payout together |
| `WithdrawalProofs.ConfirmOneKeeps` | internal/platform/store/chain.go:684-720 | confirming or failing a payout moves both rows together and records one entry for a confirmation |
| `WithdrawalProofs.StepKeeps` | internal/platform/store/chain.go:350-725 | every step keeps budgets, lockstep of withdrawals and payouts and confirmation entries, and an account's balance plus outstanding withdrawals changes by its income only |
| `WithdrawalProofs.RunKeeps` | internal/platform/store/chain.go:350-725 | the same over every run with a forward clock and fixed limits |
| `WithdrawalProofs.BudgetsOverRuns` | internal/platform/store/chain.go:411-475 | from tables without withdrawals and with any balances, in no hour, day or account's day do live approvals sum above the limit, in every reachable state |
| `WithdrawalProofs.ApprovedHasItsPayout` | internal/platform/store/chain.go:429-475 | an approved withdrawal has exactly one payout, and they agree on wallet, amount, status and signature |
| `WithdrawalProofs.SignatureNamesOneWithdrawal` | internal/platform/store/chain.go:553-614 | no two withdrawals carry the same chain signature |
| `WithdrawalProofs.ConfirmedEntryExactlyOnce` | internal/platform/store/chain.go:684-720 | one WITHDRAWAL_CONFIRMED entry with the right account and amount for a confirmed withdrawal, none for any other |
| `WithdrawalProofs.LockstepOverRuns` | internal/platform/store/chain.go:429-720 | in every state reached from tables without withdrawals: exactly one agreeing payout for an approved withdrawal and none for another, one withdrawal per signature, and one confirmation entry exactly when confirmed |
| `WithdrawalProofs.FinishedForever` | internal/platform/store/chain.go:621-725 | a CONFIRMED or FAILED withdrawal is never written again, however the run goes on |
| `WithdrawalProofs.FinishedOverRuns` | internal/platform/store/chain.go:621-725 | in every run from tables without withdrawals a withdrawal once CONFIRMED or FAILED stays as it is |
| `WithdrawalOutcomes.SubmitOutcome` | internal/platform/store/chain.go:533-619 | the submission job commits exactly when the signatures it got are new and different; then a withdrawal is SUBMITTED with exactly its signature if and only if the transfer was accepted, FAILED if and only if the recipient has no token account, and otherwise unchanged, with one entry per accepted transfer |
| `WithdrawalOutcomes.SubmitFrame` | internal/platform/store/chain.go:533-619 | the submission job writes no payout it did not send and no other withdrawal |
| `WithdrawalOutcomes.ConfirmOutcome` | internal/platform/store/chain.go:684-725 | a selected withdrawal is CONFIRMED now if and only if the chain reports its signature final, FAILED if and only if it reports an error, and it and its payout are unchanged if and only if neither; one entry per final signature, with account, amount and signature |
| `WithdrawalOutcomes.ConfirmFrame` | internal/platform/store/chain.go:684-725 | the confirmation job writes no payout it did not select and no other withdrawal |
| `WithdrawalOutcomes.RequestsOverRuns` | internal/platform/store/chain.go:350-725 | over every run a withdrawal keeps the account, wallet and amount of its request |
| `WithdrawalProcessed.ProcessedAfterSubmit` | internal/platform/store/chain.go:553-614 | a committed submission changes each total by `processed_at` by exactly what its sendings move: accepted amounts into the current buckets and out of their old ones, amounts without a token account out |
| `WithdrawalProcessed.StepHeldIff` | internal/platform/store/chain.go:359-614 | every step keeps the totals by `processed_at` within the limits, except exactly a submission whose moves do not fit |
| `WithdrawalProcessed.ProcessedHeldIff` | internal/platform/store/chain.go:599-603 | from tables without withdrawals, these totals stay within the limits throughout a run exactly when every submission in it fits |
| `WithdrawalExample.ProcessedAtMayExceedTheHour` | internal/platform/store/chain.go:599-603 | a run from an account with 200 tokens that approves 100 in each of two hours and submits the first late, after which one hour holds 200 by `processed_at` |
| `WithdrawalStore.WithdrawalJobs.SpentBudgets` | internal/platform/store/chain.go:359-382 | the accumulation loop computes the budget function |
| `WithdrawalStore.WithdrawalJobs.CreateWithdrawalRow` | internal/platform/store/postgres.go:2382-2433 | succeeds exactly when the positive amount is covered; then only that balance falls by it, and one row with that account, amount and wallet (or a placeholder for an empty one) is added, queued or for review, with one entry; otherwise nothing changes |
| `WithdrawalStore.WithdrawalJobs.ReviewWithdrawalRow` | internal/platform/store/postgres.go:2467-2520 | succeeds exactly for a row in review; then only status and reason of that row change, to queued or rejected, and a rejection returns the amount to its account; otherwise nothing changes |
| `WithdrawalStore.WithdrawalJobs.ProcessRow` | internal/platform/store/chain.go:411-475 | one row of the batch in place equals the specification of that row |
| `WithdrawalStore.WithdrawalJobs.ProcessAutoWithdrawals` | internal/platform/store/chain.go:350-478 | the batch in place equals its specification and rolls back on the first failure |
| `WithdrawalStore.WithdrawalJobs.SubmitRow` | internal/platform/store/chain.go:553-614 | one submission in place equals its specification |
| `WithdrawalStore.WithdrawalJobs.SubmitSolanaPayouts` | internal/platform/store/chain.go:480-619 | the submission job equals its specification, up to the configuration error that ends it |
| `WithdrawalStore.WithdrawalJobs.ConfirmSolanaPayouts` | internal/platform/store/chain.go:621-725 | the confirmation job equals its specification |
| `Credits.RawToGameAmount` | internal/chain/rpc.go:377-386 | the divisor loop, with its 64-bit wrap-around and its division by zero, equals the conversion function |
| `Credits.AmountRoundTrip` | internal/chain/payout.go:168-182 | whenever game-to-raw succeeds, raw-to-game undoes it |
| `Credits.FindDecreasedOwner` | internal/chain/rpc.go:337-375 | for one row per owner and mint: a named owner is another one whose balance strictly fell, and none is named only if no named owner lost, in every map order |
| `Credits.InboundTokenCredits` | internal/chain/rpc.go:298-335 | credits are positive; for a named owner and mint with one row per owner there is one exactly when the owner gained, equal to the gain, with a payer as above |
| `Credits.EmptyPayerMeansNobody` | internal/chain/rpc.go:337-375 | an empty payer means no other owner lost tokens, exactly when no row with an empty owner did |
| `Credits.EmptyOwnerHidesThePayer` | internal/chain/rpc.go:337-375 | a transaction on which every credit list that may be reported names nobody although an owner without a name lost the tokens |
| `Credits.VerifyInboundPayment` | internal/chain/payout.go:185-208 | the search over the credits equals its specification |
| `Credits.CoverageAgrees` | internal/chain/payout.go:168-208 | comparing raw amounts agrees with comparing converted ones, up to the wrap without decimals |
| `Credits.AcceptedIffSettled` | internal/chain/payout.go:168-208 | a payment is accepted exactly when raw units can express it (0 to 18 decimals, below 2^64) and some credit whose payer is unknown or expected converts to at least the amount, or wraps without decimals |
| `Credits.AcceptedThoughNegative` | internal/chain/payout.go:185-208 | without decimals, a payment accepted although the credit converts to a negative amount |
| `Bridge.BestMatch` | internal/platform/store/chain.go:221-240 | a matched order belongs to the account, is open, unexpired, of exactly that amount and not bound to another signature |
| `Bridge.FindActive` | internal/platform/store/chain.go:211-219 | the account found is active and bound to that wallet, and none is found only if there is no such account |
| `BridgeProofs.BestMatchIsFirst` | internal/platform/store/chain.go:221-240 | an order that the deposit may pay is always found, and none that it may pay carries the signature instead or is older among its equals |
| `BridgeProofs.FulfilIsOne` | internal/platform/store/chain.go:947-1036 | fulfilment turns exactly one open order FULFILLED with the effect of its purpose (an expansion, the licence flag) and one entry, and touches no balance |
| `BridgeProofs.PurposeEffect` | internal/platform/store/chain.go:956-1021 | each purpose changes exactly its own column of its own account or character |
| `BridgeOutcomes.FulfilSucceedsIff` | internal/platform/store/chain.go:956-1021 | fulfilment succeeds exactly for an order that is fulfilled already or whose purpose can be delivered |
| `BridgeProofs.OnceAfterConsume` | internal/platform/store/chain.go:243-266 | consuming a fresh signature that pays for an order keeps the exactly-once invariant, every fulfilled order being paid on chain |
| `BridgeProofs.OnceAfterCredit` | internal/platform/store/chain.go:287-317 | crediting a fresh signature keeps the exactly-once invariant |
| `BridgeProofs.ReceiptStopsCredits` | internal/platform/store/chain.go:147-205 | a signature with a receipt changes nothing when scanned again, so of several credits in one transaction only the first counts |
| `BridgeProofs.VerifiedKeeps` | internal/platform/store/chain.go:803-864 | a verified submission keeps exactly-once, balances and caps |
| `BridgeProofs.ScanSettles` | internal/platform/store/chain.go:98-145 | after a committed scan the whole history it saw is settled |
| `BridgeOutcomes.SignatureOutcome` | internal/platform/store/chain.go:147-317 | a scanned signature changes nothing if it failed, has a receipt or brings nothing that counts; otherwise its first transfer that counts pays the first payable order of the payer's active account, or is credited to that account when there is none, or is only recorded as IGNORED when there is no such account |
| `BridgeOutcomes.SignatureFailsIff` | internal/platform/store/chain.go:147-266 | a signature makes the scan fail exactly when the node does not serve it, an amount cannot be converted, or the order it pays cannot be fulfilled with it |
| `BridgeOutcomes.ScanOutcome` | internal/platform/store/chain.go:98-145 | a committed scan moves the cursor to the head; each new receipt is for a row newer than the old cursor and names the payer's own active account or none; each balance grows by exactly the CREDITED receipts of its account |
| `BridgeOutcomes.OnlyPayersGain` | internal/platform/store/chain.go:268-317 | an account that is not active, or from whose wallet no new transfer came, gains nothing by a scan |
| `BridgeOutcomes.EveryReceiptNamesItsPayer` | internal/platform/store/chain.go:209-317 | over every run in any mode, each receipt was written by a scan or a verified submission and at that time named the payer: the one active account bound to the wallet, or none, or the account that submitted and from whose wallet the transaction paid |
| `Bridge.VerifyOrder` | internal/platform/store/chain.go:803-847 | a receipt is issued only for an open order, for a payment that verifies, with the order's account and amount and a signature not used before |
| `BridgeOutcomes.VerifiedSucceedsIff` | internal/platform/store/chain.go:803-864 | a verified submission of an open order succeeds exactly when it is the account's own, of a known purpose, PENDING or SUBMITTED, not past its expiry, paid by a transfer from the bound wallet in a transaction the node serves, with a signature that has no receipt and no other order, and its purpose can be delivered; then it is FULFILLED with that signature, with the receipt, the effect and the entry |
| `BridgeOutcomes.ConfirmSucceedsIff` | internal/platform/store/chain.go:867-907 | a confirmation succeeds exactly for an order that is fulfilled, or was submitted with a signature and can be delivered; then it is FULFILLED with its effect and entry only |
| `BridgeOutcomes.UnverifiedSucceedsIff` | internal/platform/store/marketplace.go:584-621 | a submission on trust succeeds exactly for an own open order not past its expiry and a signature no other order carries; it writes only that |
| `BridgeProofs.StepKeeps` | internal/platform/store/chain.go:83-317 | every step keeps: nothing older than the cursor is missed, balances follow credited receipts, expansions follow fulfilled orders, caps hold, and with RPC on effects happen once |
| `BridgeProofs.RunKeeps` | internal/platform/store/chain.go:83-317 | the same over every interleaving of scans, arrivals, submissions, confirmations and new orders |
| `BridgeProofs.SignatureCountsOnce` | internal/platform/store/chain.go:209-317 | a signature has at most one effect, a credit or a fulfilment, and none without a receipt |
| `BridgeProofs.ExactlyOnceOverRuns` | internal/platform/store/chain.go:803-907 | from a fresh system with RPC on: one effect per signature, one fulfilment per order, every fulfilled order paid by a transfer of its amount from an acceptable payer, and balances grew by the sum of CREDITED receipts |
| `BridgeProofs.NothingMissedOverRuns` | internal/platform/store/chain.go:319-342 | in every reachable state a stored cursor names a history row, and that row and all older ones are settled |
| `BridgeProofs.CapsOverRuns` | internal/platform/store/growth_payments.go:99-136 | over every run, expansions bought plus open orders never exceed the maximum, for bags and for wallet slots |
| `BridgeProofs.InsertKeeps` | internal/platform/store/growth_payments.go:180-209 | inserting an order below the cap keeps all invariants |
| `BridgeExample.TrustedSignatureMayCountTwice` | internal/platform/store/marketplace.go:584-621 | a run in which a signature submitted on trust while the RPC node is off fulfils an order, and the first scan after the node is switched on credits it to a balance |
| `BridgeTrust.ConfirmEffect` | internal/platform/store/chain.go:867-907 | a confirmation keeps one effect per signature exactly when the order's signature was not credited before |
| `BridgeTrust.SignatureEffect` | internal/platform/store/chain.go:147-205 | scanning a signature leaves it with at most one effect exactly when it has a receipt, no fulfilled order carries it, or its first countable credit comes from no active account; no other signature is touched |
| `BridgeTrust.StepCountsOnceIff` | internal/economy/service.go:1135-1144 | in any mode a step keeps one effect per signature exactly when it is safe by these guards |
| `BridgeTrust.CountsOnceIff` | internal/economy/service.go:1135-1144 | from a fresh system in any mode, every signature has at most one effect throughout a run exactly when every step is safe |
| `BridgeStore.GetSignaturesForAddress` | internal/chain/rpc.go:438-458 | the paging loop returns the page after `before` |
| `BridgeStore.PageContinues` | internal/chain/rpc.go:438-458 | however many signatures arrive between pages, the next page continues the first history |
| `BridgeStore.BridgeJobs.FulfillPaymentOrder` | internal/platform/store/chain.go:947-1036 | fulfilment in place equals its specification |
| `BridgeStore.BridgeJobs.MatchPaymentOrderFromDeposit` | internal/platform/store/chain.go:209-266 | matching in place equals its specification |
| `BridgeStore.BridgeJobs.CreditSolanaDeposit` | internal/platform/store/chain.go:268-317 | crediting in place equals its specification, and reports whether it credited |
| `BridgeStore.BridgeJobs.ProcessDepositSignature` | internal/platform/store/chain.go:147-205 | the credit loop of one signature equals its specification |
| `BridgeStore.BridgeJobs.ScanAndCreditDeposits` | internal/platform/store/chain.go:83-145 | the paged scan terminates, and when it commits equals the simple scan of the history as the first page saw it, for every page size and every arrival between pages |
| `BridgeStore.BridgeJobs.CheckOrder` | internal/platform/store/chain.go:803-847 | the checks, with the search over the credits, equal their specification |
| `BridgeStore.BridgeJobs.SubmitPaymentOrderVerified` | internal/platform/store/chain.go:789-865 | the verified submission equals its specification or changes nothing |
| `BridgeStore.BridgeJobs.ConfirmPaymentOrder` | internal/platform/store/chain.go:867-907 | the confirmation equals its specification or changes nothing |
| `BridgeStore.BridgeJobs.SubmitWalletExpandPayment` | internal/platform/store/marketplace.go:584-621 | a submission on trust writes the signature on that order only, leaves it open, and no other order carries it; or nothing changes |
| `BridgeStore.BridgeJobs.CreateBagExpandPayment` | internal/platform/store/growth_payments.go:90-137 | succeeds exactly for an owned character below the maximum with no open order; then exactly one is open: a new PENDING row at the bag price that expires after the bag timeout, defaults 10, 50 and 600 |
| `BridgeStore.BridgeJobs.ExpandWalletSlots` | internal/platform/store/marketplace.go:529-582 | the same for wallet slots of an account, defaults 5, 100 and 600 |
| `BridgeStore.BridgeJobs.CreateTradingLicensePayment` | internal/platform/store/growth_payments.go:139-178 | the same for an account without the licence, defaults 100 and 600 |
| `Tokens.Earliest` | internal/platform/store/token_spend.go:148-156 | the record found belongs to the account and still holds tokens |
| `Tokens.EarliestIsFirst` | internal/platform/store/token_spend.go:148-156 | it is first by unlock time, then by id |
| `Tokens.FifoTakesExactly` | internal/platform/store/token_spend.go:148-213 | the segments add up to the amount and each unlock time loses exactly its segments; other accounts lose nothing |
| `Tokens.FifoOrder` | internal/platform/store/token_spend.go:148-213 | segments come in unlock order and nothing that remains unlocks before something taken |
| `Tokens.FifoSucceeds` | internal/platform/store/token_spend.go:148-213 | consumption succeeds whenever the live records cover the amount |
| `Tokens.SpendTakes` | internal/platform/store/token_spend.go:70-146 | a spend removes exactly the amount, from locked, then withdrawable, then external tokens, and records the locked part by unlock time |
| `Tokens.SpendSucceedsIff` | internal/platform/store/token_spend.go:70-146 | in a sound purse a spend succeeds exactly when buckets and token balance cover it |
| `Tokens.GrantGives` | internal/platform/store/postgres.go:1736-1757 | a grant adds exactly the amount to the locked bucket, the token balance and one record |
| `Tokens.RefundReturns` | internal/platform/store/nft.go:365-416 | refunding a recorded spend succeeds and restores each bucket and each unlock time by exactly what was taken |
| `Tokens.RefundUnrecorded` | internal/platform/store/nft.go:365-416 | a fee recorded without buckets is refunded to the withdrawable bucket |
| `Tokens.RefundSucceedsIff` | internal/platform/store/nft.go:365-416 | a recorded spend is refused exactly when its buckets do not add up to the fee, a segment lacks amount or time, or the segments do not add up to the locked part |
| `Economy.FreeSlot` | internal/platform/store/postgres.go:2116-2155 | a slot found is held by no stack and no equipment |
| `EconomyOutcomes.FreeSlotIs` | internal/platform/store/postgres.go:2116-2155 | the slot found is the lowest free one below 1000; none is found exactly when all are held |
| `EconomyOutcomes.BpsRounds` | internal/platform/store/token_spend.go:25-41 | fees in basis points are rounded down, deposits up and at least 1 |
| `EconomyOutcomes.FeeUpToIs` | internal/platform/store/nft.go:29-40 | the mint fee is that of the highest rarity, not above the equipment's, that has one |
| `EconomyOutcomes.NoFeeUpTo` | internal/platform/store/nft.go:29-40 | without a configured rarity there is no fee |
| `EconomyProofs.EscrowOpens` | internal/platform/store/marketplace.go:752-862 | listing an unlisted asset keeps: LISTED exactly when one live listing names it and agrees on item, quantity and seller |
| `EconomyProofs.EscrowCloses` | internal/platform/store/marketplace.go:914-994 | delivering a listed asset and closing its listing keeps the same |
| `EconomyProofs.MintOpens` | internal/platform/store/nft.go:176-202 | a paid request keeps the agreement of locations, requests and NFT records |
| `EconomyProofs.MintEnds` | internal/platform/store/nft.go:228-363 | confirming or cancelling keeps it |
| `EconomyProofs.OneLiveNft` | internal/platform/store/nft.go:138-148 | equipment has one live NFT record while MINT_PENDING or ON_CHAIN, and none otherwise |
| `EconomyRuns.ListKeeps` | internal/platform/store/marketplace.go:240-296 | a listing takes exactly the deposit from its seller, keeps the invariant and conserves tokens and goods |
| `EconomyOutcomes.ListingOutcome` | internal/platform/store/marketplace.go:240-296 | a committed listing adds one row for the seller and character that asked, naming the asset, item and quantity offered at the price asked for with its rounded-up deposit, LISTED; earlier rows and all other goods are unchanged |
| `EconomyRuns.PartQuantity` | internal/platform/store/marketplace.go:836-857 | splitting a stack loses nothing |
| `EconomyRuns.BuyKeeps` | internal/platform/store/marketplace.go:298-428 | a purchase keeps the invariant and conserves tokens and goods |
| `EconomyRuns.BuyMoves` | internal/platform/store/marketplace.go:331-402 | the buyer pays the price and holds the asset, the seller gets price less fee plus deposit, nobody else changes, and wealth grows only by a fee above the price |
| `EconomyOutcomes.BuyOutcome` | internal/platform/store/marketplace.go:331-402 | a purchase records price, fee, burned and treasury parts at their own rates, the rest as rewards, proceeds and returned deposit, marks the listing SOLD, puts the asset into the lowest free slot, and writes nothing else but the purse |
| `EconomyOutcomes.ProceedsAreLocked` | internal/platform/store/marketplace.go:353-361 | the seller's proceeds and deposit become locked tokens that unlock exactly at the given time |
| `EconomyOutcomes.AskedPriceIsPaid` | internal/platform/store/marketplace.go:240-428 | however a run goes on after a listing, whoever buys it pays exactly the price asked, the seller gets it less the fee with the deposit, locked, and the buyer holds the asset that was offered |
| `EconomyRuns.CancelKeeps` | internal/platform/store/marketplace.go:430-487 | a cancelled listing gives the asset back to the seller's bag and moves no tokens |
| `EconomyOutcomes.CancelOutcome` | internal/platform/store/marketplace.go:430-487 | a cancel marks the listing CANCELLED, puts the asset into the lowest free slot of the seller's character, and writes nothing else |
| `EconomyRuns.MintKeeps` | internal/platform/store/nft.go:103-222 | a mint request keeps the invariant and conserves tokens and goods |
| `EconomyOutcomes.MintOutcome` | internal/platform/store/nft.go:103-222 | a mint request records the fee of the rarity, the spend, one NFT record and the equipment MINT_PENDING out of its slot, and writes nothing else |
| `EconomyRuns.ConfirmMintKeeps` | internal/platform/store/nft.go:224-290 | a confirmation keeps the invariant and moves no tokens |
| `EconomyOutcomes.ConfirmMintOutcome` | internal/platform/store/nft.go:224-290 | a confirmation succeeds exactly for a PAID or CONFIRMED request; it puts the equipment ON_CHAIN with its record, and nothing happens the second time |
| `EconomyRuns.CancelMintKeeps` | internal/platform/store/nft.go:292-363 | a cancelled mint keeps the invariant and gives back bucket by bucket what the request recorded |
| `EconomyOutcomes.CancelMintOutcome` | internal/platform/store/nft.go:292-363 | a cancelled mint cancels request and record, puts the equipment into the lowest free slot of its character's bag, and writes nothing else but the refund |
| `EconomyRuns.StepKeeps` | internal/platform/store/marketplace.go:240-487 | every step of market or minting keeps the invariant and conserves |
| `EconomyRuns.RunKeeps` | internal/platform/store/marketplace.go:240-487 | over every run: escrow, minting, distinct bag slots, positive stacks, sales, capacity; goods, token gaps and wealth conserved; finished records unchanged |
| `EconomyRuns.WealthConservedIff` | internal/platform/store/marketplace.go:331-364 | a run conserves tokens exactly when no sale in it has a fee above its price |
| `EconomyTheorems.ListedEquipment` | internal/platform/store/marketplace.go:752-794 | in every reachable state equipment is LISTED exactly when one live listing names it |
| `EconomyTheorems.ListedStack` | internal/platform/store/marketplace.go:796-862 | the same for stacks, with equal item and quantity |
| `EconomyTheorems.MintLifecycle` | internal/platform/store/nft.go:103-363 | in every reachable state MINT_PENDING has exactly one PAID request, ON_CHAIN exactly one CONFIRMED request, and at most one NFT record is live |
| `EconomyTheorems.BuyConservesIff` | internal/platform/store/marketplace.go:331-364 | a purchase conserves tokens exactly when the fee is at most the price |
| `EconomyTheorems.FeeWithinPriceIff` | internal/platform/store/token_spend.go:25-30 | the fee is within every price exactly when it is at most 10000 basis points |
| `EconomyTheorems.WealthConserved` | internal/platform/store/marketplace.go:266-364 | with at most 10000 basis points every run keeps balances + deposits of LISTED and CANCELLED listings + fees of SOLD listings + mint fees kept constant |
| `EconomyTheorems.MintRefundExact` | internal/platform/store/nft.go:292-416 | however a run goes on, cancelling returns to each bucket and unlock time exactly what the request took, to the payer |
| `EconomyTheorems.MintThenCancelRestores` | internal/platform/store/nft.go:292-416 | a request cancelled at once leaves all balances and all unlock totals as before |
| `EconomyTheorems.DeliverSucceedsIff` | internal/platform/store/marketplace.go:914-994 | delivering a live listing fails only for want of a free slot |
| `EconomyTheorems.ListSucceedsIff` | internal/platform/store/marketplace.go:240-296 | a listing succeeds exactly when allowed, owned, priced at the minimum or above, below capacity, the deposit affordable and the goods own, stored, unbound, tradable and sufficient, with the defaults spelled out |
| `EconomyTheorems.LockItemTakes` | internal/platform/store/marketplace.go:796-862 | the slot asked for gives exactly the quantity asked for, and exactly that much of the item goes on sale |
| `EconomyTheorems.MintSucceedsIff` | internal/platform/store/nft.go:103-222 | a mint request succeeds exactly for own stored equipment of sufficient rarity with an affordable fee: the check for an existing NFT record never refuses |
| `EconomyTheorems.BuySucceedsIff` | internal/platform/store/marketplace.go:298-428 | a purchase succeeds exactly when the listing is live, not one's own, affordable, and a slot is free |
| `EconomyTheorems.CancelSucceedsIff` | internal/platform/store/marketplace.go:430-487 | a cancel succeeds exactly for the seller of a live listing with a free slot |
| `EconomyTheorems.CancelMintSucceedsIff` | internal/platform/store/nft.go:292-363 | a mint cancel succeeds exactly for the payer of a PAID request with a free slot: the snapshot is never inconsistent |
| `EconomyTheorems.FeeSplitIff` | internal/platform/store/marketplace.go:332-338 | burn, treasury and rewards add up to the fee at every price exactly when the configured shares do not exceed the fee |
| `EconomyTheorems.FreshIsSound` | internal/platform/store/marketplace.go:240-296 | tables without listings and requests satisfy the invariant |
| `EconomyExample.FeeAbovePriceMakesTokens` | internal/platform/store/marketplace.go:331-364 | a sound state with one listing, its deposit paid, and a purchase at 20000 basis points after which 10000 tokens more are accounted for |
| `EconomyStore.SelectLocks` | internal/platform/store/token_spend.go:148-176 | the ordered result set: every usable record once, by unlock time and id |
| `EconomyStore.MintFeeForRarity` | internal/platform/store/nft.go:29-40 | in every map order the loop finds the fee of the highest configured rarity not above the given one |
| `EconomyStore.MarketStore.ConsumeLockedTokenFifo` | internal/platform/store/token_spend.go:148-213 | one pass over the ordered result set equals taking the earliest record again and again |
| `EconomyStore.MarketStore.SpendTokenInTx` | internal/platform/store/token_spend.go:70-146 | the spend in place equals its specification |
| `EconomyStore.MarketStore.RefundMintFee` | internal/platform/store/nft.go:365-416 | the segment loop and the bucket update equal the refund specification |
| `EconomyStore.MarketStore.ResolveStorageSlot` | internal/platform/store/postgres.go:2116-2137 | the loop finds the first free slot below 1000, or there is none |
| `EconomyStore.MarketStore.LockEquipmentForListing` | internal/platform/store/marketplace.go:752-794 | locking equipment in place equals its specification |
| `EconomyStore.MarketStore.LockItemForListing` | internal/platform/store/marketplace.go:796-862 | locking or splitting a stack in place equals its specification |
| `EconomyStore.MarketStore.MarketplaceCreateListing` | internal/platform/store/marketplace.go:240-296 | the transaction equals its specification or changes nothing |
| `EconomyStore.MarketStore.TransferListedAsset` | internal/platform/store/marketplace.go:914-994 | delivery in place equals its specification |
| `EconomyStore.MarketStore.MarketplaceBuy` | internal/platform/store/marketplace.go:298-428 | the transaction equals its specification or changes nothing |
| `EconomyStore.MarketStore.MarketplaceCancel` | internal/platform/store/marketplace.go:430-487 | the transaction equals its specification or changes nothing |
| `EconomyStore.MarketStore.CheckMint` | internal/platform/store/nft.go:110-148 | the checks, with the fee found by the map loop, equal their specification |
| `EconomyStore.MarketStore.RequestNftMint` | internal/platform/store/nft.go:103-222 | the transaction equals its specification or changes nothing |
| `EconomyStore.MarketStore.ConfirmNftMint` | internal/platform/store/nft.go:224-290 | a success leaves the request CONFIRMED and its record MINTED, touches no other request and no tokens, and repeating it changes nothing; a failure changes nothing |
| `EconomyStore.MarketStore.CancelNftMint` | internal/platform/store/nft.go:292-363 | the transaction equals its specification or changes nothing |
| `Storage.SplitPairScan` | internal/platform/store/inventory.go:392-399 | the scan splits at the first bar |
| `Storage.SplitJoinIff` | internal/platform/store/inventory.go:392-399 | a key gives back its item and binding exactly when the item id has no bar; otherwise the binding has one |
| `Storage.GroupStacks` | internal/platform/store/inventory.go:192-205 | the accumulated map holds each key's total quantity |
| `Storage.SplitGroup` | internal/platform/store/inventory.go:232-245 | the pieces are positive, full but for the last, add up to the total, and are as few as possible |
| `Storage.MergeGroups` | internal/platform/store/inventory.go:222-246 | in every map order each pair gets its total in the fewest stacks, at most one of them with room left |
| `Storage.BarIsRefused` | migrations/aeonblight_full_schema.sql:434-435 | an item id with a bar makes a stack whose binding the table's constraint refuses |
| `Storage.FewestStacks` | internal/platform/store/inventory.go:222-246 | a layout with the fewest stacks of each pair is no longer than any legal layout of the same items |
| `Storage.PlanStacks` | internal/platform/store/inventory.go:192-252 | the sorted stacks to insert are a lossless legal layout no other undercuts, or hold a refused binding, and which of the two depends on bars only |
| `Storage.StorageTable.OrganizeStorage` | internal/platform/store/inventory.go:174-324 | succeeds exactly when no item id has a bar and some legal layout fits beside the equipment; then sorted, lossless, minimal, slots 0 to n-1 with equipment after, stacks of 1 for items that do not stack and of at most 999 for others, at most one per item and binding not full; otherwise nothing changes |
| `Materials.SelectStacks` | internal/platform/store/inventory.go:326-352 | the result set holds each bag row of the item once, by slot with missing slots last, then by id |
| `Materials.Bag.ConsumeBagItem` | internal/platform/store/inventory.go:326-390 | succeeds exactly when a positive quantity is covered; then takes exactly it, earliest slots first, and touches nothing else |
| `Materials.Bag.ConsumeInputs` | internal/platform/store/inventory.go:148-157 | succeeds exactly when all inputs are positive and each item's total covers the sum of its inputs, repeats included; lowers each total by exactly that; otherwise nothing changes |
| `Base58.ChangeBaseBack` | internal/chain/solana.go:77-125 | changing the base and back is the identity on digits, leading zeros included, for any two bases |
| `Base58.DecodeEncode` | internal/chain/solana.go:77-125 | decoding the encoding of any non-empty byte string gives it back |
| `Base58.EncodeDecode` | internal/chain/solana.go:77-125 | encoding what any accepted text decodes to gives the text without surrounding white space |
| `Base58.RoundTrips` | internal/chain/solana.go:12-125 | both round trips for the alphabet in use |
| `Base58.AlphabetIsOne` | internal/chain/solana.go:12 | the alphabet is the rising row of the numerals, capitals and small letters without 0, O, I and l: 58 different characters, none of them white space |
| `Base58.ReverseInPlace` | internal/chain/solana.go:121-123 | the in-place loop reverses the buffer |
| `Base58.DecodeBase58` | internal/chain/solana.go:77-100 | the decoding loops equal the specification, errors included |
| `Base58.EncodeBase58` | internal/chain/solana.go:102-125 | the encoding loops equal the specification |
| `Timeline.LabelInjective` | internal/platform/store/admin_characters.go:597-603 | different rows have different ids on the page |
| `Timeline.RankIsIndex` | internal/platform/store/admin_characters.go:518-523 | a row's position in the merge is the number of newer rows |
| `Timeline.PageRightIff` | internal/platform/store/admin_characters.go:486-532 | the page from the newest limit + offset rows of each source is the slice of the full merge exactly when each dropped row tied with its source's cut has at least that many newer rows |
| `Timeline.DistinctTimesAreClean` | internal/platform/store/admin_characters.go:573-586 | different times within each source make the page right |
| `Timeline.HugeOffset` | internal/platform/store/admin_characters.go:487-527 | an offset whose sum with the limit wraps gives the empty page, which is right |
| `Timeline.TieGivesTheWrongPage` | internal/platform/store/admin_characters.go:518-523 | two ledger rows of one instant for which the page is wrong |
| `Timeline.AdminCharacterTimeline` | internal/platform/store/admin_characters.go:473-533 | the handler's page, total, offset and limit (50 by default, at most 200), and exactly when its page is right |
| `Affixes.PicksPerRow` | internal/economy/rules/config.go:2088-2109 | of all picks exactly `weight` many select an eligible row, and none another row |
| `Affixes.ChosenIff` | internal/economy/rules/config.go:2099-2107 | a pick selects a row exactly when it falls into the row's share |
| `Affixes.WeightedEligibleAffix` | internal/economy/rules/config.go:2088-2109 | draws an eligible row, and none exactly when no weight is left |
| `Affixes.RollEquipmentAffixes` | internal/economy/rules/config.go:1917-1941 | for every sequence of picks no id occurs more than twice and the roll has min(count, twice the ids with positive weight) entries |
| `Filter.MoreArguments` | internal/platform/store/admin_compensation.go:93-123 | later arguments do not change what earlier clauses say |
| `Filter.AddIf` | internal/platform/store/admin_compensation.go:95-110 | a clause with its argument adds exactly its condition, and a missing one adds nothing |
| `Filter.AddProgress` | internal/platform/store/admin_compensation.go:111-115 | the progress clause is lexicographic in chapter and floor |
| `Filter.CompensationWhere` | internal/platform/store/admin_compensation.go:86-123 | refused exactly for negative or contradictory bounds; otherwise the clauses never fail, select exactly the rows that satisfy the filter under three-valued logic, use placeholders in range and use every argument |

## Left out

- HTTP handlers, drivers, configuration loading, signatures, JSON and SQL text: plumbing around the modelled steps.
- Idempotent replay of an operation id (`runIdempotentAction`): each step is a first execution; a replay returns the stored answer and would add no step.
- Market switches that touch none of the modelled tables (enabled, licence, restrictions, daily limits, purchase cooldown): one parameter `allowed` per action.
- The hot-wallet check and the paused state of payouts: they only decide whether the submission job runs.
- The number, order and skipped locks of the rows a batch selects: left open, so the results hold for every selection.
- The cursor's slot numbers and lag, and the counters of a scan's report: bookkeeping that no decision reads.
- The EXPIRED order status, the REQUESTED and SUBMITTED mint statuses and the LOCKED listing status: no modelled operation leaves a row in them.
- Time zones: `Hour` and `Day` are buckets of one zone, while the source compares each time in its own location (internal/platform/store/store.go:2535-2551).
- Where income comes from: in runs of withdrawals a step may raise any withdrawable balance by any amount.
- Hard deletion of characters and accounts, and gaps in serial ids: rows are never removed, and characters are only marked deleted.
- 64-bit overflow of `amount * bps`, of affix weights and of stack totals: unbounded integers; the wrap-around is modelled for raw amounts, divisors and the timeline's fetch limit.
- Reading the types of a timeline request, and the default slot limits of the organize handlers: the selected sources and the limit are parameters.
- Shops, lotteries and bounties behind a payment order: whether their own code delivers is a parameter.
- `EffectiveBagSlots`, material slot expansion, rewards of a recipe and stat resolution: they would only add easy members.
- Bounties and presence counts: not part of this model.
- `Credits.AmountRoundTrip`: requires an amount below 2^63, which is the type of the source's parameter.
- `Timeline.AdminCharacterTimeline`: requires fewer than 2^63 - 200 rows in all; the source's own counts are 32-bit.
