# Verified models of the cluster benchmarks, publishing order and CLI accounting

A Dafny model of the algorithms in this repository whose correctness spans several
functions or whole runs:

- how bench-tps generates keys, computes what they need and funds them down a 4-ary tree
  (`FundingPlan`), how its retry protocol carries that out against a cluster that may execute
  every signed copy it was sent, once, at any time until its blockhash is too old
  (`FundingProtocol`, `FundingProgress`), and exactly where that stops being safe: spends that
  repeat or are passed over (`FundingLimits`, `FundingRepeats`), balances that are not exact
  (`FundingExact`) and runs that cannot be completed (`FundingWedge`);
- the transfers bench-tps generates, over any number of rounds (`Transfers`), and the queue
  between its generator and its sender threads (`SenderQueue`);
- the order in which workspace crates are published (`PublishOrder`);
- the pending list, the ids and the account seeds of accounts-cluster-bench (`Executor`,
  `AccountSeeds`);
- the retry queue of the banks server (`RetryService`);
- block-production accounting, token amounts and signer lists of the command line tools
  (`BlockProduction`, `TokenAmount`, `Signers`).

`Slices`, `Arithmetic` and `Options` hold shared helpers. `dafny verify dfyconfig.toml` checks everything.

Code that works by changing things step by step is a method with loops, or a class where the
source has an object (`Executor.TransactionExecutor`, `RetryService.SendTransactionService`).
Threads and the network are state machines: a type of events, when each is possible, and what
it does to the state, one event per lock or atomic access. A run is any sequence of possible
events, and the theorems about runs hold for all of them.

What is assumed of the world outside the modelled code is stated where it is used: generated
keys are distinct; a balance query answers truthfully or fails; the cluster charges any fee from
the minimum to the maximum of the fee rate (sdk/program/src/fee_calculator.rs:112-113, where one
fixed fee is minimum and maximum at once, 155-157) and executes a transaction's transfers together
or not at all, but keeps the fee of one that fails (runtime/src/bank.rs:3454-3466); a copy that was
charged never executes again (runtime/src/bank.rs:2834-2860) and one whose blockhash is too old
never executes at all (runtime/src/bank.rs:2802-2832), while every signing makes a new copy, as it
does once the blockhash has moved on; a status request gets one status per signature; the RPC
service lists blocks in increasing order inside the range asked for. Clocks, ages and answers are
inputs.

Lamports, slots and counts are unbounded naturals. Unsigned subtractions are modelled as such:
`fund_keys` has an explicit outcome for each that would go below zero, and the age of a pending
signature wraps around at 2^64. Additions and products are assumed to stay in 64 bits; for
funding that means the total itself, since every other amount is at most the total and at most
four times the requested keys are generated.

## Findings

Five things the source says or implies hold only under a condition. Each is stated as an
if-and-only-if over runs.

- The comment on `fund_keys` says a transfer can be replayed because its source is "either empty,
  or full" (bench-tps/src/bench.rs:671-673). A transaction that was executed but not yet seen is
  signed and sent again, and then both copies can spend. `RepeatsIff` shows that some spend runs
  twice in some run exactly when some funder is allotted two of its spends and two minimum fees, and
  `MostRuns` gives the greatest number of times each spend can run. The funding key is not limited to
  the total, so it alone can be such a funder (`SourceReplayedIff`). Among new keys there is such a
  funder exactly when the maximum fee is at least three times the lamports per account plus twice the
  minimum fee (`NewKeysRepeatIff`); with one fixed fee and positive lamports there is none.
- A transaction is dropped when the first query over its account keys that answers at all answers
  with enough (bench-tps/src/bench.rs:497-505), and the last of those keys is the system program.
  `UnrunPassedIff` shows that `fund` returns in some run although a spend never ran exactly when the
  system program, or a destination beforehand, holds the spend's amount.
- The tests expect every key to hold exactly the lamports per account when funding has returned
  (bench-tps/src/bench.rs:989-991). With a fixed fee and new keys that holds in every run that returns
  exactly when the system program holds less than the lamports per account, the funding key cannot
  pay twice, and no other funder can be charged for a replay: there is none, there is no fee, or the
  amount does not cover one (`ExactUnderFixedFeeIff`). In that test the fee is 11 and the amount 20,
  so the expectation depends on no replay being charged.
- Keys are reused from one execution to the next (bench-tps/src/bench.rs:879-893), so funding can
  start with money left over from an earlier, interrupted one. `NeverWedgedIff` shows that `fund_keys`
  can still return from every state of every run exactly when each funder whose own funder can be
  passed over unrun can be passed over itself or already holds enough for its spend at any fee. New
  keys always meet that.
- Without `sustained`, the generator waits for an empty queue and a zero active count before the
  next round (bench-tps/src/bench.rs:141-145). A sender takes its batch before it counts itself
  in, so the wait can end with a batch unsent; it ends with none unsent exactly when no sender is
  between the two (`BarrierIff`, with a run in `BarrierLeaks`).

A smaller one: the nonce authority lookup of the transfer command can fail when an authority is
named without a nonce account, a combination the argument parser rules out (`TransferIndicesIff`).

## Model

| member | source | states |
|---|---|---|
| FundingPlan.GenerateKeypairs | bench-tps/src/bench.rs:857-864 | the key count is four times the count of extra fees, the least complete 4-ary tree that covers the request, and at most four times the request |
| FundingPlan.TotalIsTopLevel | bench-tps/src/bench.rs:893-897 | the computed total is the closed form of what the whole tree needs, level by level |
| FundingPlan.FundingIsExact | bench-tps/src/bench.rs:689 | with that total, in every round four payouts, the amount kept and one fee make up the funds exactly, and the last round pays exactly the lamports per account |
| FundingPlan.GeneratedTotalIsAffordable | bench-tps/src/bench.rs:689 | no subtraction of any round goes below zero |
| FundingPlan.SpendRound | bench-tps/src/bench.rs:690-696 | each funder pays the next four keys from the end, its four children in the tree; it runs short exactly when fewer than four keys per funder are left |
| FundingPlan.FundKeys | bench-tps/src/bench.rs:674-714 | the loop gets through if and only if the keys fill a complete tree and the total affords every round; it then asks for the spends of a complete heap, in batches that respect the rounds and hold 8192 spends, or fewer at the end of a round |
| FundingPlan.EveryKeyFundedOnce | bench-tps/src/bench.rs:682-713 | over all rounds every key is paid exactly as often as it is listed as a destination, once each when they are distinct |
| FundingPlan.FundersWereFunded | bench-tps/src/bench.rs:687-711 | every funder but the source was paid by an earlier spend, one round before |
| FundingPlan.RoundsArePowers | bench-tps/src/bench.rs:685-713 | round i consists of exactly the 4^i spends from number (4^i - 1) / 3 on |
| FundingProtocol.GenerateAndFund | bench-tps/src/bench.rs:876-916 | for every count, amount and fee, key generation, total and funding fit: nothing underflows and the batches are a complete plan |
| FundingProtocol.BatchesAgree | bench-tps/src/bench.rs:698-708 | the chunks handed to `fund` never hold a funder together with the spend that pays it |
| FundingProtocol.VerifyFundingTransfer | bench-tps/src/bench.rs:497-505 | the first query that answers decides, and a transfer none of whose queries answers is not verified |
| FundingProtocol.ExecuteAt | runtime/src/bank.rs:3453-3470 | what one execution does to the balance, fees, run count and unexecuted copies of every key: nothing without the fee, the fee alone, or fee and all four transfers; a charged copy is used up |
| FundingProtocol.EveryRunKeepsLedger | bench-tps/src/bench.rs:529-558 | conservation in every run of every plan, whatever repeats: each key's balance is its start and one amount per run that paid it, less four amounts per own run and the fees; each run was charged at least the minimum; only funders run or pay |
| FundingProtocol.ObservedIsDone | bench-tps/src/bench.rs:613-653 | truthful answers that verify a spend prove that it ran, unless the system program or a destination held its amount beforehand |
| FundingProtocol.EveryRunKeepsInv | bench-tps/src/bench.rs:529-558 | in every run of every plan a spend is pending only in its own batch, was neither sent, run nor charged before it, and once dropped, verified or passed it has run or can be faked |
| FundingProtocol.NoSecondLanding | bench-tps/src/bench.rs:671-673 | a spend that has run cannot be afforded again at any fee, if no funder is allotted two |
| FundingProtocol.ReplaySafety | bench-tps/src/bench.rs:529-558 | then no spend runs twice in any run, whatever the cluster does and whatever verification is told |
| FundingProtocol.FinalBalances | bench-tps/src/bench.rs:966-973 | if moreover verification cannot be fooled, then when `fund_keys` returns, leaves have gained exactly the lamports per account and funders hold it plus the fee allowance less the fees charged |
| FundingProgress.FirstLanding | bench-tps/src/bench.rs:671-673 | a spend that has not run goes through when it lands, whatever the fee, if the funding key held the total |
| FundingProgress.ReachBatch | bench-tps/src/bench.rs:698-711 | every call of `fund` is reached by some run that has carried out all earlier spends and touched no later one |
| FundingLimits.RepeatsIff | bench-tps/src/bench.rs:543-557 | some spend runs twice in some run if and only if some funder is allotted two of its spends and two minimum fees |
| FundingLimits.SourceReplayedIff | bench-tps/src/bench.rs:671-673 | the funding key's spend can run twice in some run if and only if it holds two spends and two minimum fees |
| FundingLimits.NewKeysRepeatIff | bench-tps/src/bench.rs:671-673 | with new keys, some spend runs twice in some run if and only if the funding key holds two spends and two minimum fees, or there are other funders and the maximum fee reaches three times the lamports per account plus twice the minimum |
| FundingLimits.UnrunPassedIff | bench-tps/src/bench.rs:497-505 | some run lets `fund` return with a given spend never run if and only if the system program, or a destination beforehand, holds its amount |
| FundingRepeats.MostRuns | bench-tps/src/bench.rs:543-557 | the greatest number of times a spend runs in any run, reached by some run: what its funder can most be given, by its start and its own funder's greatest runs, divided by the cost of one run; any number if a run costs nothing |
| FundingExact.ExactUnderFixedFeeIff | bench-tps/src/bench.rs:976-992 | with any fixed fee and new keys, every run in which `fund_keys` has returned leaves every destination with exactly the lamports per account, if and only if verification cannot be fooled, the funding key cannot pay twice and no other funder can be charged again, or nothing is paid at all |
| FundingWedge.NeverWedgedIff | bench-tps/src/bench.rs:530-558 | whatever the keys held beforehand, every run can be continued until `fund_keys` returns, if and only if every funder whose own funder can be passed over can be passed over itself or holds enough for its spend at any fee |
| Transfers.MakeChunks | bench-tps/src/bench.rs:213-219 | chunks are consecutive stretches of the keys, first half sources, second half destinations, all keys different, the short tail dropped |
| Transfers.NetOfRound | bench-tps/src/bench.rs:327-348 | in one round each destination gains one lamport and each source loses one, the other way round when reclaiming, and nobody else is touched |
| Transfers.GenerateChunkedTransfers | bench-tps/src/bench.rs:119-159 | transfer by transfer: round r joins source i of chunk r modulo the chunks to the destination as many places on as there were complete sweeps, and the destination pays in every other sweep |
| Transfers.TransfersAgreeIff | bench-tps/src/bench.rs:148-158 | two transfers of any rounds join the same accounts if and only if they are the same position of the same chunk and the sweeps agree modulo the chunk size; identical if and only if also modulo two |
| Transfers.NoRepeatedTransfer | bench-tps/src/bench.rs:148-150 | rounds fewer than tx_count sweeps apart share no pair of accounts in either direction |
| Transfers.RunConserves | bench-tps/src/bench.rs:121-159 | after any number of rounds a source is down and a destination up by the parity of its chunk's uses |
| Transfers.OutsidersUntouched | bench-tps/src/bench.rs:216-219 | keys in no chunk are never touched |
| Transfers.EvenSweepsRestore | bench-tps/src/bench.rs:155-158 | after an even number of sweeps every account is where it began |
| SenderQueue.GenerateTxs | bench-tps/src/bench.rs:384-391 | fails if and only if there are fewer transactions than threads; otherwise pushes between threads and 2 * threads - 1 batches whose concatenation is the input, all of a thread's equal share but the last, which is not empty and no larger |
| SenderQueue.BatchCount | bench-tps/src/bench.rs:384-385 | one round makes at least one batch per thread and at most 2 * threads - 1 |
| SenderQueue.AtMostOnce | bench-tps/src/bench.rs:448-479 | in every interleaving each generated transaction is in exactly one of queued, held, sent, skipped, discarded; the active count is the number of senders between its updates; the total trails by what is untallied |
| SenderQueue.QueueBounded | bench-tps/src/bench.rs:135-145 | in every run the queue holds at most 4 * threads - 1 batches in sustained mode and 2 * threads - 1 otherwise, where a round starts on an empty queue |
| SenderQueue.QueueBoundReached | bench-tps/src/bench.rs:135-145 | both bounds are reached by some run, for any number of threads |
| SenderQueue.FirstInFirstOut | bench-tps/src/bench.rs:448-477 | in every run the batches that left the queue, as the senders got them or cleared them, followed by those still queued are all that were pushed, in order |
| SenderQueue.BarrierIff | bench-tps/src/bench.rs:141-145 | when the wait ends, nothing is left to send if and only if no sender is between taking a batch and announcing itself |
| SenderQueue.BarrierLeaks | bench-tps/src/bench.rs:448-453 | a run in which the wait ends with a batch taken and unsent |
| SenderQueue.SkipForcesClear | bench-tps/src/bench.rs:461-477 | a sender that finds a transaction too old cannot leave its batch without clearing the queue |
| SenderQueue.ClearNeedsSkip | bench-tps/src/bench.rs:474-477 | in every run the queue is only cleared by a sender that skipped something |
| PublishOrder.ReadMetadata | ci/order-crates-for-publishing.py:27-33 | one entry per package name with its last dependencies and manifest, only solana dependencies kept |
| PublishOrder.FindDirectCycles | ci/order-crates-for-publishing.py:36-46 | the reported pairs are exactly the packages that depend on each other |
| PublishOrder.TakeRound | ci/order-crates-for-publishing.py:59-69 | a round takes exactly the packages with no dependency left, in order, and keeps the others in order |
| PublishOrder.RoundKeepsOrdering | ci/order-crates-for-publishing.py:51-69 | ordered and remaining packages together stay a permutation of all, with dependencies first |
| PublishOrder.OrderedIsAcyclic | ci/order-crates-for-publishing.py:3-5 | a complete order with dependencies first excludes every cycle |
| PublishOrder.StuckHasCycle | ci/order-crates-for-publishing.py:53-55 | a non-empty set in which everyone waits for a member contains a cycle |
| PublishOrder.OrderDependencies | ci/order-crates-for-publishing.py:49-69 | everything is ordered if and only if there is no cycle, then within n rounds; otherwise the remainder is stuck and holds every stuck set |
| PublishOrder.GetPackages | ci/order-crates-for-publishing.py:24-72 | an order comes back if and only if the workspace is acyclic, a permutation with manifests and every dependency earlier; otherwise exactly the mutually dependent pairs, or the largest set in which everyone waits for a member |
| Executor.FetchStatuses | accounts-cluster-bench/src/main.rs:191-200 | every status stands at the index of its own signature, across the requests of 200 |
| Executor.ClearSettled | accounts-cluster-bench/src/main.rs:201-229 | removal while scanning equals a filter: retained entries and cleared ids in original order; the three counters are the numbers of successes, errors and timed-out entries, and add up to the removed |
| Executor.IsGone | accounts-cluster-bench/src/main.rs:207-221 | an entry leaves if its status is known; without one, if and only if now is more than 30,000 ms after it was sent, modulo 2^64 when it was sent after now |
| Executor.StepKeepsInv | accounts-cluster-bench/src/main.rs:137-232 | each push, scan, publication and drain keeps every id in one place and the list in order of issue |
| Executor.IdsConserved | accounts-cluster-bench/src/main.rs:137-232 | over every interleaving each issued id is in exactly one of send-failed, outstanding, in transit, cleared, drained |
| Executor.TransactionExecutor.PushTransactions | accounts-cluster-bench/src/main.rs:137-155 | one fresh consecutive id per transaction even when sends fail; the accepted ones appended in order, each with its own signature, send time and id, and nothing else |
| Executor.TransactionExecutor.ScanSignatures | accounts-cluster-bench/src/main.rs:187-231 | one locked pass splits the list by each entry's own status and age |
| Executor.TransactionExecutor.PublishCleared | accounts-cluster-bench/src/main.rs:232 | the removed ids are appended to the cleared list |
| Executor.TransactionExecutor.DrainCleared | accounts-cluster-bench/src/main.rs:157-159 | returns and empties the cleared list |
| AccountSeeds.MakeCreateMessages | accounts-cluster-bench/src/main.rs:273-307 | each instruction takes the next unused seed |
| AccountSeeds.MakeCloseMessages | accounts-cluster-bench/src/main.rs:487-501 | closes consecutive seeds up to the expected number and no further |
| AccountSeeds.RunIteration | accounts-cluster-bench/src/main.rs:446-509 | tops the outstanding signatures up by the largest equal chunk per payer that fits the batch, then closes what is owed: whole batches, and one more would be too many; counters and totals stay equal |
| AccountSeeds.RunAccountsBench | accounts-cluster-bench/src/main.rs:409-509 | after any iterations the accounts closed are a whole number of batches, close_nth_batch times as many were created, and one batch more would be too many; none are closed when closing is off |
| AccountSeeds.ClosedAfterCreated | accounts-cluster-bench/src/main.rs:480-501 | a close message is for a seed whose create message was built before it |
| AccountSeeds.CloseNeverOvertakes | accounts-cluster-bench/src/main.rs:481-486 | in every state close_nth_batch times the closed accounts is at most the created ones |
| AccountSeeds.EachSeedOnce | accounts-cluster-bench/src/main.rs:281-329 | no seed is created twice or closed twice |
| RetryService.SendTransactionService.Receive | banks-server/src/send_transaction_service.rs:74-85 | sends at once; below 10,000 entries it is queued under its signature, otherwise nothing changes; every other entry stays |
| RetryService.SendTransactionService.ProcessTransactions | banks-server/src/send_transaction_service.rs:112-163 | an entry stays if and only if it is not rooted, not past its last valid slot and not known to have failed, and is resent if and only if moreover nothing is known of it; each counter is the number of its kind, five adding up to the old size and two to the new |
| RetryService.EveryRunIsWellKept | banks-server/src/send_transaction_service.rs:71-107 | over every run at most 10,000 entries, each under its own signature |
| RetryService.NoLateResend | banks-server/src/send_transaction_service.rs:127-145 | in every run nothing is resent but what was received under that signature, and never past its last valid slot |
| RetryService.Survivor | banks-server/src/send_transaction_service.rs:121-146 | an entry still queued was never rooted or expired at any pass since it arrived |
| RetryService.LifetimeBounded | banks-server/src/send_transaction_service.rs:127-131 | under advancing roots an entry not received again sits through at most as many passes as it has slots left |
| RetryService.ResendsBounded | banks-server/src/send_transaction_service.rs:133-145 | and is resent at most that often |
| BlockProduction.StartSlot | cli/src/cluster_query.rs:1160-1164 | the earliest slot that is in the epoch and within the limit of the end |
| BlockProduction.CollectFound | cli/src/cluster_query.rs:1185-1187 | exactly the window's slots found in the slot history, increasing |
| BlockProduction.ChooseBlocks | cli/src/cluster_query.rs:1181-1219 | slot history when it reaches from the first to the last slot of the window, otherwise the ledger from the later of the window's and its own first slot; fails if and only if neither reaches the window |
| BlockProduction.LeaderPerSlot | cli/src/cluster_query.rs:1238-1247 | every slot of the window gets the leader listed for it, or none |
| BlockProduction.OwnerIsTheLeader | cli/src/cluster_query.rs:1240-1247 | over a disjoint schedule that leader does not depend on the order the schedule is walked |
| BlockProduction.InvertSchedule | cli/src/cluster_query.rs:1018-1026 | the inverted schedule names the leader of every index up to the highest listed |
| BlockProduction.AdvancePointer | cli/src/cluster_query.rs:1262-1277 | the pointer passes exactly the earlier blocks and finds the slot if and only if it is listed |
| BlockProduction.MergeSlots | cli/src/cluster_query.rs:1254-1286 | one status per slot in order, skipped if and only if no block is there; per-leader tables exact, slots summing to the window and skips to the window less the blocks |
| BlockProduction.LeaderEntries | cli/src/cluster_query.rs:1290-1302 | slots, skipped slots and blocks of each leader, with no subtraction below zero |
| BlockProduction.FitsWindow | cli/src/cluster_query.rs:1223-1226 | the assertion on the number of blocks cannot fail |
| BlockProduction.ShowBlockProduction | cli/src/cluster_query.rs:1154-1314 | the report ends at the epoch's last slot or the node's current one, whichever is earlier; it agrees slot by slot with schedule and blocks, and the leaders' figures add up to its totals |
| TokenAmount.FixedPointSpells | account-decoder/src/parse_token.rs:161-172 | read back without its point the fixed-point form is the amount, with exactly `decimals` digits after one point |
| TokenAmount.TrimStep | account-decoder/src/parse_token.rs:174-181 | trimming removes exactly the zero decimals, one at a time, and the point when none is left |
| TokenAmount.TrimmedKeepsValue | account-decoder/src/parse_token.rs:174-181 | the trimmed form spells a number of the same value and ends neither in a point nor in a fractional zero |
| TokenAmount.TrimmedIsCanonical | account-decoder/src/parse_token.rs:174-181 | two amounts under any decimals print the same if and only if they are the same number |
| TokenAmount.PrintingIsInjective | account-decoder/src/parse_token.rs:161-181 | for fixed decimals both forms are injective |
| TokenAmount.UiAmountAgrees | account-decoder/src/parse_token.rs:192-222 | what the converted amount prints, from its text or its cache, is what the amount prints |
| Signers.GenerateUniqueSigners | clap-utils/src/keypair.rs:137-159 | fails if and only if a needed default is missing; otherwise each key once, held by the signer that had it first, in the order in which keys first appear in the default followed by the named signers |
| Signers.NamedInOrder | clap-utils/src/keypair.rs:143-157 | the named signers are exactly the named entries of the list that was given, by increasing position |
| Signers.IndexOf | clap-utils/src/keypair.rs:63-71 | a named key is found if and only if it is in the list, at its first position; no key asked for gives 0 |
| Signers.IndexingFaithful | clap-utils/src/keypair.rs:143-158 | keys are distinct, and every supplied entry's index holds a signer with its key, the default's for an unnamed one |
| Signers.TransferIndicesIff | cli/src/cli.rs:905-932 | the fee payer and sender lookups never fail; the nonce authority's fails only when named without a nonce account and absent otherwise |

## Left out

- RPC, UDP, web socket and thread plumbing, sleeps and timers: only their results appear, as inputs or events.
- Key generation, signing, blockhashes, hardware wallets and account decoding: keys and signatures are opaque and distinct.
- FundingProtocol.GenerateAndFund: does not model the sampling of the first and last key that decides whether funding is needed, the airdrop, or the final truncation of the key list.
- FundingProtocol.EveryRunKeepsInv: the failure counter that makes a verify pass give up early is covered as observations that do not happen; timing is covered as copies that execute late, expire or never execute.
- FundingProtocol.FinalBalances: says nothing of runs in which a spend repeats or is passed over; `RepeatsIff` and `UnrunPassedIff` say exactly when there are such runs.
- SenderQueue.AtMostOnce: transactions are distinct ids; that generated transactions differ from round to round is `Transfers.TransfersAgreeIff` together with the blockhash.
- Executor.TransactionExecutor.ScanSignatures: the wrap-around of an age below zero is that of a build without overflow checks; with checks the source panics there.
- AccountSeeds.RunAccountsBench: balances, airdrops, logging and the parallel order in which seeds land in messages are not modelled.
- BlockProduction.ShowBlockProduction: entries are keyed by leader label; their final sort by label, the epoch argument check and all text output are left out.
- TokenAmount.UiAmountAgrees: the floating-point `ui_amount` is left out.
- `slice_data`, monikers, setting precedence, fee and spend checks, and the other benchmark drivers are not modelled: each is a few lines of case distinction, with no state and no property that spans functions.
