# exfer-walletd: a verified model

A Dafny model of the parts of the wallet daemon that move or account for money, with proofs of what
they promise. `dafny verify dfyconfig.toml` checks all of it.

## What is here

**The cross-chain swap engine** (`SwapModel`, `SwapInvariant`, `SwapPreserve`, `SwapSafety`, `SwapRuns`, `SwapReuse`, `SwapRogue`,
`SwapTiming`).
`execute`, the v2 drives, `advance`, `refund`, the reconcile and repair passes, the sweeps and pruning are a
state machine whose steps are single chain calls and single journal writes. Any other call, and any move of
the pool, of a miner or of the clock, may come between two steps; `advance` works on the snapshot it was
started with and takes no mutex, as in the source. A restart is the dropping of any set of calls. One inductive
invariant is proved preserved by every step, and the safety theorems are read off it for every run:

* at most one first-leg lock per swap id, each leaving the minimum reclaim window;
* v2 locks go out only after the pool's own lock was read on the other chain and passed the gate;
* every sending of a v1 preimage, first or repeated, comes after a pool lock that pays at least the quote was vetted; a
  buy sends only in a claim of the very lock that the same call had gated just before (`RevealAfterVetting`,
  `SendFollowsGate`); and a user's first leg is claimed only after such a sending (`V1AtomicSafety`);
* a Completed v1 sell is paid in full, and a Completed v1 buy is paid at least its quote unless it was undercut.

Three things decide how far these go, and for each the exact condition is proved over every run.

*The contract.* A quote names its BSC contract, and the engine never compares that address with the fixed table the sweep
uses (`src/swap.rs:831-837`, `src/swap.rs:1200-1203`). The world therefore holds genuine contracts, whose entries obey the
HTLC rules, and any others, whose answers the pool rewrites between any two reads. For a quote that names a genuine
contract those promises hold in every run; for an executable quote that does not, each has a run that breaks it
(`AtomicIff`, `PaidIff`, `BackedIff`). What is asked of the quote can be looked up before executing it.

*The time of the sending.* Being atomic in that sense does not yet keep both legs: the pool may reclaim its lock at the
deadline and still claim ours. If the preimage left with the safety margin left, that takes the pool more than the margin
(1800 s, or 360 blocks) from then on, so there was that long to claim (`SendSound`). A buy's gate, read before every send,
gives that counted from the gate; a sell's gate is read once, when the record turns PoolLocked, and never at the send, so
every executable v1 sell, on a genuine contract too, has a run that loses both legs as soon as its preimage is out
(`SellLate`). `MarginIff` and `ReadIff` are the exact statements over all runs, and `CallIff` gives what a caller can check
before each `advance`: the sending is in time in every continuation exactly when the lock has the margin at the latest
instant at which the call may send.

*The hashlock.* The claimed branch of `advance` never looks at the amount (`src/swap.rs:2172-2218`), so a pool that reuses a
v1 hashlock in a cheaper v2 buy can have the v1 record Completed on the smaller lock, after the v1 preimage is out and
while the claim of the full lock is still on its way. `CompletedBuyIff`: Completed is truthful in every run exactly when no
cheaper executable v2 buy quote carries the hashlock on another contract (or on one that is not genuine).

Assumed of the outside: chain reads that succeed are truthful, there are no reorgs, an error from a broadcast
means nothing was sent, the pool issues fresh swap ids (`ReusedIdSendsTwice` shows what goes wrong
otherwise), an EXFER lock is output 0 of its
transaction (the engine claims and reclaims that output whatever the indexer row says), SHA-256 is injective and one-way (symbolic), and journal writes succeed. All our keys are one party
`Us`. The order of indexer rows is not assumed. `run_monitor` needs no model of its own: calls may start at any time in any
order.

**Chain-driven recovery and the journal** (`Sweep`, `SweepScan`, `JournalStore`). The three passes that reclaim stranded
locks are methods on a class with the two dedup sets, the scan cursor and the journal; a session is any list of passes.
`SweepScan` puts the getLogs scan of the fixed contract in front of the pass and says which locks a session gets to; the pool pass
is shown locks of any contract.

**The block follower over the index** (`ChainEvents`, `Replay`, `Expiry`, `Walk`, `Follower.dfy`; keys, tables and
pages in `HtlcKeys`, `CursorText`, `Paging`, `HtlcStore`). The follower class keeps a budget of index calls that still
succeed, so that one contract of `Tick` covers every crash point and every index error; `Run` strings ticks together.
The declarative reading of a chain (`Expiry.Reads`) mentions neither ticks nor crashes. Blocks, heights and node
answers are those of one chain that only grows, on which transaction ids are unique and the genesis id is not all zeros;
`served` is how many blocks the node delivers before a fetch fails.

**The adaptive getLogs scan** (`LogScan`). The loop of the source with all of its mutable locals as 64-bit values,
for an arbitrary pattern of answers.

**The spend path** (`Allowance`, `Idempotency`, `InFlight`, `SpendPath`). Each is a class proved against functions, an
interleaving machine over those functions, and a whole-run theorem; `SpendPath` composes ledger and cache as the
API handlers do. In-memory instants and unix seconds are natural numbers; a client token is a number.

**Codecs and amounts** (`QuoteImage`, `PaymentUri`, `Utf8`, `Ascii`, `Bytes`, `ParseUnits`). Byte-level, over unbounded
strings; a Rust `String` is a byte string that is valid UTF-8.

**The keyring** (`Keyring`). Key files, state and cache are fields of one class; sealing is symbolic and the
cryptography is a parameter.

Where code and documentation differ, the model follows the code:

* `HtlcFilter.owned_address` is accepted but never consulted (`src/index.rs:711-729`).
* `refund` in the ledger is documented to release to the current window, but it is given the time of the
  reservation, so it credits the bucket that was charged (`src/allowance.rs:347-361`, `src/api/mod.rs:813-914`).
* The ledger says an over-cap spend can never be admitted by saturation (`src/allowance.rs:312-314`). With a cap of
  u64::MAX it can; `Allowance.CoversIff` is the exact statement and `FullCapOverflows` a run.
* The reveal gate of a sell is documented as what must hold when the preimage is revealed (`src/swap.rs:62-71`). It is read
  at UserLocked (`src/swap.rs:2031-2045`) and not again at the send or a re-send (`src/swap.rs:2066-2143`): `SellLate` sends
  after the deadline, and `ReadIff` says that a buy never does so and every executable sell can.
* A v2 record becomes Completed on the pool's word alone (`src/swap.rs:1957-1968`), so nothing is claimed of that status: the
  truthfulness theorems are about v1.
* The node path of the v2 buy check is documented never to approve what the indexer path rejects
  (`src/swap.rs:1712-1815`). It never looks at the lock's state; `NodePathExact` gives the one case in which the two differ.
* A failed BNB refund, and a scan that gives up, are documented to be retried on the next pass (`src/swap.rs:2836-2844`,
  `src/evm.rs:144-146`). The dedup set allows it, but the cursor has moved past the tip either way
  (`src/swap.rs:2847-2852`): `LookedAtIff` says exactly which blocks a later pass looks at, and `AbortLoses` and
  `RefusalLoses` are sessions that lose a lock.
* The shared dedup set of the two BNB passes is meant to stop the same lock being refunded twice
  (`src/swap.rs:2898-2902`), but it is keyed by the spelling of the hashlock alone (`src/swap.rs:2939-2945`).
  `RefundedOnceIff` says which pairs of spellings it identifies. And it forgets the contract: the pool pass reads and refunds
  on whatever contract the pool names (`src/swap.rs:2927-2951`), after which the getLogs sweep skips the lock of that hashlock
  on the fixed contract (`src/swap.rs:2801-2809`). `PoolLoses` is such a session, and `NeverLostIff` the exact condition: the
  pool names no contract but the fixed one.
* The allowance counts a spend in the window in which its request arrived (`src/api/mod.rs:817`), while the reservation may come
  later (`src/api/mod.rs:873`): counted by reservation, `TwiceCapIff` says exactly when a stretch of one window's length stays within twice the
  cap; reservations two seconds late are enough to go to three times.
* A vault's EVM section is restored without comparing its phrase with its secret (`src/store/keyring.rs:668-704`), so a phrase
  revealed later need not derive the address in use: `DishonestVaultReveals` is such a vault and `RevealsIff` the exact condition.
* `import` writes the key file before it finds the address taken (`src/store/keyring.rs:1051-1066`), so importing the
  secret of a derived address leaves a file behind that `delete` does not remove; its contract shows it.

## Model

| member | source | states |
|---|---|---|
| SwapPreserve.StepKeeps | src/swap.rs:1224-2567 | every step of every call, and every outside move, keeps the invariant of the engine |
| SwapPreserve.MoveKeeps | src/swap.rs:1224-2304 | one chain call of one running call keeps it, whatever the other calls hold |
| SwapPreserve.CommitKeeps | src/swap.rs:306-317 | a journal write keeps it, also when the record was changed or pruned since the snapshot |
| SwapPreserve.ExecGood | src/swap.rs:1224-1354 | execute locks the first leg of an unsent swap with its reclaim window checked |
| SwapPreserve.DriveSellGood | src/swap.rs:1391-1515 | the v2 sell drive sends only behind a vetted pool lock and a checked timeout |
| SwapPreserve.DriveBuyGood | src/swap.rs:1533-1685 | the v2 buy drive sends and pre-signs only behind a vetted pool lock |
| SwapPreserve.AdvanceV1Sell | src/swap.rs:2031-2143 | a v1 sell becomes PoolLocked only through the gate and Completed only off a claimed lock |
| SwapPreserve.AdvanceV1Buy | src/swap.rs:2051-2304 | a v1 buy follows indexer rows that carry its hashlock and pay us |
| SwapPreserve.AdvanceGood | src/swap.rs:1939-2304 | advance sends a preimage, first or again, only for a v1 swap with a vetted pool lock, and a buy's only in a claim, signed in that step, of the lock whose gate the call had passed |
| SwapPreserve.RefundGood | src/swap.rs:2478-2567 | refund reclaims and rewrites status without disturbing what other calls know |
| SwapPreserve.ScanGood | src/swap.rs:2319-2459 | reconcile and repair passes only write statuses the chain supports |
| SwapSafety.RunInv | src/swap.rs:1109-2896 | the invariant holds in every state of every run |
| SwapRuns.ReachableIff | src/swap.rs:1109-2896 | the states that calls put together can reach are exactly the states of runs |
| SwapSafety.AtMostOneFirstLeg | src/swap.rs:948-953 | over every interleaving at most one first-leg lock is broadcast per swap id, v1 or v2 |
| SwapSafety.FirstLegKeepsReclaimWindow | src/swap.rs:1258-1351 | each first leg is on the right chain under the swap's hashlock, its timeout at least the minimum away from the tip or clock it was checked against, and a genuine contract holds just that |
| SwapSafety.V2LockAfterPoolLock | src/swap.rs:1364-1685 | every v2 first leg follows the reading of a pool lock that pays us at least the quote with the margin left; for a sell, if the quote names a genuine contract |
| SwapSafety.RevealAfterVetting | src/swap.rs:2066-2304 | every step that sends a preimage, first or again, is of a v1 swap that already had a vetted pool lock; a buy's goes out in a claim of a lock that pays the quote and, at the tip its call carries, had the margin left; no preimage gets out otherwise |
| SwapSafety.SendFollowsGate | src/swap.rs:2249-2291 | a buy call about to send has passed the gate on that very lock, at the tip it carries, and done nothing since |
| SwapSafety.EverySendSound | src/swap.rs:2066-2304 | in every state of every run, each sending so far relied on a pool lock paying the quote (for a sell, if the contract is genuine), a buy's gated with the margin left; where it left in time, the pool has that lock back only if more than the margin went by since |
| SwapSafety.GatedLockNotReclaimed | src/swap.rs:1728-1815 | a lock that passes the buy gate has not gone back to the pool |
| SwapSafety.V1AtomicSafety | src/swap.rs:2025-2304 | for a quote that names a genuine contract: once the user's first leg is claimed, the preimage was out, a pool lock paying at least the quote had been vetted, it can only have gone back past its deadline, and the first sending was sound in the sense of EverySendSound |
| SwapSafety.SellCompletedTruthful | src/swap.rs:2066-2096 | a Completed v1 sell that names a genuine contract means the BNB lock under its hashlock, to us and for at least the quote, is claimed |
| SwapRogue.AtomicIff | src/swap.rs:1200-1203 | v1 atomic safety holds in every run exactly when the quote is not executable or names a genuine contract |
| SwapRogue.PaidIff | src/swap.rs:2066-2096 | a Completed v1 sell is paid in full in every run exactly under the same condition |
| SwapRogue.BackedIff | src/swap.rs:1693-1710 | every v2 first leg is backed in every run exactly when the quote is a buy, not executable, or names a genuine contract |
| SwapRogue.BuyTaken | src/swap.rs:1296-1351 | a run in which another contract takes the BNB with no preimage out |
| SwapRogue.SellTaken | src/swap.rs:2031-2143 | a run in which a faked lock gets the preimage of a sell shown and its EXFER taken |
| SwapTiming.MarginIff | src/swap.rs:62-84 | in every run a claimed v1 first leg was atomic, and the pool had the lock behind the first sending back only more than the margin after that call read its chain, exactly when the quote is not executable or is a buy on a genuine contract |
| SwapTiming.ReadIff | src/swap.rs:2031-2143 | in every run every sending was decided with the margin left exactly when the quote is a buy or not executable |
| SwapTiming.SentIff | src/swap.rs:2097-2298 | in every run every preimage left with the margin left exactly when the pool cannot get it sent at all |
| SwapTiming.CallIff | src/swap.rs:2066-2304 | a call that starts now and sends within d leaves the margin in every continuation exactly when the lock still has it d from now |
| SwapTiming.SellLate | src/swap.rs:2066-2143 | for every executable v1 sell on a genuine contract, a run that shows the preimage after the deadline and loses both legs |
| SwapTiming.BuyLate | src/swap.rs:2261-2291 | for every v1 buy there, a run that passes its gate, sends too late and loses both legs |
| SwapRogue.SellFaked | src/swap.rs:2070-2096 | a run in which a faked claim marks a sell Completed |
| SwapRogue.SellUnbacked | src/swap.rs:1391-1515 | a run in which a v2 sell sends its EXFER behind a faked lock |
| SwapSafety.BuyCompletedClaim | src/swap.rs:2172-2218 | a Completed v1 buy means a claimed EXFER lock under its hashlock to us, signed for a swap whose quote it covers |
| SwapSafety.BuyCompletedTruthful | src/swap.rs:2172-2218 | a Completed v1 buy was paid at least its own quote unless an executed, cheaper v2 buy elsewhere carries its hashlock |
| SwapReuse.CompletedBuyIff | src/swap.rs:2172-2218 | that promise holds in every run exactly when no cheaper executable v2 buy quote carries the hashlock on another contract |
| SwapReuse.ShortRun | src/swap.rs:1128-1138 | for every such pair of quotes, a run that ends with the v1 buy Completed and not covered |
| SwapSafety.NodePathExact | src/swap.rs:1712-1815 | what the node path accepts the indexer path rejects exactly when the lock is already claimed |
| SwapSafety.NodePathAgrees | src/swap.rs:1823-1931 | in a drive whose hashlock no other quote carries, both paths decide alike |
| SwapReuse.ReusedIdSendsTwice | src/swap.rs:1183-1258 | a quote stored over an executed id: the engine goes on to a second first leg for the id |
| SwapSafety.ReusedIdReopensExecute | src/swap.rs:1183-1221 | a quote stored over any executed id lets execute start again and breaks the invariant |
| ParseUnits.ParseUnits18 | src/swap.rs:41-60 | returns n exactly when the trimmed text is a decimal with at most 18 places, n its value times 10^18, below 2^256; and which error otherwise |
| ParseUnits.PaddedValue | src/swap.rs:54-58 | the zero-padded digit string reads as the scaled value |
| ParseUnits.OneReading | src/swap.rs:42-49 | the split at the first dot is the only reading of a decimal |
| JournalStore.Journal.Put | src/swap.rs:298-302 | the record is replaced in memory, and in the file when the write goes through |
| JournalStore.Journal.Update | src/swap.rs:306-317 | refuses an unknown id, else applies the change, stamps it and persists |
| JournalStore.Journal.Remove | src/swap.rs:322-328 | idempotent removal that persists only a real change |
| JournalStore.Journal.Pending | src/swap.rs:352-360 | exactly the non-terminal records, once each |
| JournalStore.Journal.FindLive | src/swap.rs:2687-2693 | the newest non-terminal record under a hashlock, ignoring case, if there is one |
| Sweep.ReclaimableIff | src/swap.rs:870-908 | a row is taken up exactly when it is unspent, sent by us, strictly past its timeout and readable |
| Sweep.Sweeper.SweepStrandedLocks | src/swap.rs:2646-2706 | the loop over rows is the pass function: try unless the outpoint was reclaimed, forget a failed try; the journal mirrors each recovery and nothing else |
| Sweep.Sweeper.SweepOneBnb | src/swap.rs:2789-2845 | the same for one BNB hashlock |
| Sweep.Sweeper.MirrorRefund | src/swap.rs:2683-2693 | the newest live record under the hashlock, if any, becomes Refunded; no other record changes |
| Sweep.Sweeper.SweepStrandedBnbLocks | src/swap.rs:2723-2855 | scan from the cursor, try every hashlock on the pages, mirror each recovery; the cursor ends past the tip however the scan went |
| Sweep.Sweeper.RecoverStrandedBnbViaPool | src/swap.rs:2903-2967 | the pool-guided pass over the same set, on whatever contract the pool names for each lock, the journal untouched |
| Sweep.SessionBalanced | src/swap.rs:2646-2967 | in every session the dedup sets hold exactly what was recovered, each of it once, and every attempt was due |
| Sweep.AtMostOneReclaim | src/swap.rs:793-800 | per session one successful reclaim per outpoint and per key of the BNB set, over all contracts |
| Sweep.RefundedOnceIff | src/swap.rs:2801-2809 | two spellings of one on-chain hashlock: no session refunds one contract's lock under both exactly when they carry equally many 0x |
| Sweep.OneKeyIff | src/swap.rs:2801-2802 | they have one key in the set under the same condition |
| Sweep.TriedIff | src/swap.rs:2789-2967 | in every session the lock of a contract and key is tried exactly when it is shown refundable at a time when no accepted refund under its key had been shown on another contract, and recovered exactly when its own refund would be accepted at one such time |
| Sweep.EveryAttemptDue | src/swap.rs:860-908 | each attempt was for a lock seen unsettled and past its timeout, an EXFER one sent by us |
| Sweep.FailedStaysRetryable | src/swap.rs:2694-2703 | a due outpoint is tried again if and only if no reclaim of it has succeeded |
| Sweep.FailedRefundRetryable | src/swap.rs:2836-2844 | a due lock is tried again if and only if no refund under its key, on any contract, has succeeded |
| Sweep.BareSpellingSweptTwice | src/swap.rs:2939-2945 | every hashlock spelt with and without 0x can be refunded twice |
| SweepScan.MethodScans | src/swap.rs:2768-2779 | what the pass method promises is a scan of the chain, pages holding what their blocks hold |
| SweepScan.TriedWhenCovered | src/swap.rs:2789-2967 | in every session over a truthful node a stranded lock of the fixed contract is tried exactly when a page covers it, or the pool names it there, while refundable and before the pool is shown an accepted refund under its key elsewhere; and recovered exactly when its refund would be accepted then |
| SweepScan.NeverLostIff | src/swap.rs:2927-2951 | every such session recovers each lock it meets refundable and willing exactly when the pool names no contract but the fixed one |
| SweepScan.PoolLoses | src/swap.rs:2939-2945 | for every hashlock and any other contract, a session in which the pool's refund there keeps the genuine lock from being tried |
| SweepScan.CoversIff | src/evm.rs:281-334 | a scan covers a lock exactly when its block is between its first block and its tip and not skipped or given up on |
| SweepScan.LookedAtIff | src/swap.rs:2752-2763 | within a session, also exactly when the block is within the reorg margin of the last tip scanned |
| SweepScan.AbortLoses | src/evm.rs:141-147 | a scan that gives up and then a perfect one: a refundable lock more than the margin behind is never tried |
| SweepScan.RefusalLoses | src/swap.rs:2836-2852 | a refund refused once and then a perfect pass: the lock is tried and never recovered |
| ChainEvents.PreimageRoundTrip | src/follower.rs:733-764 | a claim witness yields its preimage, of any length |
| Replay.EventKeeps | src/follower.rs:541-651 | one event, new or applied before a crash, keeps the walk a partial reading of the chain |
| Replay.EventsKeep | src/follower.rs:533-540 | any prefix of a block, after any earlier attempt at it |
| Replay.RerunEqualsOnce | src/follower.rs:428-441 | running a block after any prefix of it equals running it once, up to last_indexed_height and the expiry flag |
| Expiry.ReadsWhen | src/follower.rs:653-680 | after finished blocks the index is the full reading exactly when no row is overdue |
| Expiry.SweptReads | src/follower.rs:662-680 | after a sweep it is the full reading exactly when the swept page had every overdue row |
| Walk.ChainGood | src/follower.rs:541-594 | unique transaction ids give unique lock outpoints across the chain |
| BlockFollower.Follower.ProcessOutputs | src/follower.rs:541-594 | absorbs the lock events of a transaction, or a prefix of them before a failure |
| BlockFollower.Follower.ProcessInputs | src/follower.rs:596-651 | absorbs the spend events likewise |
| BlockFollower.Follower.ProcessFetched | src/follower.rs:533-539 | absorbs the events of a block in order |
| BlockFollower.Follower.SweepExpired | src/follower.rs:662-680 | marks the overdue rows of the first page of Locked rows, or a prefix of them |
| BlockFollower.Follower.WalkBlocks | src/follower.rs:403-450 | one checkpoint a block; a completed walk has absorbed exactly the blocks up to the tip |
| BlockFollower.Follower.Tick | src/follower.rs:332-467 | keeps the walk sound at every crash point; a completed tick that indexed a block leaves the declarative reading, exactly when its sweep page held every overdue lock, so always with at most 1024 Locked rows |
| BlockFollower.Follower.Run | src/follower.rs:247-287 | the same over any series of ticks, outages and crashes |
| BlockFollower.PageHasAll | src/follower.rs:660-669 | with at most 1024 Locked rows the page is all of them |
| LogScan.LockedHashlocksBySender | src/evm.rs:281-334 | terminates; pages and skipped spans partition the scanned prefix; output is the duplicate-free union; aborts only after five narrow failures; at most 2*ceil(N/2000)+5 calls |
| LogScan.ScanComplete | src/evm.rs:271-334 | only hashlocks of the range, and all of them unless a call no wider than the minimum failed |
| LogScan.LevelOfDouble | src/evm.rs:307-310 | a success gives back at most one halving |
| HtlcKeys.CursorOrder | src/index.rs:131-138 | the 44 cursor bytes order like (height, tx id, output index) |
| HtlcKeys.StateKeyOrder | src/index.rs:740-752 | state keys order like the tuples |
| HtlcKeys.RoleKeyOrder | src/index.rs:754-766 | role keys order like the tuples |
| HtlcKeys.OwnedKeyOrder | src/index.rs:780-792 | owner keys order like the tuples |
| HtlcKeys.PrimaryKeyInjective | src/index.rs:733-738 | different outpoints have different keys |
| HtlcKeys.CursorRoundTrip | src/index.rs:131-160 | the cursor bytes give back the cursor |
| CursorText.CursorDecodeEncode | src/index.rs:131-160 | decoding an encoded cursor gives it back |
| CursorText.CursorEncodeDecode | src/index.rs:139-160 | a string that decodes is the encoding of what it decodes to |
| HtlcStore.UpsertConsistent | src/index.rs:258-412 | writing a row keeps state, role and hashlock tables the exact key images of the primary table |
| HtlcStore.ForgetConsistent | src/index.rs:438-538 | so does forgetting one |
| HtlcStore.UpsertOwned | src/index.rs:258-412 | by_owned stays exact while a row keeps its owner |
| HtlcStore.SessionConsistent | src/index.rs:258-538 | after any series of upserts and forgets, under any owners, the three tables are exact |
| HtlcStore.HashRange | src/index.rs:559-590 | the byte range of a hashlock holds exactly its keys |
| HtlcStore.Index.UpsertHtlc | src/index.rs:258-412 | the table updates are the specified ones |
| HtlcStore.Index.ForgetHtlc | src/index.rs:438-538 | the same, and whether there was a row |
| HtlcStore.Index.LookupByHashlock | src/index.rs:559-616 | exactly the tracked records with the hashlock, once each, in outpoint order |
| HtlcStore.Index.ListHtlcs | src/index.rs:632-708 | the page of the one ascending filtered listing after the cursor |
| Paging.FollowCovers | src/index.rs:640-708 | following next_cursor ends, and the pages concatenate to exactly the rows past the start |
| Paging.AscendingUnique | src/index.rs:688-698 | the sorted listing is determined by its rows, whatever order the scan gave |
| HtlcStore.PagesCoverListing | src/index.rs:632-727 | from no cursor, the pages are the filtered table in order, no gap and no duplicate |
| Allowance.Ledger.Reserve | src/allowance.rs:270-345 | charges the bucket exactly when both ceilings admit the amount; otherwise says which failed and changes nothing |
| Allowance.Ledger.Refund | src/allowance.rs:354-399 | credits the bucket of the reservation, or nothing on a storage failure |
| Allowance.Ledger.GetStatus | src/allowance.rs:402-425 | remaining is the largest admitted amount; the reset is the start of the next bucket |
| Allowance.StepExact | src/allowance.rs:270-399 | each step of any request keeps every counter equal to what its requests hold |
| Allowance.SpendCap | src/allowance.rs:255-399 | in every interleaving: live spend per bucket at most the counter, equal without lost refunds, at most the cap; by arrival time, any period_secs seconds hold at most twice the cap |
| Allowance.TwiceCapIff | src/api/mod.rs:813-891 | with reservations at most `delay` seconds behind their requests, any period_secs seconds hold at most twice the cap by reservation time in every run exactly when delay <= 1, or nothing can be reserved, or the clock has no third window |
| Allowance.ThreeWindows | src/api/mod.rs:813-891 | for every other setting, a run with reservations two seconds late and three caps in one stretch |
| Allowance.CoversIff | src/allowance.rs:312-330 | for every period cap, the counter covers the live spend in every run exactly when the cap is below u64::MAX or a per-transaction cap of zero admits nothing |
| Allowance.FullCapOverflows | src/allowance.rs:312-330 | with a cap of u64::MAX two reservations of everything are both admitted |
| Allowance.ManyReserved | src/allowance.rs:312-330 | at u64::MAX any number of one-unit reservations is admitted while the counter stays put |
| Idempotency.Cache.Enter | src/idempotency.rs:87-116 | the first critical section of get_or_run |
| Idempotency.Cache.Leave | src/idempotency.rs:120-150 | the second: store with eviction at the cap, or leave no trace |
| Idempotency.Cache.DropOldestDone | src/idempotency.rs:176-188 | removes an oldest Done slot, never an InFlight one |
| Idempotency.RunInv | src/idempotency.rs:76-153 | in every interleaving the slots are what the history says and each InFlight slot has its one running caller |
| Idempotency.RunsNeverOverlap | src/idempotency.rs:7-21 | between two runs for a token the first has ended and a failure, expiry or eviction emptied the slot |
| Idempotency.ExpiryAfterTtl | src/idempotency.rs:168-174 | an expiry is at least the TTL after the success it clears |
| Idempotency.OneReceiptPerSlot | src/idempotency.rs:89-104 | all callers one slot serves have equal 64-bit fingerprints and get the same receipt |
| Idempotency.RunSize | src/idempotency.rs:122-126 | there are always fewer than 10000 Done slots |
| SpendPath.StepKeeps | src/api/mod.rs:858-910 | reserve, broadcast and refund inside the idempotency unit keep cache, ledger and charges in step |
| SpendPath.TwoChargesMeanForgotten | src/api/mod.rs:808-812 | two callers of one token are both charged only if the first receipt expired or was evicted between their runs |
| SpendPath.SharedCap | src/api/mod.rs:1009-1037 | the spend cap holds over token transfers, plain transfers and HTLC locks together: by arrival time always, by reservation time when those follow within a second |
| InFlight.InFlightUtxos.Claim | src/inflight.rs:81-90 | claims or extends the given outpoints only |
| InFlight.InFlightUtxos.Release | src/inflight.rs:94-102 | frees the given outpoints only |
| InFlight.InFlightUtxos.SelectAndClaim | src/inflight.rs:144-169 | drops lapsed claims, shows the rest to the selector, claims exactly what it chose; nothing on its error |
| InFlight.InFlightUtxos.LocksHeld | src/inflight.rs:124-129 | a hold is one stretch: held now, held at every earlier instant; free now, free from now on |
| InFlight.InFlightUtxos.HoldLocksUntil | src/inflight.rs:118-120 | held at exactly the instants before the one given |
| InFlight.ClaimGuard.Drop | src/inflight.rs:249-255 | releases its outpoints unless committed |
| InFlight.NoDoubleClaim | src/inflight.rs:131-169 | in every run no outpoint is claimed by two guards that hold |
| InFlight.DropOnTime | src/inflight.rs:249-255 | before its TTL a dropped guard restores exactly its own outpoints |
| InFlight.DropKeepsWhen | src/inflight.rs:249-255 | a drop keeps claims disjoint exactly when no other holding guard has one of its outpoints |
| InFlight.LateDropDoubleClaims | src/inflight.rs:43-47 | a run from start-up in which a guard dropped after its TTL lets two others hold one outpoint |
| InFlight.OnTimeSoFar | src/inflight.rs:131-169 | whatever comes later, claims are disjoint and backed up to the first drop that is not on time |
| QuoteImage.BuildImage | src/api/quote.rs:114-154 | the pushes give the specified layout |
| QuoteImage.DecodeImageStrict | src/api/quote.rs:581-648 | the offset walk is the strict decoder |
| QuoteImage.DecodeIff | src/api/quote.rs:574-648 | strict decoding gives (q, g) exactly for the image of an encodable q under g |
| QuoteImage.RoundTripIff | src/api/quote.rs:114-154 | a quote survives signing and decoding exactly when currency and memo fit their length fields |
| QuoteImage.ImagesPrefixFree | src/api/quote.rs:90-113 | the image determines quote and genesis, and none is a proper prefix of another |
| QuoteImage.SignedImagesDiffer | src/api/quote.rs:160-184 | quotes that pass the bounds have images of their own |
| PaymentUri.Encode | src/payment_uri.rs:85-115 | the pushes give the specified URI |
| PaymentUri.Decode | src/payment_uri.rs:120-176 | the loop over parameters is the specified decoder, errors included |
| PaymentUri.PercentEncode | src/payment_uri.rs:182-197 | the loop is the specified escaping |
| PaymentUri.PercentDecode | src/payment_uri.rs:207-229 | the loop is the specified unescaping, errors included |
| PaymentUri.PercentRoundTrip | src/payment_uri.rs:182-238 | percent coding undoes itself on every UTF-8 string |
| PaymentUri.RoundTripIff | src/payment_uri.rs:85-176 | decode(encode(p)) gives p exactly when address and hash lock are lowercase 64-digit hex |
| PaymentUri.DecodedRoundTrips | src/payment_uri.rs:117-176 | whatever decodes is canonical and survives encoding and decoding again |
| PaymentUri.ParseDecimal | src/payment_uri.rs:102-153 | a printed number parses back |
| Keyring.KeyringStore.EvmAddressOpt | src/store/keyring.rs:870-885 | names the address of the key EvmSecret returns |
| Keyring.KeyringStore.EvmSecret | src/store/keyring.rs:831-868 | the independent key first, then the seed's, else a typed error |
| Keyring.KeyringStore.RevealEvmMnemonic | src/store/keyring.rs:919-946 | the stored phrase of the key in use, for the right passphrase and no other |
| Keyring.RevealsIff | src/store/keyring.rs:668-704 | over every run of creating, importing, deleting and restoring, every phrase that can be revealed derives the address in use exactly when every restored vault section agrees with itself |
| Keyring.DishonestVaultReveals | src/store/keyring.rs:686-703 | a vault with someone else's phrase is restored, and the phrase revealed derives another address |
| Keyring.KeyringStore.CreateEvmKey | src/store/keyring.rs:887-917 | never replaces a key, shadows a seed only by force |
| Keyring.KeyringStore.ImportEvmMnemonic | src/store/keyring.rs:948-968 | replaces only on overwrite; the new phrase is the one revealed |
| Keyring.KeyringStore.ImportEvmKey | src/store/keyring.rs:970-979 | replaces only on overwrite, and the old phrase goes with the old key |
| Keyring.KeyringStore.DeleteEvmKey | src/store/keyring.rs:981-1011 | a wrong passphrase never drops the key |
| Keyring.KeyringStore.Import | src/store/keyring.rs:1051-1075 | adds the secret under its address or reports a duplicate |
| Keyring.KeyringStore.Delete | src/store/keyring.rs:1239-1286 | removes exactly one address, given the passphrase |
| Keyring.KeyringStore.LoadByAddress | src/store/keyring.rs:774-822 | the secret of the address, cached or not |
| Keyring.KeyringStore.RevealAddressMnemonic | src/store/keyring.rs:1175-1198 | the phrase reproduces the address |
| Keyring.KeyringStore.ExportVault | src/store/keyring.rs:1119-1173 | the vault holds every secret and the EVM key; the passphrase is checked when there is an address |
| Keyring.KeyringStore.ImportVault | src/store/keyring.rs:1288-1324 | adds the vault's keys, replaces nothing, and restores the EVM key, as it stands in the vault, when there was none |
| Keyring.BackupRestores | src/store/keyring.rs:1124-1324 | a full vault restored into an empty keyring gives back the same secrets and EVM key |
| Keyring.RestoredHonest | src/store/keyring.rs:668-704 | a restored EVM key reveals a phrase of its own address exactly when the vault's section agrees with itself |

## Left out

- The engine as a class with methods: its calls are cut into steps over values at every chain call and journal write, because any other call may run in between; what a Dafny method could not capture there is that interleaving.
- SwapSafety.FirstLegKeepsReclaimWindow: the window is measured from the tip or clock that was read, not from the moment the lock is mined.
- The ordering of the two timeouts in v2: the code checks minimum timeouts only, so v2 atomicity is not claimed, only the gate before the lock.
- A crash between a lock broadcast and its journal write: such a call always reaches its write here.
- Refunded as a statement about the chain: some paths write it on broadcast; the model follows them and claims nothing of it.
- Sealed journal bytes, EIP-1559 transactions, EXFER transactions and the Solidity contract: their interface only.
- A getLogs pass that fails to read the tip or the chain's time: it returns before it sweeps and changes nothing, not even the cursor.
- Concurrency between two sweep passes: the monitor runs them one after the other, and so does a session here.
- Reorg handling, the backfill fast-forward, tip-only ticks and the API's own index writes of the follower.
- The by_owned table across sweeps and forgets that pass a zero owner: its stale rows are outside the invariant.
- Allowance.SpendCap: asks for a cap below u64::MAX; CoversIff is the exact bound for the counter.
- Allowance.TwiceCapIff: asks for a cap below u64::MAX, like SpendCap.
- SpendPath.SharedCap: asks for a cap below u64::MAX, like SpendCap.
- The `len` query of the idempotency cache, which also drops lapsed slots.
- Cancellation of a request future, and the wake-up of waiters in the idempotency cache.
- A node that leaves `Locked` events out of a getLogs answer: pages are taken to hold what their blocks hold.
- A storage error after a commit has taken effect: a failed reserve or refund is taken to have changed nothing.
- Parallel fetching of blocks: their order of processing is what is modelled.
- `list_htlcs` with limit 0.
- InFlight.NoDoubleClaim: assumes selectors choose outside the snapshot and no manual release or claim after start-up.
- Keyring I/O failures, crashes, labels, reopening from files and the operator's one-time view of a fresh phrase.
- The quote's JSON form, its Ed25519 signature and the acceptance checks on time and key.
- The lock-confirmation watchdog, HTTP, TLS, configuration, authentication, event streams and logging.
