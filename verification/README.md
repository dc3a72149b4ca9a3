# Proofs about the Boltz stablecoin swap client

This project models the parts of the client where money depends on the order of events, on what a chain read can and
cannot say, and on exact integers, and proves what they keep.

- **The swap lifecycle** (`Models`, `Chain`, `Ledger`, `Executor`, `Protocol`, `Manager`, `Safety`, `Runs`,
  `Answers`, `Reveal`, `Convergence`, `Provenance`, `Interleaving`). One persisted record is driven by WebSocket events (any text, any order, repeated or invented),
  by background passes, and by the two caller-driven mutators. `Chain.Env` is everything outside the client's control,
  instant by instant: a history of the world in which locks, receipts, heights and bridge reports only accumulate,
  whether the call made at an instant is answered (truthfully) or errs, whether the process survives it, and what a
  claim attempt and the gas sponsor come back with. Every read in a handler happens at its own instant, so the chain
  moves between any two of them. `Protocol` gives each handler as a function on the client's state, `Manager` has the
  handlers themselves as methods that reassign the record and the store and are proved to do exactly that, and `Run`
  folds any sequence of handler calls. The theorems quantify over every environment and every sequence.
  `Safety`, `Runs`, `Reveal` and `Provenance` say what no handler may do, `Answers` and `Convergence` what each must.
- **Crashes and cancellation.** A process can die, or a caller abandon its future, before any store write, event or
  submission; what follows in that handler then has no effect. The next handler starts from the persisted row.
- **A background pass** is a listing and, any number of handlers later, a serving. Listing takes no swap's lock, so it
  happens between handlers or right after any write inside one, and the L1 height is read any time after it.
- **The claim executor** (`Executor`, `ExecutorTrace`): the bounded lockup check, the margin check and the retry loop,
  with a trace of every remote interaction.
- **Concurrency.** A run takes each handler as one step. `Interleaving` shows why it may: handlers made of any atomic
  effects, run by any number of tasks under `Locks`' mutexes, leave every swap where a run of whole handlers does.
- **The keyed lock** (`Locks`) and **index issuance** (`KeyIndex`) as interleavings of single atomic steps.
- **Money and text** (`Fees`, `CctpFees`, `Floors`, `OftSearch`, `Quotes`, `Decimal`): 64-bit and 128-bit overflow,
  saturation and rounding are explicit, the numbers otherwise unbounded.
- **Decoding and the registry** (`CctpMessage`, `LogScan`, `Registry`).

## Statements that turned out false

Each has a lemma that shows it fails and, where there is one, the exact condition under which it holds.

- *A claimed lockup is safe whatever events arrive.* Only once the record says `Claiming` or later. While it still says
  `Created`, `InvoicePaid` or `TbtcLocked` (a claim by another instance, or after a degraded-quote reset), one expiry event writes it off:
  `Runs.PreClaimRecordIsWrittenOff`, and exactly then: `Runs.ClaimedIsSafeExactlyOnceClaiming`.
- *A completed swap's lockup was claimed.* The receipt of a hash the gas sponsor names is taken at its word, and the scans for
  bridge sends look at neither user nor swap. A sponsor that names somebody else's send completes a swap whose lockup is still
  locked, or went back to Boltz: `Provenance.StrangersSendCompletes`. Given a sponsor that names such a transaction only
  when it is the claim, every swap completed on a hash has its lockup claimed, by that hash:
  `Provenance.CompletedMeansClaimed`.
- *A degraded quote means that the preimage was never revealed.* A retry can drift after a submission that went out
  unacknowledged, and one expiry event then writes off the client's own claim: `Reveal.OwnClaimIsWrittenOff`. Nothing was
  handed over exactly when no attempt of that claim got as far: `ExecutorTrace.DegradedIsSilentExactly`.
- *No submission after the timeout.* The margin is checked once per claim, and a retry may be submitted after the lockup's timeout:
  `Reveal.RetryMayBeLate`. What every submission does come after: `Reveal.EverySubmissionIsGuarded`.
- *A spent lockup can be told claimed or refunded.* Exactly when the recorded lockup transaction is mined no later than the spend:
  `Chain.VerdictIsDecisiveExactly`. A forged mempool event overwrites that record: `Runs.ForgedMempoolHidesTheSpend`.
- *A settled event completes a direct swap only on a receipt that shows the transfer.* The comment in the code argues that a
  lock that reads as not locked, together with the event, proves the claim. That read is also false before the lockup
  exists and after a refund, and the event is not authenticated. It completes without a receipt exactly when neither hash nor
  call id is on record and one answered read says not locked: `Runs.SettledIsTrustedExactly`; and nothing else
  ever completes a direct swap without a transfer: `Runs.CompletionIsEarned`.
- *The lock map holds exactly the ids in use.* A cancelled waiter leaves an entry behind (`Locks.CancellationLeaks`), and so does
  a guard that is slow to let its `Arc` go, with no cancellation at all (`Locks.SlowDropLeaks`). Exactly which steps do:
  `Locks.LeaksExactly`. Without cancellation, and with a guard's drop taken as one step, the map is exact:
  `Locks.MapHoldsExactlyTheWantedIds`.
- *The fee cap of a CCTP claim covers every fee quoted to it.* The buffer saturates: it does exactly while the fee is at most
  a ten-thousandth of the 128-bit range (`CctpFees.BufferCovers`, `Floors.CapCoversQuotedFees`,
  `Floors.AbsurdFeeOutgrowsTheCap`).
- *Looking up a registry entry by its own identity finds it.* Not from a feed that calls the source chain "Base"
  (`Registry.SourceNamedLikeCircles`); exactly when the source chain's label is not one of Circle's:
  `Registry.RegistryIsFaithfulExactly`.
- *Every chain with a usable feed entry is listed.* A repeated label marks its chain as seen although it is dropped
  (`Registry.RepeatedLabelFeed`); exactly when a feed gets a chain listed: `Registry.FeedListsExactly`.
- *A USD amount is digits and points.* Both of its parts go through an integer parser that takes a plus sign
  (`Decimal.PlusInWholeIsAccepted`, `Decimal.PlusInFractionIsAccepted`); an accepted text is digits and points exactly when it holds none:
  `Decimal.AcceptedIsPlainExactly`.
- *A crash cannot make an index repeat.* A torn write of the command-line client's counter file can. After such a write
  no index repeats exactly when every issued one is below what is left of the counter
  (`KeyIndex.TornWriteIsSafeExactly`); with all indices issued that is exactly a write that kept nothing or everything
  (`KeyIndex.PartialWriteRepeatsExactly`). Otherwise none ever repeats (`KeyIndex.IndicesNeverRepeat`).

Three comments disagree with the code, which is what is modelled. The one on `recover_from_reverted_receipt` says that a
spent lockup fails the swap; the code asks which transaction spent it and follows a claim. The one on
`is_swap_still_locked_by_swap` says that false means claimed or refunded; it also means not locked yet. The one on
a degraded quote in `do_claim` says that nothing was signed or submitted; an earlier attempt of the same claim may have been.

## Model

| member | source | states |
|---|---|---|
| Runs.RunKeeps | crates/lib/src/swap/manager.rs:386-1692 | Every run of handlers, passes and callers keeps the record's evidence invariant, moves it only as allowed, only appends events, and acknowledges at most one submission per event or accepted quote. |
| Runs.ClaimedNeverLost | crates/lib/src/swap/manager.rs:699-790 | A swap that is `Claiming` while its lockup is claimed never becomes `Failed`, `Expired` or `TbtcLocked`, in any continuation. |
| Runs.PreClaimRecordIsWrittenOff | crates/lib/src/swap/manager.rs:788-789 | Before `Claiming` one expiry event finalizes the record whatever the chain says. |
| Runs.ClaimedIsSafeExactlyOnceClaiming | crates/lib/src/swap/manager.rs:699-790 | A claimed lockup is safe from every run if and only if its record has reached `Claiming`. |
| Runs.FailureIsEarned | crates/lib/src/swap/manager.rs:994-1324 | A claiming swap is abandoned only by a handler during which, at one of its own instants, the lockup was still locked or refunded. |
| Runs.StatusOnlyRises | crates/lib/src/models.rs:160-189 | Between any two moments of any run the status only rises, except `Claiming` to `TbtcLocked`; `Settling` leads only to `Completed`; a terminal record never changes. |
| Runs.CompletionIsEarned | crates/lib/src/swap/manager.rs:1586-1704 | A bridged swap is `Completed` only with a handle decoded from the logs of the successful transaction on record and delivery reported for that handle (Cctp: with the attested amount); a direct one only with a decoded transfer, or by a settled event of the run, handled with neither hash nor call id, whose lock read said not locked; earlier and failed records carry neither amount nor handle. |
| Runs.UnreferencedNeverCompletes | crates/lib/src/swap/manager.rs:1592-1598 | A bridged swap without a handle stays `Settling` for ever. |
| Runs.OneTerminalEvent | crates/lib/src/swap/manager.rs:1655-1692 | No run announces two terminal statuses for a swap. |
| Runs.SubmissionsAreBounded | crates/lib/src/swap/manager.rs:1147-1174 | Acknowledged submissions number at most the handled events and accepted quotes: passes never claim. |
| Answers.QuietTextsChangeNothing | crates/lib/src/swap/manager.rs:454-455 | "swap.created", "invoice.set", "invoice.pending", a mempool event without a transaction and every unknown text change nothing. |
| Answers.PaidRaisesCreated | crates/lib/src/swap/manager.rs:429-464 | "invoice.paid" takes `Created` to `InvoicePaid` and no other record anywhere. |
| Answers.MempoolRecordsTheLockup | crates/lib/src/swap/manager.rs:469-481 | "transaction.mempool" records its transaction as the lockup's, up to `Claiming`, and announces the record. |
| Answers.PastClaimIsDeaf | crates/lib/src/swap/manager.rs:407-427 | No text touches a terminal or a settling record. |
| Answers.TerminalTextEndsPreClaim | crates/lib/src/swap/manager.rs:581-612 | Before a claim the two expiry texts end a record `Expired`, and the four failure texts end it `Failed` with the reason given or else the text. |
| Answers.TerminalTextDuringClaim | crates/lib/src/swap/manager.rs:699-790 | During one they do so while the lockup is locked or once it was refunded; if it was claimed the winner's hash is recorded and the swap is not given up. |
| Answers.UnansweredTerminalTextWaits | crates/lib/src/swap/manager.rs:775-786 | Without an answer about the lock nothing changes. |
| Answers.OnlySettledCompletes | crates/lib/src/swap/manager.rs:514-568 | Only "invoice.settled" and "transaction.claimed" can complete a record that has not begun its claim, or leave one completed without a claim hash. |
| Answers.ConfirmedIsClaimed | crates/lib/src/swap/manager.rs:482-501 | "transaction.confirmed" records its lockup transaction and claims: a claim that gets through is on record under the hash the sponsor names; a degraded quote leaves the record `TbtcLocked` with nothing submitted. |
| Answers.CallIsAskedFirst | crates/lib/src/swap/manager.rs:803-807 | A claim with a call id and no hash asks the sponsor first: the hash it names replaces the call id, and nothing is submitted unless that hash's receipt reads reverted and the lockup then still locked. |
| Answers.MinedCallIsRecorded | crates/lib/src/swap/manager.rs:820-855 | A call mined with the delivery is recorded with amount and handle, past the claim. |
| Answers.DeliveredIsRecorded | crates/lib/src/swap/manager.rs:863-901 | If any of sixty receipt reads shows the delivery, the record carries it: the amount for direct and Oft swaps, the id for Oft, domain and burn transaction for Cctp. |
| Answers.RevertedIsReclaimed | crates/lib/src/swap/manager.rs:994-1026 | If one shows a revert and the lockup is still there, the dead hash is dropped and one more claim recorded under the newly named hash. |
| Answers.RevertedIsClassified | crates/lib/src/swap/manager.rs:1027-1086 | If it was refunded the swap is failed; if another transaction claimed it, that one is recorded. |
| Answers.UnhandledIsClaimed | crates/lib/src/swap/manager.rs:1253-1274 | A claim that left no trace, or whose call the sponsor does not answer for, is made again while the lockup is there. |
| Answers.UnhandledIsClassified | crates/lib/src/swap/manager.rs:1275-1324 | Otherwise it is failed if refunded, and follows the transaction that claimed. |
| Answers.WinnableIsWon | crates/lib/src/swap/reverse.rs:733-898 | A claim whose checks pass is submitted once; its call id is on record, and the answer about it decides between won and unconfirmed. |
| Answers.DriftedIsNotSubmitted | crates/lib/src/swap/reverse.rs:827-836 | A degraded quote on the first attempt ends the claim with nothing handed over. |
| Answers.FailedClaimStaysClaiming | crates/lib/src/swap/manager.rs:672-675 | A claim that finds no lockup in ten reads, or no headroom, leaves the record `Claiming` with nothing submitted. |
| Answers.UnansweredChecksStop | crates/lib/src/swap/reverse.rs:781-805 | No attempt is made while the L1 height or the contracts' versions cannot be read. |
| Answers.UnconfirmedIsRemembered | crates/lib/src/swap/reverse.rs:1672-1688 | A submission whose outcome the sponsor does not tell leaves the record `Claiming` with its call id. |
| Answers.SettledWithoutHandle | crates/lib/src/swap/manager.rs:557-568 | A settled event on a lock that reads as gone takes a record without a handle past the claim, a bridged one to `Settling`. |
| Answers.ConfirmedExactly | crates/lib/src/swap/manager.rs:1586-1653 | A pass completes a settling swap if and only if the bridge reports delivery, for Cctp attested and forwarded, or the forward failed and then the nonce used on Solana; with the attested amount. |
| Answers.UnansweredConfirmationWaits | crates/lib/src/swap/manager.rs:1637-1647 | Without an answer it stays as it is. |
| Answers.WritesAreInSight | crates/lib/src/swap/manager.rs:1508-1514 | A pass that lists while a row is written serves that row. |
| Answers.AcceptedIsClaimed | crates/lib/src/lib.rs:404-448 | Accepting a degraded quote claims in spite of the drift and records the named hash. |
| Answers.AcceptIsRefusedElsewhere | crates/lib/src/lib.rs:418-426 | Outside `TbtcLocked` and `Claiming` it is refused and changes nothing. |
| Answers.SlippageIsSetExactly | crates/lib/src/lib.rs:464-492 | The tolerance is set exactly from 10 to 500 basis points on a record that is not terminal. |
| Answers.EveryChangeIsAnnounced | crates/lib/src/swap/manager.rs:1338-1352 | After any handler in a process that lives, a changed status is the one in the last event. |
| Reveal.EverySubmissionIsGuarded | crates/lib/src/swap/reverse.rs:733-898 | In every run, crashes and all: each submission comes after a lock read of true and, at once, a margin check that found sixty L1 blocks, both of the same claim and true when read, with no acknowledged submission or lock read of false in between; every further attempt directly follows a lock read of its own. |
| Reveal.StepGuards | crates/lib/src/swap/manager.rs:386-1692 | Every handler keeps that, and passes observe nothing but reads. |
| Reveal.ClaimGuards | crates/lib/src/swap/reverse.rs:733-898 | One execution of the executor keeps that. |
| Reveal.RetryMayBeLate | crates/lib/src/swap/reverse.rs:806-897 | A run in which a retry is submitted after the lockup's timeout. |
| Reveal.OwnClaimIsWrittenOff | crates/lib/src/swap/manager.rs:638-671 | A run in which a degraded quote follows a submission that claims the lockup, and an expiry event writes the swap off. |
| Runs.StaleListingIsHarmless | crates/lib/src/swap/manager.rs:1538-1546 | Serving a `Settling` swap from a listing of any age does what serving the current record would, and nothing once it completed. |
| Runs.SettledIsTrustedExactly | crates/lib/src/swap/manager.rs:514-580 | Either settled event completes a direct swap without a transfer if and only if neither hash nor call id is on record, one answered read says not locked, and the process lives to write it. |
| Runs.SettledIsCheckedOtherwise | crates/lib/src/swap/manager.rs:517-537 | Any other completion by a settled event rests on a successful receipt that shows the transfer. |
| Runs.BareCompletionIsSettled | crates/lib/src/swap/manager.rs:514-580 | Of all handlers only a settled event on a lock read completes a swap without a claim hash on record. |
| Runs.StartIsOk | crates/lib/src/swap/reverse.rs:532-561 | A swap as first persisted satisfies the invariant. |
| Provenance.CompletedMeansClaimed | crates/lib/src/swap/manager.rs:943-976 | Given an honest sponsor, in every run a swap completed on a hash has its lockup claimed by exactly that transaction. |
| Provenance.HashIsNamedOrWinner | crates/lib/src/swap/manager.rs:386-1692 | In every run a recorded hash is one the sponsor named or that of the transaction that claimed the lockup. |
| Provenance.StrangersSendCompletes | crates/lib/src/swap/manager.rs:951-961 | A sponsor that names a stranger's bridge send gets a swap completed whose lockup is never claimed. |
| Provenance.OutcomeIsTheLockups | crates/lib/src/swap/manager.rs:1155-1248 | Given an honest sponsor, the transaction taken as the winner is the one that claimed the lockup. |
| Convergence.TwoTicksConverge | crates/lib/src/swap/manager.rs:1502-1692 | With answering nodes and a settled outcome, two passes with anything in between end `Completed` when the recorded hash, or else the transaction that claimed the lockup, succeeded with the delivery log and was delivered, and `Failed` when the lockup was refunded and the recorded hash never succeeds. |
| Convergence.TickDecides | crates/lib/src/swap/manager.rs:1155-1248 | One pass strictly lowers the rank of a claiming swap whose outcome is settled, and takes the handle from the recorded hash if that succeeded, otherwise from the transaction that claimed the lockup. |
| Convergence.TickCompletes | crates/lib/src/swap/manager.rs:1586-1653 | One pass completes a `Settling` swap whose bridge reports delivery, or whose forward stays failed while the Solana probe shows the mint. |
| Convergence.RecoveryDecides | crates/lib/src/swap/manager.rs:1155-1248 | The recovery step itself does so, by its own receipt or by the classified spend. |
| Convergence.DeliveringReceiptAdvances | crates/lib/src/swap/manager.rs:943-976 | A successful receipt with the delivery log takes the record to its post-claim status with the decoded handle. |
| Convergence.WinningClaimAdvances | crates/lib/src/swap/manager.rs:1101-1145 | So does adopting the transaction that claimed the lockup. |
| Convergence.TicksFailOnlyRefunds | crates/lib/src/swap/manager.rs:1155-1248 | A pass fails or expires a swap only if its lockup was refunded. |
| Safety.StepKeeps | crates/lib/src/swap/manager.rs:386-1692 | Any single handler, crash or not, keeps the invariant and moves the record only as allowed. |
| Safety.WsKeeps | crates/lib/src/swap/manager.rs:386-620 | So does every WebSocket event; it gets at most one submission acknowledged and, unless the process dies, leaves its call id or hash on the record. |
| Safety.TerminalEventKeeps | crates/lib/src/swap/manager.rs:699-790 | A terminal event submits nothing and takes a claiming record backwards or to failure only if its lockup was locked or refunded meanwhile. |
| Safety.RecoverRevertedKeeps | crates/lib/src/swap/manager.rs:994-1086 | A reverted claim leaves `Claiming` other than forward only with the lockup unclaimed; at most one new submission, whose handle stays on record; true is reported only past the claim. |
| Safety.DoClaimKeeps | crates/lib/src/swap/manager.rs:623-676 | A claim keeps the evidence invariant, falls back to `TbtcLocked` only with the lockup there, and leaves the handle of its one acknowledged submission on record. |
| Safety.ClaimKeeps | crates/lib/src/swap/reverse.rs:733-898 | The executor writes only a call id, only of an acknowledged submission, and goes past its lock check only if the lockup was there; without the drift check it never reports drift. |
| Safety.ConfirmKeeps | crates/lib/src/swap/manager.rs:1586-1653 | Delivery confirmation completes only with the evidence of the swap's own handle. |
| Safety.RecoverClaimingKeeps | crates/lib/src/swap/manager.rs:1155-1248 | Background recovery keeps the invariant and never claims. |
| Safety.AcceptKeeps | crates/lib/src/lib.rs:404-448 | Accepting a degraded quote keeps the invariant and claims at most once. |
| Safety.SlippageKeeps | crates/lib/src/lib.rs:464-492 | Changing the tolerance changes no other field and announces nothing. |
| Chain.VerdictIsSound | crates/lib/src/evm/lockup.rs:102-147 | A classification of a spent lockup is proof: the claim it names won, the refund it reports happened. |
| Chain.VerdictIsComplete | crates/lib/src/evm/lockup.rs:102-180 | With answering nodes and a usable anchor the classification of a spent lockup is exact. |
| Chain.VerdictIsDecisiveExactly | crates/lib/src/evm/lockup.rs:162-180 | With answering nodes it decides if and only if the recorded lockup transaction is mined no later than the spend, which the node's head has reached. |
| Runs.ForgedMempoolHidesTheSpend | crates/lib/src/swap/manager.rs:469-481 | A mempool event that names an unmined transaction leaves a claiming swap's spent lockup undecidable. |
| ExecutorTrace.ClaimTrace | crates/lib/src/swap/reverse.rs:733-898 | Every execution of the executor: at most ten lock checks, then one margin check, then at most five attempts; nothing follows a lock read of false or an acknowledged submission; the result is a win or unconfirmed exactly when one was acknowledged, and "not locked" only after ten reads none of which said locked. |
| ExecutorTrace.SubmissionIsGuarded | crates/lib/src/swap/reverse.rs:733-898 | Each submission is preceded by a lock read of true and then by a sufficient margin, both true of the chain when read. |
| ExecutorTrace.AttemptsTrace | crates/lib/src/swap/reverse.rs:824-853 | The retry loop: at most the allowed attempts, and none after a lock read of false. |
| ExecutorTrace.RejectionIsEarned | crates/lib/src/swap/reverse.rs:806-897 | The loop gives up no sooner: a rejection means all five attempts were made or the lockup was seen gone. |
| ExecutorTrace.DegradedIsSilentExactly | crates/lib/src/swap/manager.rs:638-671 | A claim that ends on a degraded quote submitted nothing if and only if none of its attempts got that far. |
| Executor.MarginIsHeadroom | crates/lib/src/swap/reverse.rs:2411-2421 | The saturating margin check is the exact test for sixty L1 blocks of headroom. |
| Manager.SwapManager.constructor | crates/lib/src/lib.rs:323-337 | A new swap's row is stored, no other is touched, and the invariant holds. |
| Manager.SwapManager.PerformAll | crates/lib/src/swap/manager.rs:386-1692 | A whole run of the methods over the store is the specified run, touches no other row, and keeps the evidence invariant, the record's movement, the submission bound and the guard before each submission. |
| Manager.SwapManager.Perform | crates/lib/src/swap/manager.rs:386-1692 | Each handler call is the specified step. |
| Manager.SwapManager.OnWsUpdate | crates/lib/src/swap/manager.rs:386-620 | The event handler's new row, events and submissions, case by case. |
| Manager.SwapManager.Claim | crates/lib/src/swap/manager.rs:623-676 | Status first, then the claim, then the hash or the degraded-quote reset. |
| Manager.SwapManager.UpdateSwapStatus | crates/lib/src/swap/manager.rs:1338-1352 | Persist, then announce the same record. |
| Manager.SwapManager.OnConfirmed | crates/lib/src/swap/manager.rs:482-501 | Resume a claiming swap, otherwise record the lockup and claim. |
| Manager.SwapManager.OnSettled | crates/lib/src/swap/manager.rs:514-580 | Poll a hash, resume a call id, or ask the lock. |
| Manager.SwapManager.OnTerminalEvent | crates/lib/src/swap/manager.rs:699-790 | Finalize, follow the winning claim, or leave alone. |
| Manager.SwapManager.ResumeClaiming | crates/lib/src/swap/manager.rs:795-813 | Poll a known hash, else resume a call id, else look at the chain. |
| Manager.SwapManager.ResumeCall | crates/lib/src/swap/manager.rs:820-855 | The recovered hash replaces the call id before it is polled. |
| Manager.SwapManager.PollForReceipt | crates/lib/src/swap/manager.rs:863-901 | The polling loop, which gives up after sixty reads. |
| Manager.SwapManager.CheckReceipt | crates/lib/src/swap/manager.rs:907-937 | One receipt read: applied, reverted, or not mined. |
| Manager.SwapManager.ApplyReceipt | crates/lib/src/swap/manager.rs:943-976 | A direct swap without a decoded transfer is not completed. |
| Manager.SwapManager.RecoverRevertedReceipt | crates/lib/src/swap/manager.rs:994-1086 | Re-claim without the dead hash, fail, follow the winner, or leave alone. |
| Manager.SwapManager.AdvanceViaWinner | crates/lib/src/swap/manager.rs:1101-1145 | The winner's hash replaces ours, once, and one receipt read follows. |
| Manager.SwapManager.RecoverClaimingSwap | crates/lib/src/swap/manager.rs:1155-1248 | Receipt, then timeout gate, then lock, then classification. |
| Manager.SwapManager.RetryOnChain | crates/lib/src/swap/manager.rs:1253-1324 | Reset and claim again while locked, otherwise act on why it is spent. |
| Manager.SwapManager.ListForPoll | crates/lib/src/swap/manager.rs:1502-1536 | The listing, and the shared height read any time later, without the lock (`Upsert` has the listings inside a handler). |
| Manager.SwapManager.Upsert | crates/lib/src/swap/manager.rs:1338-1352 | The whole row is overwritten, in sight of every pass that lists just then. |
| Manager.SwapManager.ServeListed | crates/lib/src/swap/manager.rs:1537-1578 | Serving a listing re-reads a claiming swap and trusts the copy of a settling one. |
| Manager.SwapManager.Confirm | crates/lib/src/swap/manager.rs:1586-1653 | Forwarded and attested, or a failed forward probed on Solana, or delivered by LayerZero. |
| Manager.SwapManager.Finalize | crates/lib/src/swap/manager.rs:1664-1692 | Completion re-reads the row and does nothing unless it is `Settling`. |
| Manager.SwapManager.ExecuteClaim | crates/lib/src/swap/reverse.rs:733-898 | The executor's loops compute the specified outcome, row and trace. |
| Manager.SwapManager.IsStillLocked | crates/lib/src/evm/lockup.rs:49-69 | A truthful answer or none. |
| Manager.SwapManager.ResolveBlockRange | crates/lib/src/evm/lockup.rs:162-180 | The range from the lockup's block to the newest, or no anchor, or a failed read. |
| Manager.SwapManager.ClassifySpentLockup | crates/lib/src/evm/lockup.rs:102-147 | Claim log first, then refund log, each at its own instant. |
| Manager.SwapManager.VerifyLockupOnChain | crates/lib/src/swap/reverse.rs:744-781 | The bounded lock-check loop. |
| Manager.SwapManager.AttemptClaims | crates/lib/src/swap/reverse.rs:806-897 | The retry loop with its early ends. |
| Manager.SwapManager.TryClaimOnce | crates/lib/src/swap/reverse.rs:901-961 | One attempt: blocked, drifted unless told to skip, or submitted. |
| Manager.SwapManager.SubmitToSponsor | crates/lib/src/swap/reverse.rs:1652-1695 | The call id is persisted between hand-over and confirmation. |
| Manager.SwapManager.PersistPendingCallId | crates/lib/src/swap/reverse.rs:1699-1715 | The stored row gets the call id and nothing else changes. |
| Manager.SwapManager.AcceptQuote | crates/lib/src/lib.rs:404-448 | Accepting a quote claims without the drift check and stays `Claiming` on failure. |
| Manager.SwapManager.SetSlippage | crates/lib/src/lib.rs:464-492 | Only a tolerance in bounds, only on a record that is not terminal. |
| Store.MemoryBoltzStorage.UpsertSwap | crates/lib/src/store.rs:76-82 | Overwrites the row of that id, and no other (the repository's test double of the store contract). |
| Store.MemoryBoltzStorage.ListActiveSwaps | crates/lib/src/store.rs:88-98 | Exactly the rows that are not terminal (same test double). |
| Store.MemoryBoltzStorage.IncrementKeyIndex | crates/lib/src/store.rs:103-109 | Returns the old counter and advances it; an exhausted one errs and stays (same test double). |
| Locks.MutualExclusion | crates/lib/src/swap/locks.rs:46-89 | In every interleaving at most one task per id is in its critical section. |
| Locks.WaitersShareTheEntry | crates/lib/src/swap/locks.rs:46-63 | Every live waiter and holder refers to the mutex now in the map. |
| Locks.PruneIsExact | crates/lib/src/swap/locks.rs:72-89 | A drop removes the entry exactly when no other task refers to it. |
| Locks.PruneSeesOnlyItself | crates/lib/src/swap/locks.rs:72-89 | The strong count a drop sees is the map, the guard and the other referrers. |
| Locks.StepKeeps | crates/lib/src/swap/locks.rs:46-89 | Each atomic step keeps the map, the counts and the owners consistent. |
| Locks.ExecutionKeeps | crates/lib/src/swap/locks.rs:46-89 | So does every interleaving. |
| Locks.CoarseStepStaysExact | crates/lib/src/swap/locks.rs:20-25 | Without cancellation and with drop as one step, each step keeps the map exact. |
| Locks.MapHoldsExactlyTheWantedIds | crates/lib/src/swap/locks.rs:20-25 | So the map holds exactly the ids some task waits for or holds. |
| Locks.LeaksExactly | crates/lib/src/swap/locks.rs:46-89 | A step leaves an entry nobody references if and only if it lets go of the last reference to a mapped mutex without pruning. |
| Locks.LeakFreeStaysReferenced | crates/lib/src/swap/locks.rs:20-25 | Through any interleaving without such a step every entry is referenced. |
| Locks.CancellationLeaks | crates/lib/src/swap/locks.rs:46-89 | A waiter cancelled after the prune decision leaves an entry that nobody uses. |
| Locks.SlowDropLeaks | crates/lib/src/swap/locks.rs:72-89 | So does a second holder's drop between the first one's release and its `Arc`, with no cancellation. |
| Interleaving.EveryInterleavingIsARun | crates/lib/src/swap/manager.rs:37-52 | However the effects of concurrent handlers interleave under the per-swap locks, a swap nobody holds is where the handlers that entered, run whole and in that order, leave it. |
| Interleaving.InterleavingsKeep | crates/lib/src/swap/manager.rs:37-52 | So every interleaving keeps the evidence invariant, the record's movement and the submission bound. |
| Interleaving.WholeHandlersImplement | crates/lib/src/swap/manager.rs:37-52 | The handlers cut into one effect each are such handlers. |
| Interleaving.ExecutionKeeps | crates/lib/src/swap/locks.rs:46-89 | At every moment a held swap is where its one handler, running alone, has got to. |
| Locks.SwapLocks.CloneEntry | crates/lib/src/swap/locks.rs:46-56 | Finds or makes the entry and counts the clone. |
| Locks.SwapLocks.TakeSemaphore | crates/lib/src/swap/locks.rs:57-63 | The await resolves for one task. |
| Locks.SwapLocks.ReleaseSemaphore | crates/lib/src/swap/locks.rs:66-70 | Dropping the inner guard frees the mutex after the decision. |
| Locks.SwapLocks.ForgetArc | crates/lib/src/swap/locks.rs:66-70 | The last clone goes away, after a release or a cancelled wait. |
| Locks.SwapLocks.PruneEntry | crates/lib/src/swap/locks.rs:73-88 | The drop's decision under the map's mutex. |
| KeyIndex.IndicesNeverRepeat | crates/lib/src/secrets.rs:99-113 | Any number of concurrent calls, with cancellation, crashes, read errors and failed writes anywhere, as long as no write leaves part of its text: issued indices rise strictly and stay below the persisted counter. |
| KeyIndex.SmoothRunsSkipNothing | crates/lib/src/secrets.rs:99-113 | Without losses the issued indices are consecutive. |
| KeyIndex.UnguardedCallsCollide | crates/lib/src/lib.rs:526-573 | Without the lock two overlapping calls get the same index (the case the repository's test double of a racy store is for). |
| KeyIndex.FileBoltzStorage.IncrementKeyIndex | crates/cli/src/main.rs:721-728 | The index read is returned and the file reads back as the next; a full counter and unreadable text change nothing. |
| KeyIndex.IndexIsRead | crates/cli/src/main.rs:643-652 | A missing file reads as zero, and white space around the number does not matter. |
| KeyIndex.TornWriteFallsBack | crates/cli/src/main.rs:654-657 | A torn write of the counter reads as an error, as the new counter, or as at most a tenth of it. |
| KeyIndex.TornWriteIsSafeExactly | crates/cli/src/main.rs:721-728 | After a torn write no later run repeats an index if and only if every issued one is below what is left of the counter. |
| KeyIndex.PartialWriteRepeatsExactly | crates/cli/src/main.rs:654-657 | With all indices below it issued, a torn write leads to a repeat if and only if it kept some but not all of the text. |
| Fees.InvoiceIsExact | crates/lib/src/swap/reverse.rs:2277-2326 | Forward from the computed invoice gives exactly the amount asked for, and the same Boltz fee. |
| Fees.InvoiceIsLeast | crates/lib/src/swap/reverse.rs:2351-2383 | An invoice yields at least the amount if and only if it is at least the computed one. |
| Fees.InvoiceExists | crates/lib/src/swap/reverse.rs:2277-2326 | The computation succeeds if and only if the fee is below 100% and the invoice fits 64 bits. |
| Fees.InverseOfForward | crates/lib/src/swap/reverse.rs:2351-2383 | Inverting a forward result never asks for more than the original invoice, for every fee below 100%. |
| Fees.FeesAddUp | crates/lib/src/swap/reverse.rs:2351-2383 | The parts add up to the invoice and Boltz's fee is its percentage, rounded up. |
| Fees.OnchainExists | crates/lib/src/swap/reverse.rs:2351-2383 | The forward amount exists if and only if the invoice covers all fees. |
| CctpFees.BurnDeliversTarget | crates/lib/src/evm/cctp.rs:98-124 | Outside saturation the computed burn delivers the target or one more, never less. |
| CctpFees.RequiredBurnMono | crates/lib/src/evm/cctp.rs:111-124 | The required burn is monotone in the target, saturated or not. |
| CctpFees.TotalFeeMono | crates/lib/src/evm/cctp.rs:98-104 | The fee is monotone in the burn. |
| CctpFees.TotalFeeIs | crates/lib/src/evm/cctp.rs:98-104 | Outside saturation the fee is the scaled basis points of the amount, rounded down, plus the flat fee. |
| CctpFees.BufferIsTwoBps | crates/lib/src/evm/cctp.rs:126-138 | Outside saturation the cap is the fee and two basis points of it, rounded up. |
| CctpFees.BufferCovers | crates/lib/src/evm/cctp.rs:130-138 | The buffered cap covers its fee exactly up to a ten-thousandth of the 128-bit range. |
| Floors.DirectDelivers | crates/lib/src/swap/reverse.rs:990-1009 | Any output an accepted direct claim lets through is at least the promise; its minimum is exactly the promise, or at the live quote that quote less the tolerance, and within the quote. |
| Floors.CctpDelivers | crates/lib/src/swap/reverse.rs:1140-1165 | Any burn at or above the minimum, charged at most the cap, delivers at least the promise; the minimum is exactly that floor plus the cap, and within the live quote. |
| Floors.OftDelivers | crates/lib/src/swap/reverse.rs:1401-1482 | The two legs spend exactly the locked tBTC, the fee leg asks for the messaging fee raised by the tolerance, the minimum is within the live quote and keeps the promise. |
| Floors.FloorIsSoundAndAttainable | crates/lib/src/swap/reverse.rs:2494-2558 | The floor is positive, within the live quote, and with the drift check on exactly the promise. |
| Floors.FloorRefusesExactly | crates/lib/src/swap/reverse.rs:2494-2558 | Exactly which claims are refused. |
| Floors.DirectRefusesLikeTheFloor | crates/lib/src/swap/reverse.rs:990-1009 | A direct claim is refused for nothing else. |
| Floors.OftRefusesExactly | crates/lib/src/swap/reverse.rs:1401-1482 | Exactly which Oft claims are refused. |
| Floors.DegradedSaysBoth | crates/lib/src/swap/reverse.rs:2494-2511 | A quote below the promise is reported with the expected and the quoted amount. |
| Floors.CctpRefusesLikeTheFloor | crates/lib/src/swap/reverse.rs:1163-1165 | The final overflow check never fires. |
| Floors.CapCoversQuotedFees | crates/lib/src/evm/cctp.rs:126-138 | The cap covers the quoted fee of every burn up to the quote exactly while that fee is not absurd. |
| Floors.AbsurdFeeOutgrowsTheCap | crates/lib/src/evm/cctp.rs:130-138 | An accepted claim whose cap is below the quoted fee. |
| OftSearch.EstimateRequiredSend | crates/lib/src/swap/reverse.rs:1809-1885 | For any quote: the result delivers the target, one less does not (unless it is the target), within 33 quotes plus the result's bit length; and the cause of every error. |
| OftSearch.FindUpperBound | crates/lib/src/swap/reverse.rs:1838-1868 | Phase one: at most 33 quotes; an error means that every doubling fell short. |
| OftSearch.NarrowDown | crates/lib/src/swap/reverse.rs:1870-1884 | Phase two: a logarithmic number of quotes to a tight bound. |
| OftSearch.FoundIsLeast | crates/lib/src/swap/reverse.rs:1833-1834 | For a monotone quote the result is the least sufficient amount. |
| OftSearch.LegacyIsExactAndLeast | crates/lib/src/evm/oft.rs:68-86 | The legacy closed form is the least amount that survives the 3 bps fee, and survives it exactly. |
| OftSearch.LegacyExists | crates/lib/src/evm/oft.rs:68-86 | It exists if and only if the scaled target with its bump fits 128 bits. |
| Quotes.PickBestQuoteWithData | crates/lib/src/swap/reverse.rs:2600-2636 | The first of the best quotes, the most output for an input or the least input for an output, with its own data; an error if there is none or at the first amount that does not parse. |
| Decimal.UsdRoundTrip | crates/cli/src/main.rs:561-575 | Parsing the printed number, without its currency, gives back every 64-bit amount. |
| Decimal.PrintedTextIsRejected | crates/cli/src/main.rs:561-575 | With its currency the printed text is no amount. |
| Decimal.AcceptedIsPlainExactly | crates/cli/src/main.rs:738-763 | An accepted text is digits and points if and only if it holds no plus sign. |
| Decimal.PlusInWholeIsAccepted | crates/cli/src/main.rs:741-747 | A plus sign before the whole part is accepted. |
| Decimal.ParseUsdMeaning | crates/cli/src/main.rs:738-763 | Digits, a point and at most six digits parse to exactly the amount, or err when it exceeds 64 bits. |
| Decimal.ParseUsdShapes | crates/cli/src/main.rs:738-763 | Digits alone are whole dollars; no whole part, more than six decimals and a second point are errors. |
| Decimal.PlusInFractionIsAccepted | crates/cli/src/main.rs:750-755 | A plus sign after the point is accepted and takes up a place. |
| Decimal.ParseScaled | crates/lib/src/evm/cctp.rs:152-196 | The padding loop computes the scaled value. |
| Decimal.ScaledIsFloor | crates/lib/src/evm/cctp.rs:152-196 | On digits.digits that value is the number times ten to the scale, rounded down, or an error exactly when it exceeds 128 bits. |
| Decimal.ScaledWhole | crates/lib/src/evm/cctp.rs:152-196 | On digits alone it is exactly the number times ten to the scale, or that error. |
| Decimal.ParsePrinted | crates/cli/src/main.rs:643-657 | A printed integer parses back. |
| CctpMessage.BytesRoundTrip | crates/lib/src/evm/contracts.rs:826-837 | Big-endian encoding and reading are inverse. |
| CctpMessage.ReadersRecoverFields | crates/lib/src/evm/contracts.rs:734-739 | From any message laid out field by field the readers recover domain, nonce, amount and fee. |
| CctpMessage.DeliveredIsBurnMinusFee | crates/lib/src/evm/contracts.rs:805-813 | The attested amount is reported exactly when burn minus fee is non-negative and fits 64 bits. |
| LogScan.FirstDecodedIsEarliest | crates/lib/src/evm/contracts.rs:741-919 | The scan finds nothing only when no log decodes, otherwise the earliest that does. |
| LogScan.DecodeDelivered | crates/lib/src/evm/contracts.rs:716-732 | The loop with its skips and early return is that scan. |
| LogScan.DecodedShape | crates/lib/src/evm/contracts.rs:699-711 | Each source yields the tracking handle its bridge needs, and no other. |
| LogScan.BurnLogDecodes | crates/lib/src/evm/contracts.rs:741-794 | A burn log decodes to its domain and burn minus fee floored at zero, and agrees with the attested reader where that answers. |
| LogScan.BurnLogIsFound | crates/lib/src/evm/contracts.rs:741-794 | The scan finds such a log with that amount and domain. |
| LogScan.OftLogDecodes | crates/lib/src/evm/contracts.rs:879-919 | An OFT send of the contract is found exactly when the amount received fits 64 bits, with that amount and the second topic as the message's id. |
| LogScan.TransferLogDecodes | crates/lib/src/evm/contracts.rs:839-877 | A transfer of the token is found exactly when it goes to the user and its value fits, with that value. |
| LogScan.OthersAreSkipped | crates/lib/src/evm/contracts.rs:741-919 | Logs of another contract or event, or short of topics, are skipped. |
| Registry.RegistryIsFaithfulExactly | crates/lib/src/models.rs:345-349 | Every destination is found under its own identity if and only if the source label is not one of Circle's. |
| Registry.BuiltIdentitiesDiffer | crates/lib/src/evm/oft.rs:114-254 | No two destinations of a built registry share a label, ignoring ASCII case, and an asset, if and only if the source label is not one of Circle's. |
| Registry.SourceNamedLikeCircles | crates/lib/src/evm/oft.rs:221-245 | A feed that names the source chain like one of Circle's builds a registry that hides USDC on it. |
| Registry.NativeWins | crates/lib/src/evm/oft.rs:171-203 | No legacy-mesh destination is on a chain that a usable native entry names. |
| Registry.FeedListsExactly | crates/lib/src/evm/oft.rs:174-203 | A feed gets a chain listed if and only if its first usable entry, native before legacy, brought a new label. |
| Registry.ChainIsListedExactly | crates/lib/src/evm/oft.rs:190-203 | Within one section, a chain not seen before is listed exactly when its first usable entry brought a new label. |
| Registry.DestinationIs | crates/lib/src/evm/oft.rs:300-381 | Exactly which entries are usable, with which contract, transport, asset and bridge. |
| Registry.CircleRoutes | crates/lib/src/models.rs:403-515 | The domains and chain ids of Circle's destinations. |
| Registry.RepeatedLabelFeed | crates/lib/src/evm/oft.rs:190-203 | A feed with a repeated label loses a usable chain. |
| Registry.SourceContractsArePinned | crates/lib/src/evm/oft.rs:271-287 | Source contracts are absent or the pins, and a substituted one builds no registry. |
| Registry.RegistryErrs | crates/lib/src/evm/oft.rs:114-217 | Exactly why a feed builds no registry, first reason first. |
| Registry.SourceUsdtIsDirect | crates/lib/src/evm/oft.rs:205-217 | The source chain's USDT is in every registry, delivered without a bridge. |
| Registry.ParseChainRegistry | crates/lib/src/evm/oft.rs:114-254 | The build computes the specified registry or error. |
| Registry.ScanSections | crates/lib/src/evm/oft.rs:174-203 | The loop with its seen-sets collects the specified destinations. |

## Left out

- Runs.ClaimedNeverLost: assumes that store writes succeed and that no other process overwrites the row; a failed write is only logged by the client.
- Runs.RunKeeps: follows one swap; a pass over many swaps is this swap's share of it, with the height read at this swap's listing, which is when the pass reads it.
- Interleaving.EveryInterleavingIsARun: holds for every way to cut the handlers into effects and fixes none; a handler abandoned inside is one whose remaining effects do nothing, as in a run; the passes' listings, which take no lock, are part of the environment.
- Provenance.CompletedMeansClaimed: one way only; a dishonest sponsor need not do harm, because the client may never ask it at the instant it lies.
- Runs.CompletionIsEarned: assumes that the registry, when it resolves the destination, resolves it to the bridge recorded on the swap.
- Convergence.TwoTicksConverge: takes the process to survive and the nodes to answer from the first pass on.
- ExecutorTrace.ClaimTrace: everything between an attempt's start and its submission (quotes, fees, signing, encoding) is one answer: blocked, drifted or ready. `Floors` has its arithmetic.
- Runs.SubmissionsAreBounded: a submission that errs may still have been broadcast; only acknowledged ones are counted.
- KeyIndex.IndicesNeverRepeat: leaves out a write that leaves part of its text, after which it can fail; and a write that lands after its caller was cancelled and the lock released is not modelled, because the stores here write before they yield.
- OftSearch.EstimateRequiredSend: the quote is a function of the amount; a bridge that answers differently twice is not covered.
- Fees.InvoiceExists: takes the percentage as whole basis points; parsing it from a floating-point number is not modelled.
- Floors.OftDelivers: the Router's and the bridge's own enforcement of the minimum is taken as given.
- LogScan.DecodeDelivered: hexadecimal, ABI decoding and address parsing are given per log as their results, topics as canonical text.
- Registry.ParseChainRegistry: takes the parsed feed; token addresses on the destinations do not matter here and are dropped.
- Signing, hashing, key derivation, address encodings, LayerZero options and hook bytes.
- HTTP, WebSocket, proxies, JSON (the amounts' text apart), retries of transport, wall-clock time and sleeps, `updated_at`.
- WebSocket tracking and unsubscription, event listener dispatch, logging, command-line prompts.
- `prepare` and `create` up to the record they produce, and the destination address checks.
- The command-line client's swap files.
