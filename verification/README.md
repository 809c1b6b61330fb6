# Waypoint: a verified model of its paid calls, evolve loop and outcome learning

Waypoint runs, for every Pro of a run, a compounding loop of paid model calls, and later learns
from what the Pro did. This project models the parts of that service whose correctness is a
property of whole runs rather than of one function, and proves those properties for every input,
every run and every interleaving. Times are seconds, money is exact units of 1e-4 USD, scores are
reals, tables are sequences and maps.

## The parts

* **Paid calls** (`Ledger`, `LedgerGuards`, `LedgerProofs`, `LedgerCover`, `LedgerDay`, `LedgerStore`, `LedgerCalls`). Rows of `llm_calls` with
  the run and day ledgers as a machine whose steps are single committed transactions; a crash may fall
  between any two. `LedgerStore` holds the code's own statements, each method equal to a sequence of
  steps.
* **Crash and resume** (`Replay`). Any stage that only asks keyed, recorded calls, as a strategy over the
  replies it has seen; `LedgerReplay` ties it to the rows of the ledger.
* **The round** (`Round`, `RoundRules`, `BatchProofs`, `BatchRefills`, `RoundPrefix`, `RoundTrace`, `RoundProofs`,
  `RoundRuns`, `RoundForgets`). Batch generation with refills, the fail-closed critic, validated ranking and finalist
  screens, as such a strategy; which replies its values come from, in what order it asks, and what a crash
  leaves of it.
* **The loop and its ledger** (`Loop`, `Evolve`, `EvolveProofs`, `EvolveRows`). The win-stay / lose-shift policy live and
  replayed, and the champion row, over runs of rounds and crashes.
* **Outcome learning** (`Outcomes`, `OutcomesStore`, `OutcomesRows`, `OutcomesReplay`, `WarmStart`,
  `WarmStartRuns`, `WarmStartGaps`, `Eligibility`, `RowWrites`, `RowRuns`, `RowHistory`, `RowRouting`, `RowFlags`, `ExposureHistory`,
  `SweepProofs`, `Coverage`, `CoveragePolls`, `CoverageProofs`, `Evidence`, `EvidenceRules`, `Iterable`,
  `IterableFates`, `IterableOutcomes`, `Naming`). Routing, labels, tri-state horizons, warm-start eligibility, coverage-stamped negatives, the readers, the two
  pollers, and how a record names its touch.
* **Concurrent and greedy algorithms** (`Finalize`, `FinalizeProofs`, `FinalizeJobs`, `Items`, `ItemsRules`,
  `ItemsProofs`, `Panel`, `PanelRules`, `PanelProofs`). Leases and run finalization, optimistic item versioning, persona panels.
* `Common` and `Sorting` are shared.

## Hypotheses the theorems carry

* A worker resolves abandoned calls on stage entry and asks a key once per entry, and a provider reply,
  seen or lost, costs at most its reservation (`LedgerCover.Fair`); the day limit needs only the second half
  (`LedgerCover.Affordable`). The fleet_control row exists.
* A replayed round is given the same context, and no provider failure precedes a crash; the second
  half is exact (`RoundRuns.RoundReplaysExactly`). A stage entry on the ledger has its reservations granted
  (`LedgerReplay.Funded`).
* Candidate ids are fresh and distinct.
* Eligibility: a submission names its touch by a winner, or by an exposure's own id
  (`WarmStartRuns.Canonical`), an exposure gets its winner late only where its rows add nothing to that
  winner's verdict (`WarmStartRuns.QuietLink`, exact by `WarmStartGaps.LateLinkKeepsExactly`), and winner ids
  are not exposure ids. Labels, proven returns, routing and horizons (`RowHistory`, `RowRouting`, `RowRuns`) and
  coverage need none of this, only what the two queries of a sweep return (`RowRuns.Queried`).
* That a sweep leaves nothing overdue and no silent exposure without a row is stated for sweeps whose queries were
  not cut by their limits (`SweepProofs.Unlimited`); what it measures of the rows it takes needs no hypothesis.
* Coverage: the provider serves activity newest first and indexes an event within the six-hour grace; only the
  poller writes Amplitude rows; a late link is safe (`CoverageProofs.Outside`, exact by
  `CoverageProofs.LateLinkIsSafeExactly`); and the row's horizon lies in the 30 days after its exposure's send
  (`CoverageProofs.Inside`), as it does whenever the two carry the same clock.
* An export returns every send of the stream created in its window (`Iterable.AllExported`).
* No step of a run leaves it with every job ended, no status and nobody at work
  (`FinalizeProofs.Orderly`, exact by `FinalizeProofs.OnlyOrderlyStepsKeepPromise`); the heal pass needs no such
  hypothesis.
* A worker acts on a job only while it holds the lease (`Finalize.Enabled`), and personas have distinct ids.

## What the proofs found

* The run limit is a cap on outstanding reservations (`LedgerProofs.EveryRunConserves`); the model, like the code,
  has no cap on what a run spends.
* Re-asking a pending key without abandoning it first would pay twice under one reservation
  (`LedgerCover.PendingReaskBreaksCover`).
* A call reserved yesterday and reconciled today releases today's ledger
  (`LedgerCover.RolloverReleasesTheWrongDay`); `LedgerCover.SettleKeepsDrift` says exactly when the books stay in step.
* A refill whose provider failed is tolerated but not recorded, so a later crash can make the re-run differ from
  the interrupted round (`RoundForgets.FailedRefillIsForgotten`); it can after every such failure and after
  nothing else (`RoundRuns.RoundReplaysExactly`).
* Replay forgets suppressed mechanisms and rounds the best score to four decimals, and nothing else
  (`Loop.RoundKeepsAgreement`, `EvolveProofs.ForgottenWereSuppressed`).
* A late winner link does not re-run promotion (`WarmStartGaps.LateLinkLeavesWinnerBehind`), a foreign key
  re-submitted without its exposure is labelled without demoting the winner
  (`WarmStartGaps.RelabelWithoutPromotion`), and a late link to another Pro keeps a coverage stamp that Pro's
  returns never earned (`CoverageProofs.LateLinkUncovers`). `LateLinkKeepsExactly`, `RelabelKeepsExactly` and
  `LateLinkIsSafeExactly` say exactly when each goes wrong.
* A row that reported its own send before its exposure was confirmed keeps that clock, while the coverage stamp
  follows the exposure's: a day the Pro returned in can be stamped false
  (`CoverageProofs.MovedClockHidesReturn`; exactly when, `CoverageProofs.GatedNegativeExactly`).
* Promotion is documented to converge on the same values whatever order rows land in. Eligibility and status
  do; the recorded seven-day return does not when a measured comparison has no positive treatment and rows
  of the least source name disagree (`WarmStart.PromotionConvergesExactly`).
* Ingestion is described as idempotent per key; a first submission with its own send state against an
  unconfirmed exposure is the exception (`OutcomesReplay.ReplayedItemIsSafe`).
* The comment on the Amplitude budget adds CALL_BUDGET - 1 + 1 + PAGE_CAP and calls it 29; the sum is 30, but
  the second budget check in the loop makes 29 right (`Coverage.SpendCalls`, `Coverage.BoundIsTight`).
* An outcome event that carries a run stamp passes the gate of the Iterable poller even when its exposure was never
  registered; storing it then fails on the foreign key, on every replay, and the window never passes
  (`IterableOutcomes.WindowPassesExactly`, `IterableOutcomes.PoisonHoldsCursor`).
* A requeued attempt that reports its run as waiting after a successor has finalized it strands the run
  until the next heal pass (`FinalizeProofs.LateReportStrands`).

## Model

| member | source | states |
|---|---|---|
| LedgerStore.PaidCalls.ReserveCost | services/api/src/waypoint/queue.py:173-188 | A reservation takes the amount on the run and on the day, or changes neither; it is granted exactly when the run is not stopped, the fleet not killed, and both the run and today, a day that is over holding nothing, have room for it |
| LedgerStore.PaidCalls.Reconcile | services/api/src/waypoint/queue.py:147-154 | A committed row releases its hold, books the actual cost, gives back the difference to the day only while the day is the same, and becomes reconciled |
| LedgerStore.PaidCalls.CommitResult | services/api/src/waypoint/calls.py:127-146 | A reply is stored only on a pending row; an abandoned one is never resurrected |
| LedgerStore.PaidCalls.AbandonStale | services/api/src/waypoint/calls.py:152-167 | Exactly the pending rows of the Pro are abandoned, each reported once |
| LedgerStore.PaidCalls.ConvertBatch | services/api/src/waypoint/pipeline.py:402-405 | The abandoned rows just reported are converted, in one commit of their own |
| LedgerStore.PaidCalls.ConvertOne | services/api/src/waypoint/queue.py:157-162 | One abandoned reservation moves from held to spent |
| LedgerStore.PaidCalls.ResolveAbandoned | services/api/src/waypoint/pipeline.py:397-405 | Stage entry is two transactions of the ledger, abandon and then convert |
| LedgerStore.PaidCalls.Complete | services/api/src/waypoint/calls.py:181-261 | One paid call is the stated sequence of ledger transactions; a recorded key is answered from its row and nothing is sent, a refused reservation ends in BudgetExhausted, a provider error leaves the row pending |
| LedgerStore.PaidCalls.Dispatch | services/api/src/waypoint/calls.py:237-261 | The provider call and its aftermath: reply, commit, reconcile; or a charge that was never seen |
| LedgerProofs.StepConserves | services/api/src/waypoint/calls.py:106-167 | Any one transaction keeps every run's reserved column equal to what its rows hold and its spent column equal to what they settled |
| LedgerProofs.EveryRunConserves | services/api/src/waypoint/queue.py:35-93 | Run ledger conservation over every interleaving of reserve, begin, re-prime, commit, reconcile, abandon, convert, preflight, crash, day change and operator action; the run limit caps what is reserved |
| LedgerProofs.ClampNeverBites | services/api/src/waypoint/queue.py:74-93 | The GREATEST(..., 0) of the run ledger never clamps: a run holds at least what any of its rows can release |
| LedgerGuards.ClosedRunTakesNothing | services/api/src/waypoint/queue.py:35-57 | However long a run is stopped or the fleet killed, in every interleaving of everything its workers do meanwhile, nothing new is taken for it: its hold does not grow, it gets no new row and none of its rows is reserved for again |
| LedgerGuards.StopTakesEffect | services/api/src/waypoint/queue.py:35-57 | From the commit that stops a run until one that resumes it, or from the one that kills the fleet until one that revives it, in every interleaving nothing new is reserved for that run, or for any |
| LedgerGuards.AskIsGrantedExactly | services/api/src/waypoint/queue.py:173-188 | An ask under a new or abandoned key on a live run with room, on a day with room, is granted: both ledgers hold it, its row is pending under it and the request is out, nothing else changed; otherwise it is refused and changes nothing |
| LedgerGuards.PreflightTakesNothing | services/api/src/waypoint/pipeline.py:589-601 | A preflight gives back what it took: with room it only rolls the day ledger over, without it changes nothing |
| LedgerGuards.NewDayHoldsNothing | services/api/src/waypoint/queue.py:44-57 | After any run a new day starts with nothing held against its limit, and the day limit set last is the one that counts |
| LedgerGuards.CrashLosesReplies | services/api/src/waypoint/calls.py:237-261 | A crash changes no table and loses the replies of its worker: none of its keys is committed before it starts again |
| LedgerCalls.SentIsHeld | services/api/src/waypoint/calls.py:208-236 | A request that goes out is for a pending row and holds the worst case, or what a crashed attempt still held |
| LedgerCalls.AnsweredCallIsSettled | services/api/src/waypoint/calls.py:237-261 | An answered call ends with its row reconciled under the reply, its run holding nothing for it any more and the price spent, other runs untouched, and, for a new attempt, today holding the price and nothing of the worst case |
| LedgerCalls.RecordedAskSettles | services/api/src/waypoint/calls.py:195-207 | Reading a recorded call first settles it if a crash came between its commit and its reconciliation, and changes nothing otherwise |
| LedgerCover.RecordIsFinal | services/api/src/waypoint/calls.py:127-150 | No transaction changes the response or the price of a committed or reconciled row |
| LedgerCover.RecordIsFinalForever | services/api/src/waypoint/calls.py:97-104 | A recorded response stays the answer to its key for the rest of every run |
| LedgerCover.RecordedAskIsFree | services/api/src/waypoint/calls.py:194-207 | Asking a recorded key sends nothing to the provider and reserves nothing more |
| LedgerCover.ChargedOnlyUnrecorded | services/api/src/waypoint/calls.py:194-261 | The provider is charged only for keys without a recorded response |
| LedgerCover.NoSecondSend | services/api/src/waypoint/calls.py:235-236 | A worker that resolves abandoned calls on entry and asks each key once never reaches the branch that re-sends a pending call under its old reservation |
| LedgerCover.StepCovers | services/api/src/waypoint/calls.py:208-261 | Every transaction of a worker that follows the pipeline keeps, row by row, the charge of the current attempt within its reservation and earlier charges within what was owed or converted |
| LedgerCover.FairRunCovers | services/api/src/waypoint/pipeline.py:397-405 | The same over whole runs, crashes and re-attempts included |
| LedgerCover.RecordsCoverPayments | services/api/src/waypoint/calls.py:208-261 | Records cover real payments: what the provider really charged a run is at most its recorded spend plus what it still holds, through provider failures, lost responses and re-attempts of abandoned keys |
| LedgerCover.PendingReaskBreaksCover | services/api/src/waypoint/calls.py:235-236 | Why the hypothesis is needed: re-asking a crashed pending key without abandoning it first pays twice under one reservation |
| LedgerDay.DayLimitHolds | services/api/src/waypoint/queue.py:46-56 | The day ledger never exceeds the highest day limit configured so far, across rollovers and whatever workers ask or re-ask, when replies cost at most their reservation |
| LedgerDay.IdleFits | services/api/src/waypoint/calls.py:127-150 | With nobody at work it is enough that no recorded price exceeds its reservation |
| LedgerDay.StepFits | services/api/src/waypoint/calls.py:208-261 | Any transaction, under that provider half alone, keeps every recorded price and every reply a worker holds within the reservation of its row |
| LedgerCover.SettleKeepsDrift | services/api/src/waypoint/queue.py:81-86 | When reconciling keeps the day ledger and the run ledgers in step: exactly when the day is unchanged and the release fits, or the call cost its whole reservation |
| LedgerCover.SameDayBalance | services/api/src/waypoint/queue.py:74-93 | Within one day the day ledger and the run ledgers move together to the unit |
| LedgerCover.RolloverReleasesTheWrongDay | services/api/src/waypoint/queue.py:81-86 | Across a rollover they do not: a call reserved yesterday releases today's ledger |
| LedgerReplay.CompleteReads | services/api/src/waypoint/calls.py:194-261 | One paid call does to the table what one step of the abstract process does to its records: a recorded key is answered from its row, a reply is recorded under its key alone, a provider error or a refused reservation records nothing |
| LedgerReplay.OnlyCommitsRecord | services/api/src/waypoint/calls.py:127-150 | Nothing but the commit of a reply changes what any key reads as: crashes, lost replies, abandonment, conversion and other owners leave every record as it was |
| LedgerReplay.EntryIsDrive | services/api/src/waypoint/calls.py:194-261 | A funded stage entry through the ledger, with any transactions of other owners between its calls, has the outcome, the recorded responses and the provider calls of the abstract process that replay is proved about |
| LedgerReplay.EntryConserves | services/api/src/waypoint/queue.py:35-93 | Every commit of such an entry is a step of the ledger, so the run books stay balanced across it |
| LedgerReplay.InterruptedStageIsDrive | services/api/src/waypoint/pipeline.py:397-405 | Crash and resume on the ledger: however often the processes of a stage die between commits, each resolving what the last left pending, and whatever other owners commit in between, the last one ends as one uninterrupted process on all their answers, with its records and provider calls, and the books balanced; no process but the last may have seen a provider failure |
| Replay.DriveGrows | services/api/src/waypoint/calls.py:194-207 | A process only adds records and calls the provider only for keys that have none |
| Replay.RestartMatches | services/api/src/waypoint/calls.py:208-261 | From any common point, a crashed process and its successor together do what one process with both tapes does |
| Replay.ReplayIsUninterrupted | services/api/src/waypoint/calls.py:194-261 | Crash-anywhere replay: however often a stage is interrupted, its processes together reach the result, the records and the provider calls of one uninterrupted process |
| Replay.ReplayExactlyWithoutFailures | services/api/src/waypoint/pipeline.py:677-684 | For any stage that re-asks no key and survives at most one provider failure, from any records: a crashed process is resumed faithfully, whatever the provider answers its successor, if and only if no provider call of it had failed |
| Replay.FinishedIsReached | services/api/src/waypoint/pipeline.py:428-475 | What a process ends with is what the stage function says for some replies, each of them the recorded response of the key it answered |
| Round.ValidJsonCall | services/api/src/waypoint/pipeline.py:428-475 | The re-ask loop: at most JSON_CALL_ATTEMPTS fresh keys, never after a provider failure |
| Round.DedupeMechanisms | services/api/src/waypoint/pipeline.py:552-565 | The dedupe loop computes the specification that BatchProofs.DedupeFacts is about |
| Round.GenerateBatch | services/api/src/waypoint/pipeline.py:635-686 | The generation and refill loop computes the specification that BatchProofs.BatchFacts, BatchRefills.FirstListDecides and BatchRefills.GapMeansRefillsSpent are about |
| Round.VerdictsForBatch | services/api/src/waypoint/pipeline.py:689-764 | The critic's three loops give every idea exactly one aligned verdict: its gate's, the critic's, or unreviewed, with the consent backstop last |
| Round.ValidatedTokens | services/api/src/waypoint/models.py:102-114 | A validated ranking names every candidate exactly once with distinct ranks within range, so every token look-up is total |
| Round.RankBatch | services/api/src/waypoint/pipeline.py:767-801 | A ranking is used only when it is validated; the call is re-asked within bounds |
| RoundRules.ThreeAttempts | services/api/src/waypoint/pipeline.py:428-475 | A call is asked three times, each under its own key; the first answer that parses is taken, the third that does not ends it, and a provider failure ends it at once |
| RoundRules.VerdictNamesFirstGate | services/api/src/waypoint/pipeline.py:703-759 | A verdict names the first gate that refused: a recent failure, then the channel, then the critic, its silence being a refusal, and last the consent rule on what the critic passed |
| RoundRules.CriticIsAskedExactly | services/api/src/waypoint/pipeline.py:719-742 | The critic is asked exactly when some idea passes both free gates, and any list of verdicts it answers is taken |
| RoundRules.DeadStageFailsRound | services/api/src/waypoint/pipeline.py:428-475 | A first generation or a needed critic that is dead, by a provider failure or three useless answers, fails the round |
| RoundRules.TokensFollowBatch | services/api/src/waypoint/pipeline.py:1026-1031 | Candidate tokens follow the order of the batch |
| RoundRules.RankingIsAcceptedExactly | services/api/src/waypoint/models.py:82-114 | A ranking of n candidates is accepted exactly when it ranks each of them once, with each rank once and scores between zero and one; anything else is asked again |
| RoundRules.SoleSurvivorIsJudged | services/api/src/waypoint/pipeline.py:1056-1111 | A sole survivor goes to the panel unranked; the reply on it decides failed, unavailable, lose or win, the win by the floor or the best score and keep delta of the state |
| BatchProofs.FirstOfEachIsFirst | services/api/src/waypoint/pipeline.py:559-561 | The idea kept for a mechanism is the first one that named it |
| BatchProofs.DedupeFacts | services/api/src/waypoint/pipeline.py:552-565 | Dedupe returns min(count, distinct mechanisms) ideas, all mechanisms different, a present keep seated first by the idea that first named it |
| BatchProofs.RefillKeepsIdeas | services/api/src/waypoint/pipeline.py:685 | One refill drops no idea, except that seating a warm idea that was missing may push out the last one |
| BatchProofs.RefillsKeepIdeas | services/api/src/waypoint/pipeline.py:671-686 | Over all refills a warm mechanism once present stays first and at most one idea is ever given up |
| BatchProofs.BatchFacts | services/api/src/waypoint/pipeline.py:635-686 | A batch has between 1 and count ideas with pairwise different mechanisms, the warm one first whenever it is there |
| BatchRefills.NoGapAsksNothing | services/api/src/waypoint/pipeline.py:671-674 | A batch with the ideas asked for, its warm mechanism among them, asks no further refill, whatever replies are left |
| BatchRefills.FirstListDecides | services/api/src/waypoint/pipeline.py:661-681 | After the first list the batch asks for a refill exactly when the list names fewer mechanisms than asked for, or not the warm one, and is done otherwise |
| BatchRefills.TwoRefills | services/api/src/waypoint/pipeline.py:671-686 | A second refill is asked exactly under the next key when the first leaves a gap, and after it the batch is done, gap or not |
| BatchRefills.JsonFailed | services/api/src/waypoint/pipeline.py:428-475 | A call that ends without a value met a provider failure under one of its keys, or had every attempt answered with what does not parse |
| BatchRefills.GapMeansRefillsSpent | services/api/src/waypoint/pipeline.py:671-686 | A batch that finishes short or without its warm mechanism used up its refills: one of them failed, or each was answered with ideas that could not help, naming no mechanism a short batch lacks and never the missing warm one |
| RoundTrace.JsonAnswered | services/api/src/waypoint/pipeline.py:428-475 | A parsed value is the parse of a reply to one of the call's own attempts |
| RoundTrace.BatchGenerates | services/api/src/waypoint/pipeline.py:635-686 | Batch generation invents nothing: every idea of a batch is in the list some generation or refill call was answered with |
| RoundProofs.RankableFacts | services/api/src/waypoint/pipeline.py:1026-1030 | The rankable positions are exactly the unsuppressed ones, each once |
| RoundProofs.UnsuppressedPassedEveryGate | services/api/src/waypoint/pipeline.py:703-759 | An idea goes on exactly when it did not recently fail, has an allowed channel or none, asks for no consent, and has a non-blocking critic verdict of its own |
| RoundProofs.BestScreenIsBest | services/api/src/waypoint/pipeline.py:1102-1108 | No screened finalist scored above the chosen one |
| RoundProofs.BestScreenIsFirst | services/api/src/waypoint/pipeline.py:1102-1108 | And none before it scored as high: of equals the first is chosen, an unusable score below every other |
| RoundProofs.TopTwoDiffer | services/api/src/waypoint/pipeline.py:1063-1069 | The two finalists of a validated ranking are different candidates |
| RoundProofs.ByRankIsContiguous | services/api/src/waypoint/models.py:98-99 | by_rank puts rank i at position i |
| RoundProofs.EveryRoundIsOk | services/api/src/waypoint/pipeline.py:937-1111 | Whatever the model answers, in a finished round every idea comes from a generation or refill reply, the verdicts are the gates' and those of one critic reply, the decision is a validated ranker reply, the finalists are its first and, within the tie margin, its second (the sole candidate, or nobody when ranking failed), every screen is what the panel's reply on that finalist was worth, the challenger is the first of the highest screened finalists (without a screen the first finalist or candidate), suppressed only if everyone was, and the result follows the win rule |
| RoundProofs.EveryChampionPassedEveryGate | services/api/src/waypoint/pipeline.py:1026-1111 | A winning round's challenger cleared the recently-failed, channel and consent gates, a critic reply of the round gave a usable non-blocking verdict on it, it is a top finalist of the ranker's validated reply (or the sole candidate), the panel's reply on it is the score, no screened finalist scored above it, and it beat the best by the rule |
| RoundRuns.NextSteps | services/api/src/waypoint/pipeline.py:937-1111 | One reply on: a round stays where it ended, asks its keys in a fixed order, screens at most two finalists, and from the critic on ends on a provider failure |
| RoundRuns.AsksInOrder | services/api/src/waypoint/pipeline.py:937-1111 | Of any two asks of a round the later one is later in that order or the second screen, so no key is asked twice |
| RoundRuns.SecondFailureEndsRound | services/api/src/waypoint/pipeline.py:677-684 | A round survives at most one provider failure |
| RoundRuns.RoundEnds | services/api/src/waypoint/pipeline.py:568-586 | A round asks its last call within 17 replies |
| RoundRuns.RoundAsksWithin | services/api/src/waypoint/pipeline.py:568-586 | At every point of every round, finished, failed, abstained or still asking, at most nine generation, three critic, three ranking and two screen calls were asked |
| RoundRuns.PreflightCoversRound | services/api/src/waypoint/pipeline.py:568-601 | No path through a round, however it ends or is cut short, costs more than the worst case checked before its first call |
| RoundRuns.PreflightCoversInterruptedRound | services/api/src/waypoint/pipeline.py:568-601 | Nor do the provider calls of all the processes an interrupted round takes, unless one of them failed before its crash |
| RoundRuns.RoundReplays | services/api/src/waypoint/pipeline.py:937-1111 | A round interrupted anywhere and re-run with the same context makes the provider calls of one uninterrupted round and reaches its ideas, verdicts, ranking, finalists and result |
| RoundRuns.InterruptedRoundIsOk | services/api/src/waypoint/pipeline.py:937-1111 | What an interrupted round finally commits is as well formed as an uninterrupted one, on replies that are all recorded responses of their keys |
| RoundRuns.RoundReplaysExactly | services/api/src/waypoint/pipeline.py:677-684 | For every context, records and crashed process of a round: its successor is faithful whatever the provider answers next, if and only if no provider call of the crashed process had failed |
| RoundForgets.FailedRefillIsForgotten | services/api/src/waypoint/pipeline.py:677-684 | A tolerated refill failure is not recorded: the same answers in the same order give other ideas when the process crashed in between |
| Loop.ApplyRound | services/api/src/waypoint/loop.py:130-169 | The live update of the policy state, tried mechanisms appended once each in order |
| Loop.StateMeans | services/api/src/waypoint/loop.py:105-169 | The policy state read off the history: best is the last win, current mechanism the last round's, tries its losing streak, dry the streaks that used up the patience since the last win |
| Loop.ModeMeans | services/api/src/waypoint/loop.py:116-119 | Win-stay, lose-shift from the history: the loop shifts exactly when its last rounds lost on one mechanism as often as its patience allows, and stays after a win |
| Loop.WinMeans | services/api/src/waypoint/loop.py:122-127 | From the history: a round wins exactly when it scored at least the last win and the keep delta, or the 1.0 floor before any win |
| Loop.StopMeans | services/api/src/waypoint/loop.py:172-187 | From the history: each stop reason, the win threshold before exhaustion before the round cap, holds exactly when its own condition does and none before it |
| Loop.Replay | services/api/src/waypoint/loop.py:199-212 | The recovery loop folds the ledger through the same update |
| Loop.RoundsClose | services/api/src/waypoint/tables.py:108 | A stored score is within half of the fourth decimal of the live one |
| Loop.RoundKeepsAgreement | services/api/src/waypoint/loop.py:130-212 | One committed round keeps live and replayed state equal in round, best candidate, mechanism, tries and dry count, the score within its rounding, and the replayed tried set inside the live one |
| Loop.ReplayedTried | services/api/src/waypoint/loop.py:190-196 | A resumed loop forbids exactly the mechanisms of challengers and ranked ideas |
| Loop.ReplayedMeans | services/api/src/waypoint/loop.py:199-212 | The replayed state read off the live history: the same streaks and counters, and the last win with its score rounded to the fourth decimal |
| Loop.ReplayedModeMeans | services/api/src/waypoint/loop.py:199-212 | A resumed loop shifts exactly when the live history says so |
| Loop.AgreementDecides | services/api/src/waypoint/loop.py:116-179 | Live and replayed state choose the same mode and, away from the fourth decimal, the same wins and stop |
| Loop.WinsAreBounded | services/api/src/waypoint/loop.py:122-127 | Each win raises the best by the keep delta from the 1.0 floor, so wins are bounded by the threshold |
| Loop.PatienceOneBoundsRounds | services/api/src/waypoint/loop.py:159-179 | With patience 1 the rounds are bounded by (wins + 1) * MAX_NO_IMPROVE whatever the cap |
| Loop.OnlyTheCapBoundsPatientLoops | services/api/src/waypoint/loop.py:159-179 | With any larger patience two mechanisms that take turns losing run to the round cap |
| Evolve.Store.CommitRound | services/api/src/waypoint/pipeline.py:1113-1183 | One committed round: a candidate row per idea, the dethroned champion, the ledger row and the live state, together |
| Evolve.Store.Resume | services/api/src/waypoint/pipeline.py:925 | A new process rebuilds its state from the ledger alone |
| EvolveProofs.NewChampions | services/api/src/waypoint/pipeline.py:1116-1121 | Of the rows a round adds, exactly a winning challenger's is a champion |
| EvolveProofs.CommitCrowns | services/api/src/waypoint/pipeline.py:1143-1146 | A winning round moves the crown to its challenger; any other leaves it |
| EvolveProofs.OrderHas | services/api/src/waypoint/pipeline.py:1207-1228 | The audit trail's order names exactly the mechanisms of the rankable ideas |
| EvolveProofs.ChampionIsReplayedBest | services/api/src/waypoint/pipeline.py:408-416 | At every commit of every run, crashes included, the champion rows are exactly the best candidate of the replayed ledger: at most one, none before the first win |
| EvolveProofs.LiveAgreesWithLedger | services/api/src/waypoint/loop.py:199-212 | At every point of every run the live state and the one replayed from the ledger agree |
| EvolveProofs.ModeFollowsRounds | services/api/src/waypoint/loop.py:116-119 | At every point of every run, crashes included, the loop shifts exactly when the committed rounds say so |
| EvolveRows.CandidateRowsMean | services/api/src/waypoint/pipeline.py:1113-1146 | After any run every idea of every committed round has its row: suppressed exactly when its verdict blocked it, champion exactly when it is the replayed best, discarded otherwise |
| EvolveProofs.OnlyWinsCrown | services/api/src/waypoint/pipeline.py:1143-1146 | Suppressed, unavailable and losing rounds change no champion row |
| EvolveProofs.CrownedWasCleared | services/api/src/waypoint/pipeline.py:1093-1121 | The row a winning round crowns is the idea that cleared every gate of that round, the critic reply, the ranker reply and the panel reply included |
| EvolveProofs.ForgottenWereSuppressed | services/api/src/waypoint/loop.py:190-196 | A mechanism the ledger has forgotten was suppressed in every round that generated it and never the challenger |
| EvolveProofs.TriedIsBetween | services/api/src/waypoint/pipeline.py:1148-1158 | What a loop forbids lies between what the ledger remembers and what its rounds generated |
| EvolveProofs.RoundsFollowPolicy | services/api/src/waypoint/pipeline.py:937-1186 | Rounds committed without a crash are a run of the loop policy |
| EvolveProofs.UninterruptedRunIsBounded | services/api/src/waypoint/loop.py:116-179 | An uninterrupted run wins at most 2 + (threshold - 1) / delta times, with patience 1 has at most (wins + 1) * MAX_NO_IMPROVE rounds, and never exceeds MAX_ROUNDS |
| OutcomesStore.Store.ApplyFlags | services/api/src/waypoint/outcomes.py:328-359 | Field by field update of a row: non-null flags win, send state only advances, the earliest return is kept, unresolved horizons are filled |
| OutcomesStore.Store.Apply | services/api/src/waypoint/outcomes.py:460-519 | One submission creates or updates its row and recomputes the label last; a new row for an unregistered exposure is refused |
| OutcomesStore.Store.IngestBatch | services/api/src/waypoint/outcomes.py:532-583 | A batch is applied whole, with every reached winner re-promoted, or not at all |
| OutcomesStore.Store.Promote | services/api/src/waypoint/outcomes.py:432-457 | Each winner is re-derived from every row it owns |
| OutcomesStore.Store.RegisterBatch | services/api/src/waypoint/exposures.py:58-114 | Registration creates, links, advances and merges exposures item by item |
| OutcomesStore.Store.SynthesizeRows | services/api/src/waypoint/checkpoints.py:69-136 | Silent confirmed exposures get one checkpoint row each |
| OutcomesStore.Store.ResolveDue | services/api/src/waypoint/checkpoints.py:139-266 | One sweep: synthesize, resolve due rows, re-promote every winner a changed row reaches |
| OutcomesRows.MergeIsJoin | services/api/src/waypoint/outcomes.py:138-167 | merge_routing is a join semilattice with no claim at the bottom and conflict above everything |
| OutcomesRows.FoldedMeans | services/api/src/waypoint/outcomes.py:138-167 | What any sequence of claims adds up to: nothing, the one claim everybody made, or a conflict |
| OutcomesRows.RouteToProMeans | services/api/src/waypoint/outcomes.py:138-167 | Claims add up to route-to-pro exactly when every non-empty one was and at least one existed |
| OutcomesRows.StoredRoutingIsTheFold | services/api/src/waypoint/outcomes.py:505-508 | Within one batch, for a row with no exposure, whatever else the batch writes, the stored routing is the fold of the claims its source made; RowRouting.StoredRoutingMeans is the statement over runs |
| OutcomesRows.WriteLabels | services/api/src/waypoint/outcomes.py:170-192 | After every write the label is absent exactly when the write resolved a winner or exposure, the stored routing is route-to-pro and delivered is not false |
| OutcomesRows.WriteMeasures | services/api/src/waypoint/outcomes.py:328-359 | A write keeps measured horizons, keeps them a monotone prefix, and every new true comes from a confirmed send and a return inside the window |
| OutcomesRows.NewRowMeasures | services/api/src/waypoint/outcomes.py:493-498 | The same for a first submission |
| RowWrites.UpdateMeasures | services/api/src/waypoint/outcomes.py:350-359 | A write measures an unmeasured horizon exactly when the row it stores is confirmed and shows a return, and as it shows it |
| RowWrites.ShownIsMeasured | services/api/src/waypoint/outcomes.py:350-359 | After any run a confirmed row that shows a return at or after its send has every horizon measured |
| RowWrites.StoredReturnIsEarliest | services/api/src/waypoint/outcomes.py:346-349 | After any run the first return stored under a key is the earliest its source ever reported in a stored batch, in whatever order |
| OutcomesRows.SweepMeasures | services/api/src/waypoint/checkpoints.py:198-223 | The sweep keeps measured horizons and the prefix, justifies every true, and changes nothing else of the row |
| SweepProofs.ResolvedMeans | services/api/src/waypoint/checkpoints.py:198-223 | A resolved row keeps what it had measured and otherwise measures exactly what is known: a stored return decides every horizon, and without one a horizon past its grace, inside the fetched returns when gated, is a miss |
| SweepProofs.SweepMeans | services/api/src/waypoint/checkpoints.py:139-223 | The same for every row a whole sweep picks, and no other row is measured |
| SweepProofs.SweepTakesExactly | services/api/src/waypoint/checkpoints.py:150-177 | The sweep takes exactly the confirmed rows past the grace of their first horizon with something left to measure and, when gated, some return fetched |
| SweepProofs.NothingOverdue | services/api/src/waypoint/checkpoints.py:150-223 | After a sweep whose queries were not cut no confirmed row has an unmeasured horizon whose window is over |
| SweepProofs.SilentExactly | services/api/src/waypoint/checkpoints.py:69-110 | A row is synthesized for exactly the confirmed exposures past the grace of their first horizon that no row is stored for, by their own id or their winner |
| SweepProofs.SilenceIsMeasured | services/api/src/waypoint/checkpoints.py:69-136 | After such a sweep every confirmed exposure nobody reported on has a row of its own, in its arm and with its routing, with a miss for every window that is over and nothing else |
| SweepProofs.MeasuredIsPromoted | services/api/src/waypoint/checkpoints.py:225-266 | A genuine winner owning a row whose day 7 a sweep newly measures is judged by its evidence in that sweep |
| OutcomesRows.SendStateAdvances | services/api/src/waypoint/outcomes.py:334-348 | Without an exposure a confirmed send keeps its clock, send state never falls back and the first return only moves earlier |
| RowWrites.SendStateMeans | services/api/src/waypoint/outcomes.py:280-345 | The send of a stored row is the exposure's, or its own without one: confirmed, nothing submitted moves it; unconfirmed, it takes what is stated |
| OutcomesRows.RegistrationAdvances | services/api/src/waypoint/exposures.py:94-112 | A confirmed exposure keeps its clock, a linked one its winner, and arm and coverage never change |
| ExposureHistory.ExposureMeans | services/api/src/waypoint/exposures.py:58-114 | After any run an exposure exists exactly when a registration of it was stored, and holds the arm of the first, the first winner named, the fold of every routing claim, and the send state of the registrations up to the one that confirmed it |
| OutcomesRows.IdentityIsTheAuthoritys | services/api/src/waypoint/outcomes.py:280-325 | Pro, arm, routing and exposure link of a stored row are the exposure's, or the winner's when there is none |
| OutcomesRows.CallerIdentityIsIgnored | services/api/src/waypoint/models.py:148-155 | What the caller claims about the Pro, and with an exposure about the routing, changes nothing that is stored |
| OutcomesRows.RegisteredIdentityIsTheWinners | services/api/src/waypoint/exposures.py:24-41 | A winner-linked registration takes the Pro of its winner |
| OutcomesReplay.RegistrationReplays | services/api/src/waypoint/exposures.py:44-55 | Registering an exposure twice is registering it once |
| OutcomesReplay.ReplayedItemIsSafe | services/api/src/waypoint/outcomes.py:460-519 | A replayed submission changes nothing exactly when its row already exists or it carries no own send state past an unconfirmed exposure |
| OutcomesReplay.PollersReplaySafely | services/api/src/waypoint/iterable_source.py:281-284 | What the pollers submit can always be replayed |
| WarmStart.PromotedIsEligibleBy | services/api/src/waypoint/outcomes.py:362-429 | The list algorithm grants eligibility exactly by the unlabelled measured rows: with arm tags a measured control and a positive treatment, without them one positive |
| WarmStart.StatusFollowsEvidence | services/api/src/waypoint/outcomes.py:390-429 | Eligible means validated; no evidence strips the claim; treatment-only evidence without a positive leaves the status as it was |
| WarmStart.EvidenceDecides | services/api/src/waypoint/outcomes.py:384-388 | Row lists with the same unlabelled measured rows get the same verdict |
| WarmStart.OrderAndLabelsAreIrrelevant | services/api/src/waypoint/outcomes.py:362-388 | Permuting or repeating rows and adding labelled ones changes no verdict |
| WarmStart.LeastIsLeast | services/api/src/waypoint/outcomes.py:426 | The recorded evidence comes from a row no other row's source name precedes |
| WarmStart.PromotionConverges | services/api/src/waypoint/outcomes.py:365-371 | Everything promotion records is the same for every order and repetition of the rows, unless a measured comparison without a positive treatment has least-named rows that disagree |
| WarmStart.PromotionConvergesExactly | services/api/src/waypoint/outcomes.py:365-371 | And exactly then: in an ambiguous comparison another order records the opposite return |
| WarmStart.NoPositiveRevokes | services/api/src/waypoint/outcomes.py:385-396 | Without an unlabelled positive, eligibility is revoked whatever it was |
| WarmStart.PromotedAreEvident | services/api/src/waypoint/outcomes.py:432-457 | After promotion every promoted winner is eligible exactly by the rows it owns, the others unchanged |
| RowWrites.NamedWinnerFirst | services/api/src/waypoint/outcomes.py:522-529 | An item is for the genuine winner it names; only without one for the genuine winner its exposure links to |
| RowWrites.IngestJudgesWinners | services/api/src/waypoint/outcomes.py:532-566 | After a batch the winner of each of its items is eligible exactly by the rows it owns |
| WarmStartRuns.ItemKeepsEvidence | services/api/src/waypoint/outcomes.py:522-529 | A write for one winner's touch leaves the evidence of every other winner alone |
| WarmStartRuns.IngestKeepsInv | services/api/src/waypoint/outcomes.py:532-566 | Ingestion keeps unique keys, monotone horizons and eligibility by evidence |
| WarmStartRuns.RegistrationKeepsInv | services/api/src/waypoint/exposures.py:58-114 | So does every registration whose late link adds rows that do not change the winner's verdict, which WarmStartGaps.LateLinkKeepsExactly shows to be exactly the ones that keep it |
| WarmStartRuns.SweepKeepsInv | services/api/src/waypoint/checkpoints.py:139-266 | So does every sweep, whatever its limits returned |
| WarmStartRuns.EligibilityIsTheEvidence | services/api/src/waypoint/outcomes.py:362-457 | After any run of ingests, registrations and sweeps over consistently linked rows, a winner is eligible exactly when its unlabelled measured rows say so |
| Eligibility.EligibilityMeans | services/api/src/waypoint/outcomes.py:362-457 | The same on the columns: among the unlabelled rows measured at seven days that are keyed by the winner or by an exposure linked to it, a treated one returned and a control was measured, or, without any comparison, one returned |
| RowRuns.HorizonsStayMonotone | services/api/src/waypoint/outcomes.py:350-359 | After any run, however touches are named and linked, a row's measured horizons are a monotone prefix and row keys are unique |
| RowRuns.MeasuredForever | services/api/src/waypoint/outcomes.py:350-359 | Over any interleaving of ingests, registrations, sweeps, new winners and stamps, however touches are named and linked, rows keep their keys and no measured horizon is ever rewritten |
| RowHistory.ItemLabels | services/api/src/waypoint/outcomes.py:513-519 | A write leaves its row labelled by what it resolved itself, and every other row by what its own last write resolved |
| RowHistory.RowsStayHonest | services/api/src/waypoint/outcomes.py:170-192 | After any run, however touches were named, a row is unlabelled exactly when the last write under its key resolved a winner or an exposure, its stored routing is route-to-pro and its delivery is not false; the other labels say which of the three failed first |
| RowHistory.ReturnsAreProven | services/api/src/waypoint/outcomes.py:328-359 | After any run, behind every horizon a row shows as returned there is a stored version of that row with a confirmed send and a first return inside the horizon |
| RowRouting.RunIsHeard | services/api/src/waypoint/outcomes.py:501-508 | Over any run the routing stored under a key is what its writes told it in order: a claim is merged, an exposure's routing replaces it |
| RowRouting.StoredRoutingMeans | services/api/src/waypoint/outcomes.py:138-167 | After any run of batches, registrations and sweeps the routing under a key is the fold of the claims made since an exposure last spoke for it, and it is route-to-pro exactly when every non-empty one of those says so and one did |
| RowFlags.StatedFlagsWin | services/api/src/waypoint/outcomes.py:329-333 | What a submission says of a flag wins over what is stored, and what it leaves out stays |
| RowFlags.StoredFlagsMean | services/api/src/waypoint/outcomes.py:329-333 | After any run a stored flag is the last value its source stated in a stored batch, and a flag nobody stated is not stored |
| RowFlags.EvidenceMeans | services/api/src/waypoint/outcomes.py:170-192 | Whether a row counts as evidence, from the run alone: its last write resolved its touch, every claim since an exposure last spoke is a proven real send, and the last delivery stated was not a refusal |
| WarmStartGaps.LateLinkLeavesWinnerBehind | services/api/src/waypoint/exposures.py:95-100 | Linking a winner to an exposure that already has rows leaves its eligibility behind the evidence |
| WarmStartGaps.RelabelWithoutPromotion | services/api/src/waypoint/outcomes.py:513-529 | A row keyed by a foreign id and re-submitted without its exposure is labelled while the winner keeps an eligibility it lost |
| WarmStartGaps.LateLinkKeepsExactly | services/api/src/waypoint/exposures.py:95-100 | A late link keeps the winner's eligibility at its evidence if and only if the verdict on its rows together with those stored under the exposure is the one it has |
| WarmStartGaps.UnobservedRowsAddNothing | services/api/src/waypoint/exposures.py:95-100 | Which is so whenever no row under the exposure is both measured and unlabelled |
| WarmStartGaps.WriteKeepsExactly | services/api/src/waypoint/outcomes.py:522-566 | One ingested item keeps any winner's eligibility at its evidence if and only if it reaches the winner or what it stores does not change the verdict |
| WarmStartGaps.RelabelKeepsExactly | services/api/src/waypoint/outcomes.py:513-529 | A write that resolves neither winner nor exposure leaves eligibility behind if and only if it overwrites a row that was decisive for the winner |
| WarmStartGaps.DecisiveIsObserved | services/api/src/waypoint/outcomes.py:384-388 | Only a measured, unlabelled row the winner owns can be decisive |
| WarmStartGaps.NextPromotionRepairs | services/api/src/waypoint/outcomes.py:432-457 | Any later promotion of the winner repairs both |
| Coverage.ReturnTimes | services/api/src/waypoint/amplitude_source.py:174-217 | Paging newest first within five pages: covered means every return at or after the oldest needed time was collected; nothing is invented |
| Coverage.PollPro | services/api/src/waypoint/amplitude_source.py:248-279 | One Pro's turn: the found returns are ingested and, only when the lookup covered every pending send, the exposures are stamped at now minus the grace |
| Coverage.StampsAdvance | services/api/src/waypoint/amplitude_source.py:98-109 | A new stamp is strictly later than the one it replaces and reaches past a closed horizon |
| CoveragePolls.DueExactly | services/api/src/waypoint/amplitude_source.py:98-141 | Exactly the confirmed exposures with a closed horizon whose returns are not proven fetched, and no return found yet, are due |
| CoveragePolls.FoundMeans | services/api/src/waypoint/amplitude_source.py:257-268 | A lookup submits one outcome for exactly those exposures with a return inside their thirty days, with the earliest one and no claim of its own |
| CoveragePolls.CoveredPollOpensGate | services/api/src/waypoint/amplitude_source.py:269-279 | After a covered lookup its exposures are no longer due and a gated sweep may grade every closed horizon of their rows |
| Coverage.SpendCalls | services/api/src/waypoint/amplitude_source.py:232-255 | A tick spends at most CALL_BUDGET - 1 + PAGE_CAP = 29 calls |
| Coverage.UnderTheHourlyLimit | services/api/src/waypoint/amplitude_source.py:49-59 | Twelve ticks stay under 360 calls |
| Coverage.BoundIsTight | services/api/src/waypoint/amplitude_source.py:232-255 | 29 calls are reached |
| CoverageProofs.NegativeIsCovered | services/api/src/waypoint/checkpoints.py:52-66 | A gated false that no stored return derives proves the stamp reaches past the horizon |
| CoverageProofs.GatedNegativeIsTrue | services/api/src/waypoint/checkpoints.py:185-223 | Such a false on a row whose horizon lies in the 30 days after its exposure's send hides no return: each one in the horizon is shown by the exposure's own Amplitude row; on a row that carries its exposure's send there was none, or that row already shows the horizon true |
| CoverageProofs.GatedNegativeExactly | services/api/src/waypoint/checkpoints.py:185-223 | Such a false is right for every history the stamps allow if and only if no time of the row's horizon lies outside its exposure's 30 days without being found or ruled out by another send of the Pro |
| CoverageProofs.StampEarned | services/api/src/waypoint/amplitude_source.py:269-276 | A covered lookup settles every return up to its stamp, given events are indexed within the grace |
| CoverageProofs.TransactionKeepsCovered | services/api/src/waypoint/outcomes.py:532-566 | No other writer disturbs what the stamps promise, however it names its touches, as long as it writes no Amplitude row and links late only safely |
| CoverageProofs.PollKeepsCovered | services/api/src/waypoint/amplitude_source.py:220-284 | A poll keeps it too, whether it commits its stamps or crashes before them |
| CoverageProofs.NoReturnIsMissed | services/api/src/waypoint/checkpoints.py:185-223 | After any run of lookups on paged histories and other writers, no gated negative on a row whose horizon lies in its exposure's reach hides a return |
| CoverageProofs.CoveredLookupSaw | services/api/src/waypoint/amplitude_source.py:174-217 | The coverage hypothesis is what a covered lookup collects from a provider that serves all it indexed |
| CoverageProofs.LateLinkUncovers | services/api/src/waypoint/exposures.py:95-100 | A stamped exposure linked late to another Pro's winner keeps a stamp nobody earned |
| CoverageProofs.LateLinkCoversExactly | services/api/src/waypoint/exposures.py:95-100 | After a late link the stamps keep their promise if and only if the exposure has no stamp, keeps its Pro, or every visit of the new Pro in reach is already found |
| CoverageProofs.LateLinkIsSafeExactly | services/api/src/waypoint/exposures.py:95-100 | Over all histories the stamps allow: if and only if it has no stamp, keeps its Pro, or each time in reach is found or ruled out by another lookup for the new Pro |
| CoverageProofs.MovedClockHidesReturn | services/api/src/waypoint/outcomes.py:334-340 | A run in which a row keeps the clock it was reported with while its exposure is confirmed later: the stamp covers the later clock, and the sweep stamps a first day false in which the Pro did return |
| Iterable.SendsToExposures | services/api/src/waypoint/iterable_source.py:240-275 | The loop's exposures and counters are those of the sends' fates, in order |
| Iterable.EverySendCounts | services/api/src/waypoint/iterable_source.py:240-275 | Every send of a window is ignored, deferred, registered or skipped, exactly once |
| IterableFates.FateMeans | services/api/src/waypoint/iterable_source.py:197-275 | A send without a run is ignored; one that is stamped, dated and names its Pro is registered with the winner of its run and Pro as soon as there is one, held for at most a day without, then registered without; the rest is unusable |
| Iterable.DeferralIsBounded | services/api/src/waypoint/iterable_source.py:258-269 | A send whose winner is visible is never held, and one past the limit is registered as it stands |
| Iterable.Cursor.Poll | services/api/src/waypoint/iterable_source.py:285-323 | One poll: the cursor moves only past a long enough window that was fetched and holds nothing back |
| Iterable.WindowsTile | services/api/src/waypoint/iterable_source.py:285-323 | The windows passed tile time without gap or overlap, each between MIN_WINDOW and CATCHUP long |
| IterableFates.FirstWindowLooksBack | services/api/src/waypoint/iterable_source.py:285-287 | The first window a poller passes begins a day before the tick that passed it and ends fifteen minutes before |
| Iterable.WindowsTrailNow | services/api/src/waypoint/iterable_source.py:286-288 | A passed window ended at least LAG before the tick |
| Iterable.HeldCursorAdvances | services/api/src/waypoint/iterable_source.py:73-76 | A cursor held for deferred sends advances by a full window on any tick at or after since + CATCHUP + DEFER_LIMIT whose export succeeds and whose outcomes are stored |
| Iterable.NothingIsPassedOver | services/api/src/waypoint/iterable_source.py:250-269 | When the cursor passes a window, every stamped usable send in it was registered, with its winner or after waiting out the limit |
| Iterable.NothingBehindTheCursor | services/api/src/waypoint/iterable_source.py:285-323 | Behind the cursor of any run of polls, failed, held or successful, every usable send of the stream was registered by some poll |
| IterableOutcomes.BatchStoresExactly | services/api/src/waypoint/outcomes.py:569-583 | A batch is stored if and only if no key without a row begins with an item that names an exposure nobody registered |
| IterableOutcomes.GateKeeps | services/api/src/waypoint/iterable_source.py:326-351 | The gate keeps exactly the events of registered exposures and those stamped with a run |
| IterableOutcomes.PoisonIsStamped | services/api/src/waypoint/iterable_source.py:326-351 | In a window of outcome events such an item is one the gate kept for its run stamp |
| IterableOutcomes.WindowPassesExactly | services/api/src/waypoint/iterable_source.py:285-323 | The cursor passes a window if and only if it is long enough, was fetched, holds no send for its winner and its outcomes can be stored |
| IterableOutcomes.PoisonHoldsCursor | services/api/src/waypoint/iterable_source.py:307-317 | While such an event stays in the window no run of ticks, however late, moves the cursor |
| IterableOutcomes.UnregisteredClickPoisons | services/api/src/waypoint/iterable_source.py:348 | A stamped click on a message nobody registered is one |
| Evidence.PatternSummaries | services/api/src/waypoint/evidence.py:58-109 | The grouping loops compute the specification the next lemmas are about |
| EvidenceRules.SliceMeans | services/api/src/waypoint/evidence.py:61-72 | Only unlabelled records of the windows and channels asked for are read, at most the limit, and below the limit all of them |
| EvidenceRules.GroupedMeans | services/api/src/waypoint/evidence.py:73-82 | The groups partition the records read: one for each key that occurs, holding its records in order |
| EvidenceRules.PatternMeans | services/api/src/waypoint/evidence.py:83-109 | A pattern counts the treated records of its key among those read: all, measured and returned at one day and at seven, and opted out |
| EvidenceRules.TouchedKeysHavePatterns | services/api/src/waypoint/evidence.py:83-109 | Every key with a treated record among those read has a pattern |
| EvidenceRules.FailedMeans | services/api/src/waypoint/evidence.py:112-137 | A mechanism failed for a Pro exactly when a recent, unlabelled, treated record of it shows an opt-out or a measured seven-day miss |
| Evidence.LabelledRowsAreInvisible | services/api/src/waypoint/evidence.py:61-72 | Labelled rows change no pattern and take no place under the limit |
| Evidence.PatternsConserveRows | services/api/src/waypoint/evidence.py:73-109 | The patterns account for every treated row read, each exactly once |
| Evidence.RatesAreBounded | services/api/src/waypoint/evidence.py:83-99 | Returned is within measured within sent, and a pure control group is no pattern |
| Evidence.FailedIgnoresLabelled | services/api/src/waypoint/evidence.py:112-137 | The failed mechanisms of a Pro are those of its unlabelled rows |
| Naming.KeysAreNamed | services/api/src/waypoint/models.py:178-199 | A record is refused exactly when nothing names its touch, and no accepted record is keyed by the empty text |
| Naming.NamesInOrder | services/api/src/waypoint/models.py:178-199 | The recommendation names a record before its exposure, that before its run and Pro, and those by their winner where there is one |
| Naming.UnresolvedKeysDoNotCollide | services/api/src/waypoint/models.py:193-198 | Two different accepted run and Pro pairs never share an unresolved key |
| Naming.ColonsWouldAlias | services/api/src/waypoint/models.py:193-198 | Without refusing colons they would |
| Finalize.Table.ClaimJob | services/api/src/waypoint/queue.py:17-33 | The oldest claimable job is leased, or none is claimable |
| Finalize.Table.FailStaleJobs | services/api/src/waypoint/queue.py:65-69 | Exactly the expired jobs without attempts fail |
| Finalize.Table.RequeueJob | services/api/src/waypoint/pipeline.py:181-192 | Back to the queue while attempts remain, failed otherwise |
| Finalize.Table.FinalizeRun | services/api/src/waypoint/pipeline.py:1538-1600 | The aggregate of the committed rows is written once every job has ended, nothing otherwise |
| FinalizeProofs.ExactlyOne | services/api/src/waypoint/queue.py:17-69 | A job that has not ended is live-leased, claimable or reapable, and only one of them |
| FinalizeProofs.AttemptsWithinLimit | services/api/src/waypoint/queue.py:17-33 | In every run attempts stay within the maximum and no unfinished job is stuck |
| FinalizeJobs.AttemptsCountClaims | services/api/src/waypoint/queue.py:17-33 | In every run a job has used one attempt for each time it was claimed |
| FinalizeJobs.LeaseIsExclusive | services/api/src/waypoint/queue.py:17-69 | A claim or a heartbeat owns the job for the length of a lease: whatever anyone else does in that time, nobody claims it, fails it or owns it |
| FinalizeJobs.FailureCounts | services/api/src/waypoint/pipeline.py:1560-1586 | A job that fails, by its worker, its last attempt or the reaper, leaves the aggregate no better than degraded |
| FinalizeJobs.DecisionsCount | services/api/src/waypoint/pipeline.py:1529-1600 | What a Pro is decided is counted in place of what it was before, and a run that is worked on or reported as waiting is active |
| FinalizeJobs.VerdictExactly | services/api/src/waypoint/pipeline.py:1538-1558 | A finisher writes exactly when the run is active or degraded and has jobs, all of them done, failed or stopped |
| FinalizeJobs.EndedRunIsLeftAlone | services/api/src/waypoint/pipeline.py:1547-1548 | A finisher that reads an ended run leaves its status as it is |
| FinalizeProofs.AggregateMeans | services/api/src/waypoint/pipeline.py:1560-1586 | Failed when every Pro failed, degraded when some did or lacked context, complete when none did and somebody won, abstained when abstentions are all there is |
| FinalizeProofs.StepKeepsInv | services/api/src/waypoint/pipeline.py:1529-1600 | Every step of every worker and finisher keeps held and written statuses equal to the aggregate |
| FinalizeProofs.FinalizationIsConfluent | services/api/src/waypoint/pipeline.py:1529-1600 | In every interleaving all writers write the same status, the aggregate of jobs and winners that no longer change |
| FinalizeProofs.LastFinisherSettles | services/api/src/waypoint/pipeline.py:1529-1534 | In every run of orderly steps, reaps, crashes and reports that leave an open job or another finisher included, once every job has ended and every finisher is done the run stands at the aggregate |
| FinalizeProofs.OnlyOrderlyStepsKeepPromise | services/api/src/waypoint/pipeline.py:1529-1534 | The condition is exact: a step keeps a run settled or in the hands of somebody who will settle it if and only if it is orderly |
| FinalizeProofs.HealSettles | services/api/src/waypoint/pipeline.py:1616-1622 | Whatever steps came in between, a heal pass that writes leaves the run at the aggregate and not stalled |
| FinalizeProofs.HealPass | services/api/src/waypoint/pipeline.py:1605-1622 | One pass on a stalled run settles it |
| FinalizeProofs.SettledStays | services/api/src/waypoint/pipeline.py:1547-1548 | A settled run stays settled unless a requeued attempt still has to report |
| FinalizeProofs.LateReportStrands | services/api/src/waypoint/pipeline.py:1659-1660 | That report strands a finalized run until the next heal pass |
| FinalizeProofs.LateReportReachable | services/api/src/waypoint/pipeline.py:1659-1660 | Such a state is reachable with one job and two attempts |
| Items.BestMatch | services/api/src/waypoint/items.py:79-84 | The best-so-far loop over the active items |
| Items.ClosestIsClosest | services/api/src/waypoint/items.py:79-84 | No active item of the mechanism and channel is closer than the chosen one, and of equally close ones it is the first |
| ItemsRules.LookDecides | services/api/src/waypoint/items.py:59-69 | A request whose key is taken is answered with its owner at once, whatever its status |
| ItemsRules.ScanDecides | services/api/src/waypoint/items.py:70-88 | An active item at 0.9 or closer is reused as it is, else one at 0.6 or closer is to be bumped, else a new one is to be created; the one chosen is always a closest one |
| ItemsRules.BumpDecides | services/api/src/waypoint/items.py:87-134 | A bump that finds its row as it read it and its key free stores the new concept one version on and the old one in the history; otherwise it stores nothing and answers with the row that won |
| ItemsRules.CreationDecides | services/api/src/waypoint/items.py:135-157 | A creation stores one active item at version 1, unless its key was taken meanwhile, and then answers with the owner |
| ItemsRules.RetiredIsNeverNear | services/api/src/waypoint/items.py:59-84 | A retired item is reused and bumped no more; only its exact key still finds it |
| Items.Corpus.Commit | services/api/src/waypoint/items.py:87-157 | The guarded update or the insert, and what a lost race or a taken key degrades to |
| ItemsProofs.StepKeepsInv | services/api/src/waypoint/items.py:46-157 | Any step of any resolver keeps histories complete, keys unique and answers valid, and only moves rows forward |
| ItemsProofs.NoConceptIsLost | services/api/src/waypoint/items.py:87-115 | In every interleaving a row's concept at any version is still its own or in its history at that version |
| ItemsProofs.CorpusStaysCanonical | services/api/src/waypoint/items.py:56-157 | From an empty corpus, histories hold versions 1 to version - 1 in order, (mechanism, channel, hash) stays unique, and every answer has the asked mechanism and channel |
| ItemsProofs.GuardMeansUnchanged | services/api/src/waypoint/items.py:99-115 | A matching version guard means the copy that was read is still the row |
| Panel.SelectPanel | services/api/src/waypoint/personas.py:89-156 | The nested selection loops compute the specification the next lemmas are about |
| Panel.FitIsFraction | services/api/src/waypoint/personas.py:80-86 | A fit is a fraction between 0 and 1 |
| PanelRules.FitMeans | services/api/src/waypoint/personas.py:80-86 | A fit is the share of the permitted features both have on which they agree, zero when they have none in common |
| PanelRules.PermittedAre | services/api/src/waypoint/personas.py:18-21 | The eight named features enter matching, and no other |
| PanelRules.RankedMeans | services/api/src/waypoint/personas.py:96-103 | The ranking holds the whole pool, best fit first and of equal fits the smaller id first |
| PanelRules.ClosestMeans | services/api/src/waypoint/personas.py:92-105 | The closest seats go to exactly those of the first two, or on a panel of five three, that reach one half |
| Panel.FitIgnoresTheRest | services/api/src/waypoint/personas.py:76-86 | Features that are not permitted never enter matching |
| PanelProofs.OrderDoesNotMatter | services/api/src/waypoint/personas.py:96-103 | The seats do not depend on the order of a pool with distinct ids |
| PanelProofs.CounterweightsDissent | services/api/src/waypoint/personas.py:107-116 | Every counterweight clears the threshold and brings a family no earlier member has |
| PanelRules.DissentIsHeard | services/api/src/waypoint/personas.py:107-116 | While a counterweight seat is left, nobody who reaches one half and comes after the closest ranks brings a family the core has not |
| PanelProofs.EveryPanelIsOk | services/api/src/waypoint/personas.py:89-156 | A panel repeats nobody, has at least two threshold-clearing members, seats everyone above their floor, leaves a seat empty only when nobody unseated reaches the backfill floor, and is degraded exactly when the threshold-clearing members do not fill it |
| PanelRules.BackfillMeans | services/api/src/waypoint/personas.py:124-147 | Nobody below three tenths is seated, nobody below one half except as backfill, and a seat stays empty only when everybody else is below three tenths |
| PanelRules.BackfillBringsNewFamilies | services/api/src/waypoint/personas.py:124-147 | A backfilled seat repeats a family only after everybody at three tenths or above is seated or has its family on the panel |
| PanelProofs.PanelExactlyWhenTwoQualify | services/api/src/waypoint/personas.py:118-122 | A Pro gets a panel exactly when two personas of the pool clear the threshold |
| PanelRules.RefusalCounts | services/api/src/waypoint/personas.py:118-122 | A refused panel reports how many of the pool reach one half, which is one or none |

## Left out

- LedgerDay.DayLimitHolds: bounds the day ledger by the highest limit configured so far, because lowering the limit does not shrink what is already reserved.
- LedgerCover.RecordsCoverPayments: a worker that lost its lease and still commits a reply is not modelled; the code documents that race as tolerated.
- RoundRuns.RoundReplays: the persona_evals cache is excluded, because two workers may fill it with different numbers.
- Round.GenerateBatch: prompts, the forbidden list in them and the JSON text are left out; a reply stands for what it parses to. A refused reservation ends the stage like the end of its tape.
- RoundProofs.EveryRoundIsOk: two tied finalists are screened one after the other; the code may screen them concurrently under different keys.
- FinalizeProofs.FinalizationIsConfluent: an operator kill, a fleet kill and a spent budget, which write "stopped" to the run and its jobs beside the finishers, are left out.
- OutcomesStore.Store.SynthesizeRows: takes what its LIMITed query returned as an argument; which of the silent exposures a sweep gets to first is not modelled.
- OutcomesStore.Store.ResolveDue: takes what its two LIMITed queries returned as arguments, so the order and the progress of sweeps are not modelled; checkpoint_version is an audit stamp and left out.
- Outcomes rows carry the columns the decisions read; channel, org, item, mechanism and journey window are copied along by the code and left out, except where `Evidence` reads them.
- A row's send state under an unconfirmed exposure can be reset by the exposure; no monotonicity is claimed there.
- Evidence.PatternSummaries: the final sort of the patterns, their labels and the thirty-day figures, which steer nothing, are left out.
- Coverage.PollPro: the in-memory back-off of out-paged Pros and the identity cache only decide which Pros get a turn; they appear in the call budget.
- The fleet-slot limiter, heartbeats inside a stage, and the transport of every external service are left out.
- The scoring formula, similarity, hashes, the consent pattern and the guardrail patterns are opaque functions or inputs.
- handoff, funnel, feasibility, measurement, warm-start retrieval, the API routes, settings and the front end are left out: they would add only easy members.
