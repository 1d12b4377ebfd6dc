# Subber: a verified model of its protocols

Subber watches GitHub repositories and mails their subscribers about new releases. Three Go services
(subscription-api with its saga orchestrator, scanner-service, notification-service) share no database; they talk
through transactional outboxes and Kafka topics. This project models those protocols in Dafny and proves what they keep
in every run: under duplicated, reordered and late messages, under failing statements, and under processes that die
between any two effects.

`dafny verify dfyconfig.toml` checks everything.

## Structure

Each component has a file with its tables as values, one function for every SQL transaction, and a class whose methods
do the work step by step as the Go code does and are proved equal to those functions. The files beside it put the same
functions into a state machine (`World`, `Step`, `Enabled`, `Next`, `Run`) and prove theorems about all its runs.

| files | component |
|---|---|
| `WatchSaga` | the orchestrator: requests, acks, retry sweep |
| `SagaProtocol`, `SagaBudget`, `SagaSchedule`, `SagaFairness` | the saga across its services; bounds and spacing of retries; their exact schedule; no starvation |
| `Scanner`, `ScannerRuns`, `ScannerFairness` | watchlist, releases, commands, scan loop; one event per release; no starved repo |
| `Subscriptions`, `SubscriptionRuns` | subscribe with compensation, confirm, unsubscribe; balance of starts and stops |
| `WatchlistMachine`, `WatchlistInvariant`, `Convergence`, `WatchlistDrift` | all three services with retries: exactly when the watchlist ends up right |
| `Outbox`, `RelayRuns`, `RelayPasses`, `RelayProgress` | the leased outbox, many relays with crashes, `PublishOnce` as one of their runs, and when a row is claimed |
| `KafkaErrors`, `Consumer` | error classification; fetch, handle, dead-letter, commit over restarts |
| `Delivery`, `DeliveryPipeline`, `DeliverySafety`, `DeliveryFairness` | sending with bounded attempts; the whole retry circle; no stuck row, the email bound, dead letters, no starved retry |
| `Fanout`, `IdempotencyKeys` | release expansion and the keys that make it idempotent |
| `TagCache`, `TagCacheRuns` | the TTL cache in front of GitHub, and overlapping calls on it |
| `Migrations`, `MigrationRuns` | loading and resuming migrations |
| `Batches`, `Clock`, `Contracts`, `Wrappers` | the ordered limited SELECT, time, messages, results |

## Conventions

- A database transaction is one step. Parameters such as `commits` or a `Fate` say whether a statement, a publication or a
  transaction works; all theorems hold for every choice of them. A transaction that does not commit changes nothing.
- There is one clock, in microseconds, that does not go back. `now()` of the database and of the services is that clock.
- UUIDs are numbers; a generated one is fresh. The Go zero time is `None`.
- `ORDER BY ... LIMIT n` returns any batch that fits: rows with equal sort keys come in any order. As transactions are
  atomic, `SKIP LOCKED` never has a locked row to skip. `UPDATE ... RETURNING` gives its rows in any order.
- A published message may be delivered at any later time, any number of times, in any order, except where a file says
  otherwise (`WatchlistMachine`: in order with immediate repeats; `Consumer` and `DeliveryPipeline`: one partition).
- The outbox of the saga, of the scanner and of the expander is the sequence of the inserted messages; what a relay does with it
  is the subject of `Outbox` and `RelayRuns`.
- Hash functions, GitHub's answers and checksums are function parameters. EmailHash and TextHash are assumed to give twelve
  hexadecimal digits, nothing more.
- A rejected message changes nothing. That the consumer then stops or skips is the subject of `Consumer`.

## Where the code and its documents differ

- `docs/SDD.md` lines 154 and 201 give the GitHub cache ten minutes; its line 114 and the code say 45 seconds. The model uses the code's.
- `docs/adr/005-release-detection-and-notification-service-boundaries.md` line 55 has a start emitted whenever a repo gets its first
  subscriber. The code confirms and asks in two transactions, so a start can be lost or overtaken. `RequestsTellConfirmed` says exactly
  when starts and stops count the confirmed repos, `RequestsAlternateIff` exactly when they alternate, and `StopCanOvertakeStart` is a run
  in which they do not.
- That document and `docs/adr/006-kafka-for-domain-events.md` line 45 name watchlist events without a saga; the code sends saga requests,
  commands and acks, which are what is modelled.
- `docs/adr/005-release-detection-and-notification-service-boundaries.md` line 59 sends failed final attempts to the dead-letter queue. After a
  failure between the mark and the publication the code never does: `DeadWithoutDeadLetter` is a run, `DeadLetterIff` the exact condition.
- `docs/adr/001-github-api-cache.md` line 43 sets a TTL of 45 seconds. It counts from the store of a tag, not from GitHub's answer, so a tag may be
  older than that when it is served: `TagIsFresh` and `WindowIsExact` give the exact window.
- Retries of a saga can undo a later request, which no document mentions: `DrainedIffNotStale` is the exact condition, `StaleResendStays` a run.
- The scanner inserts its failure ack in the transaction of the statement that failed. PostgreSQL would refuse that; the model follows the
  code's branch, and covers the refusal too, as a transaction that does not commit.

## Model

| member | source | states |
|---|---|---|
| SagaFairness.NoSagaStarves | services/subscription-api/internal/watchsaga/orchestrator.go:225-305 | a due saga is handled within any run whose sweeps may take at least as many rows as are not ordered after it, whatever requests, acks and clock ticks come in between and even if every sweep has its own limit |
| SagaFairness.EverySagaEnds | services/subscription-api/internal/watchsaga/orchestrator.go:196-305 | a saga whose deadline is an hour past is completed or failed, for good, once the sweeps can cover its position |
| SagaFairness.NothingOvertakes | services/subscription-api/internal/watchsaga/orchestrator.go:226-305 | while a due saga is passed over, no request, ack or sweep puts another row ahead of it: the set of rows not after it only shrinks |
| SagaFairness.SweepBringsForward | services/subscription-api/internal/watchsaga/orchestrator.go:237-302 | a sweep that does not pick a due saga lowers its position by exactly the limit |
| SagaFairness.ChangedRowsWait | services/subscription-api/internal/watchsaga/orchestrator.go:80-305 | a row that any step creates or changes is either finished or waits for an instant later than now |
| SagaFairness.EqualSweepsCapacity | services/subscription-api/internal/watchsaga/orchestrator.go:225-228 | n sweeps with one limit cover n times that limit (50 when it is not positive) |
| SagaFairness.StaysEnded | services/subscription-api/internal/watchsaga/orchestrator.go:166-223 | a finished row is the same row after every continuation of the run |
| SagaBudget.ServicesAgree | services/subscription-api/internal/watchsaga/orchestrator.go:131-194 | in every reachable state, under duplication and reordering: every command is accepted by the scanner and every ack by HandleAck (the not-found, mismatch and wrong-type branches are dead), each carries the repo, action and correlation id of an existing row, and a completed saga was applied by the scanner |
| SagaBudget.SagasAreConserved | services/subscription-api/internal/watchsaga/orchestrator.go:80-305 | in every reachable state the outbox holds exactly `attempts` commands of each saga and none of unknown ones; active rows have a next_retry_at, failed rows have none, the deadline is creation plus a day |
| SagaBudget.RetryBudget | services/subscription-api/internal/watchsaga/orchestrator.go:225-305 | at most 1440 commands per saga in every run, and at most 27 when no RepoWatchFailed ack was accepted for it |
| SagaBudget.CommandsAreSpaced | services/subscription-api/internal/watchsaga/orchestrator.go:287-299 | two commands of one saga leave at least a minute and less than a day apart |
| SagaSchedule.RetriesFollowSchedule | services/subscription-api/internal/watchsaga/orchestrator.go:196-305 | in every run an active saga is retried exactly a minute after the RepoWatchFailed ack that last changed its retry time, and otherwise exactly 1, 5, 15 or 60 minutes after its last command, for attempts 1, 2, 3 and 4 or more |
| SagaSchedule.UnansweredSagaSends27 | services/subscription-api/internal/watchsaga/orchestrator.go:272-302 | the bound of 27 is attained: a run of a saga that no ack answers, swept whenever it is due, sends exactly 27 commands |
| SagaSchedule.RefusedSagaSends1440 | services/subscription-api/internal/watchsaga/orchestrator.go:196-223 | the bound of 1440 is attained: a run of a saga whose every command is refused at once sends exactly 1440 commands |
| SagaBudget.RetryDelayFollowsSchedule | services/subscription-api/internal/watchsaga/orchestrator.go:357-365 | the k-th delay is exactly the gap between the k-th and the next send of the schedule 0, 1, 6, 21, 81, 141 ... minutes |
| SagaBudget.TimingHolds | services/subscription-api/internal/watchsaga/orchestrator.go:196-305 | every step keeps the arithmetic of each row: attempts fit into the elapsed minutes, and next_retry_at is before deadline plus one hour |
| SagaBudget.InvHolds | services/subscription-api/internal/watchsaga/orchestrator.go:80-305 | agreement, timing, conservation and spacing together hold along every run |
| SagaProtocol.NothingIsRejected | services/subscription-api/internal/watchsaga/orchestrator.go:131-194 | agreement implies that no request, command or ack is rejected by its handler |
| SagaProtocol.AgreementHolds | services/subscription-api/internal/watchsaga/orchestrator.go:80-305 | agreement between requests, rows, commands, acks and applied commands survives every step |
| SagaProtocol.TerminalIsFinal | services/subscription-api/internal/watchsaga/orchestrator.go:166-305 | no step changes a completed or failed row |
| SagaProtocol.StepKeepsIdentity | services/subscription-api/internal/watchsaga/orchestrator.go:80-305 | no step deletes a row or changes its repo, action, deadline, creation time or correlation id |
| SagaProtocol.ResentOnce | services/subscription-api/internal/watchsaga/orchestrator.go:272-302 | a sweep sends exactly one command for each picked row before its deadline, and none for any other |
| WatchSaga.Orchestrator.HandleRequest | services/subscription-api/internal/watchsaga/orchestrator.go:80-129 | the rejections in their order with nothing changed; otherwise a new row with its first command, or nothing at all for a known saga id |
| WatchSaga.Orchestrator.HandleAck | services/subscription-api/internal/watchsaga/orchestrator.go:131-164 | the rejections in their order with nothing changed; otherwise exactly the effect of the ack on its own row |
| WatchSaga.Orchestrator.HandleSuccessAck | services/subscription-api/internal/watchsaga/orchestrator.go:166-194 | only the ack type of the stored action completes, a finished row stays, and next_retry_at is kept |
| WatchSaga.Orchestrator.HandleFailedAck | services/subscription-api/internal/watchsaga/orchestrator.go:196-223 | an active row fails at or after its deadline and otherwise is retried in a minute; an empty error gets the default text |
| WatchSaga.Orchestrator.RetryDue | services/subscription-api/internal/watchsaga/orchestrator.go:225-305 | the picked rows are a correct answer of the ordered, limited selection, and the sweep expires or resends exactly those |
| WatchSaga.SweepTakesDue | services/subscription-api/internal/watchsaga/orchestrator.go:237-245 | on the columns: every active row whose retry time is not in the future is picked, or the sweep is full (50 rows when the limit is not positive) of such rows that do not come later |
| WatchSaga.Orchestrator.RetryAll | services/subscription-api/internal/watchsaga/orchestrator.go:272-302 | the loop equals the sweep as a function of the table before it |
| WatchSaga.Orchestrator.RetryOne | services/subscription-api/internal/watchsaga/orchestrator.go:272-302 | one picked row: expired without a command at or after the deadline, else resent now with one more attempt and the next retry 5, 15 or 60 minutes away, as the new attempt is the second, the third or a later one |
| WatchSaga.RetryDelay | services/subscription-api/internal/watchsaga/orchestrator.go:357-365 | every delay lies between one minute and one hour, for any attempt number |
| Batches.Select | services/subscription-api/internal/watchsaga/orchestrator.go:237-245 | a selection that is distinct, within the limit, ordered, and leaves nothing earlier behind exists for every table |
| Batches.LeftBehindMeansFull | services/subscription-api/internal/watchsaga/orchestrator.go:240-245 | an eligible row that was not taken proves that the batch is full |
| Batches.TakenOrFull | services/subscription-api/internal/watchsaga/orchestrator.go:240-245 | an eligible row is taken, or the batch is full of rows that do not come after it |
| Convergence.DrainedIffNotStale | services/subscription-api/internal/watchsaga/orchestrator.go:225-305 | with retry sweeps, when confirm and request are one step, messages of a repo arrive in order (immediate repeats allowed) and no watchlist statement fails: a drained repo is watched exactly as its subscribers want if and only if no stale resend was left, that is, the last sweep that sent a command for it after its newest saga did not end with a row of another action |
| Convergence.DrainedWatchlist | services/scanner-service/internal/scanner/repository.go:102-159 | under the same three conditions the drained watchlist is exactly the set of repos with a confirmed subscriber if and only if no repo is left with a stale resend |
| Convergence.DrainedIffLastCommandIsNewest | services/subscription-api/internal/watchsaga/orchestrator.go:287-299 | the same said with the command log: right if and only if the last command ever sent for the repo has the action of its newest saga |
| Convergence.GuardedSweepsStayFresh | services/subscription-api/internal/watchsaga/orchestrator.go:237-245 | the guard at the sweep: if no picked row before its deadline has another action than the newest saga of its repo, no stale resend is left; in particular when no saga is retried |
| Convergence.StaleResendStays | services/subscription-api/internal/watchsaga/orchestrator.go:287-299 | a concrete run that breaks it: everything arrived once and in order, nothing is on its way, nobody is subscribed, and the repo is watched |
| Convergence.DrainedRepoIsRightIff | services/subscription-api/internal/subscription/service.go:91-100 | with confirm and request as two transactions and no start overtaken: a drained repo is right if and only if it is left stale exactly when a start of it is outstanding |
| Convergence.DrainedRepo | services/scanner-service/internal/scanner/repository.go:109-117 | in every run of that machine a drained repo is watched if and only if exactly one of these holds: its last request is a start, it is left stale |
| WatchlistInvariant.SentStaysOnCourse | services/subscription-api/internal/watchsaga/orchestrator.go:225-305 | every step keeps the relation between the last command on its way, the newest saga and staleness |
| WatchlistInvariant.SweepQueues | services/subscription-api/internal/watchsaga/orchestrator.go:272-302 | what a sweep enqueues for one repo, and that its last row alone decides staleness |
| WatchlistDrift.WatchedIffLastAppliedStarts | services/scanner-service/internal/scanner/repository.go:109-159 | in every run, with retries, repeats, reordering and failing statements, a repo is watched if and only if the last command applied for it was a start |
| WatchlistDrift.RetriedStartOutlivesStop | services/scanner-service/internal/scanner/repository.go:109-117 | a concrete run: a start resent after a minute is applied after the stop of the same repo, every command once and in order, and the repo stays watched |
| ScannerRuns.OneEventPerRelease | services/scanner-service/internal/scanner/repository.go:179-225 | in every interleaving of scanners, scans, starts and stops the outbox announces each recorded release exactly once and nothing else, and each last_seen_tag is empty or recorded |
| ScannerRuns.ScanAnnounces | services/scanner-service/internal/scanner/service.go:111-128 | a scan that sees a new tag makes it recorded and announced exactly once from then on, whatever follows |
| ScannerRuns.ScansAreARun | services/scanner-service/internal/scanner/service.go:69-85 | the scan loop is a run of single scans, with the failed ones left out |
| ScannerRuns.ClaimsKeepDistance | services/scanner-service/internal/scanner/repository.go:30-76 | two claims of a repo are at least the backoff of the first apart unless a command for that repo comes in between |
| ScannerRuns.ReservationHolds | services/scanner-service/internal/scanner/repository.go:30-76 | no scan, claim or command of another repo shortens a reservation, and a claim takes a repo only when its reservation is over |
| ScannerFairness.NoRepoStarves | services/scanner-service/internal/scanner/repository.go:30-76 | a due repo is claimed, or a command moves or removes its row, within as many claims as it takes to cover the watched repos not after it, whatever scans and commands come in between; due means that its next scan is past, so that rows moved to now come later |
| ScannerFairness.ClaimBringsForward | services/scanner-service/internal/scanner/repository.go:38-44 | a claim that passes a due repo over lowers its position by exactly the limit |
| ScannerFairness.NothingOvertakes | services/scanner-service/internal/scanner/repository.go:60-69 | no claim, scan or command puts another repo ahead of a due one |
| ScannerFairness.StartedIsClaimed | services/scanner-service/internal/scanner/repository.go:137-148 | a repo just started is claimed by a tick whose batch covers the due repos |
| Scanner.ClaimTakesDue | services/scanner-service/internal/scanner/repository.go:38-44 | on the columns: every watched repo whose next scan is not in the future is claimed, or the batch is full of such repos, none of them with a later next scan |
| Scanner.LargeBatchTakesAll | services/scanner-service/internal/scanner/repository.go:38-44 | a batch that covers the due repos takes exactly those |
| Scanner.ScansRecord | services/scanner-service/internal/scanner/service.go:69-85 | a claimed repo for which GitHub gives a new tag has its release recorded by the scans of the tick |
| Scanner.Service.ClaimDue | services/scanner-service/internal/scanner/repository.go:30-76 | returns the rows as selected and makes the next scan of exactly those now plus the backoff, or nothing changes; a limit that covers the due repos takes exactly those |
| Scanner.Service.Reserve | services/scanner-service/internal/scanner/repository.go:62-70 | the update loop moves next_scan_at of exactly the claimed repos and keeps their tags |
| Scanner.Service.HandleWatchlistCommand | services/scanner-service/internal/scanner/service.go:87-109 | a command is non-retryable exactly when its type, action, saga id or repo is wrong; else its transaction decides, and exactly one ack of the right type is appended for it |
| Scanner.Service.ApplyWatchCommand | services/scanner-service/internal/scanner/repository.go:102-135 | one transaction changes the watchlist and appends the ack, or appends only the failure ack |
| Scanner.Service.StartWatching | services/scanner-service/internal/scanner/repository.go:137-148 | a new repo is due now, a known one keeps its tag and is scanned no later than before |
| Scanner.AckFor | services/scanner-service/internal/scanner/repository.go:243-275 | an ack repeats its command, succeeds in the type of its action exactly when there was no error, and carries the cause |
| Scanner.Service.MarkReleaseDetected | services/scanner-service/internal/scanner/repository.go:179-225 | true exactly for a new release, which is recorded, noted on its watchlist row and announced in one transaction |
| Scanner.Service.ScanRepo | services/scanner-service/internal/scanner/service.go:111-128 | an empty or unchanged tag changes nothing; failures of GitHub or the database are reported and change nothing |
| Scanner.Service.ScanOnce | services/scanner-service/internal/scanner/service.go:69-85 | each claimed repo is scanned with the tag read at the claim; the failure of one does not stop the others; every new tag found in a claimed repo is recorded, and a batch that covers the due repos claims exactly those |
| RelayRuns.PublishingIsSafe | pkg/outbox/outbox.go:63-138 | for any number of relays with crashes anywhere: a published row is in the broker log, the log holds only outbox payloads, and copies of an event never exceed its claims |
| RelayRuns.PublishedNeverReverts | pkg/outbox/outbox.go:112-138 | no step takes published_at back to NULL, removes a row or changes what it publishes |
| RelayRuns.UnpublishedBecomesEligible | pkg/outbox/outbox.go:68-77 | in every run an unpublished row can be claimed again at any instant more than 30 000 000 microseconds away, whoever held it |
| RelayRuns.LeasesKeepDistance | pkg/outbox/outbox.go:68-77 | a claimed row that is neither marked nor refused is in no other claim until more than 30 000 000 microseconds have passed |
| RelayProgress.EligibleRowIsTaken | pkg/outbox/outbox.go:63-110 | an eligible row is taken within as many claims as it takes to cover the eligible rows not after it, unless a step makes an earlier row eligible: an insertion, a refusal or a lease that runs out |
| RelayProgress.ClaimBringsForward | pkg/outbox/outbox.go:68-77 | a claim that passes an eligible row over lowers its position by exactly the limit |
| RelayProgress.RefusedEventBlocks | pkg/outbox/relay.go:74-87 | the condition is needed: with batches of one, an event that is always refused keeps the next one unclaimed through any number of claims |
| RelayRuns.LeasesExclude | pkg/outbox/outbox.go:63-110 | when passes finish within their lease, no two relays hold one event and copies are at most one more than the interruptions between publish and mark |
| RelayRuns.SafeRuns | pkg/outbox/outbox.go:63-138 | the safety invariant holds along every run |
| RelayPasses.PassIsARun | pkg/outbox/relay.go:67-98 | a call of PublishOnce is such a run from any state in which its relay is idle, with the prefix effect below, and leaves the relay idle for the next |
| RelayPasses.LoopIsARun | pkg/outbox/relay.go:73-96 | the loop of a pass is the corresponding sequence of publish, mark, refuse, drop and crash steps |
| Fanout.ExpandPublishes | services/subscription-api/internal/subscription/release_expander.go:32-36 | the commands an expansion inserts are exactly those of the subscribers it reached |
| Outbox.LoopPublishesPrefix | pkg/outbox/relay.go:73-96 | for every batch and failure pattern exactly the prefix before the first failure is appended in order and marked, only the failing row is bumped and unlocked, the rest stays leased |
| Outbox.Relay.PublishOnce | pkg/outbox/relay.go:67-98 | the same for a whole pass, whose batch is a correct answer of the claim; an unmarked or kept publication is the one extra message |
| Outbox.Relay.PublishBatch | pkg/outbox/relay.go:73-96 | the loop equals its specification, and returns no error exactly when it ends or a noted refusal stops it |
| Outbox.Relay.PublishEvent | pkg/outbox/relay.go:74-95 | one event: appended and marked, appended only, bumped, or untouched |
| Outbox.Relay.InsertTx | pkg/outbox/outbox.go:36-61 | a known event id changes nothing, a payload that is not JSON is refused, a zero time becomes now |
| Outbox.Relay.FetchUnpublished | pkg/outbox/outbox.go:63-110 | takes the earliest unpublished rows without a running lease, in any order, and leases exactly those: each is eligible again at an instant if and only if that is more than 30 000 000 microseconds away |
| Outbox.FetchTakesTheEarliest | pkg/outbox/outbox.go:64-73 | on the columns: every unpublished row without a running lease is fetched, or the batch is full of such rows that come earlier by time and event id |
| Outbox.HealthyBrokerDrains | pkg/outbox/relay.go:67-98 | with a healthy broker, ceil(n / batch size) passes publish n eligible rows |
| Outbox.FullPassIsHealthy | pkg/outbox/relay.go:67-98 | what PublishOnce ensures when no event fails is a healthy pass of the two theorems around this row |
| Outbox.HealthyPassesPublish | pkg/outbox/relay.go:67-98 | k healthy passes publish at least the smaller of k batches and all that was eligible |
| Consumer.ConsumerRefinesLog | pkg/kafka/consumer.go:69-112 | over any number of restarts the handler calls, adjacent repeats collapsed, are offsets 0, 1, 2, ... a prefix of the growing log that is at most one ahead of the commits; every committed message was handled, or refused for good and dead-lettered first |
| Consumer.LifeKeepsInv | pkg/kafka/consumer.go:69-112 | one life of the process keeps that invariant, never commits past the log and never moves a commit back |
| Consumer.RoundJustifiesStore | pkg/kafka/consumer.go:70-111 | one round commits at most its own message, and only for one of the two reasons |
| Consumer.RoundCommitsIff | pkg/kafka/consumer.go:80-110 | a round commits its message if and only if the handler returned nil, or refused it for good, not cancelled, with the dead letter out if there is a queue, and the commit is not lost; it goes on if and only if that commit is acknowledged |
| Consumer.FinishedRoundsCommit | pkg/kafka/consumer.go:69-112 | progress: k such rounds with acknowledged commits, with k messages left in the log, commit exactly those k messages |
| Consumer.PoisonIsSkipped | pkg/kafka/consumer.go:84-103 | a poison message is dead-lettered if there is a queue, committed, and the consumer serves the next |
| Consumer.Consumer.Start | pkg/kafka/consumer.go:69-112 | the loop equals its rounds run until one of them exits, with that exit |
| Consumer.Consumer.ServeOne | pkg/kafka/consumer.go:78-110 | one round: the exit or continuation of every combination of handler error, cancellation, dead letter and commit |
| KafkaErrors.IsSeesThroughWrapping | pkg/kafka/errors.go:23-40 | an error counts as of a kind if and only if that kind sits somewhere inside it, through any nesting of classification, wrapping and joining |
| KafkaErrors.MarkSurvives | pkg/kafka/errors.go:15-40 | wrapping, joining, and classifying again as retryable keep the non-retryable mark |
| DeliverySafety.NothingIsStuck | services/notification-service/internal/delivery/repository.go:126-219 | in every reachable state each delivery row is sent, dead, failed with a next attempt, or pending with an unpublished or uncommitted command of its key |
| DeliverySafety.EmailBound | services/notification-service/internal/delivery/service.go:64-112 | per key: Send calls at most the maximum plus the interruptions before a mark, successes at most one plus those, dead letters at most one and only of a dead row (DeadLetterIff says when), attempt_count equals the maximum exactly when dead |
| DeliverySafety.DeadLetterIff | services/notification-service/internal/delivery/service.go:94-100 | in every run a dead row not just being buried has exactly one dead letter if and only if the service has a queue and never failed or died between the mark and the publication for that key, and none otherwise; rows that are not dead have none |
| DeliveryFairness.NoRetryStarves | services/notification-service/internal/delivery/repository.go:131-139 | a due failed delivery is retried or otherwise handled within as many sweeps as it takes to cover the rows not after it, whatever happens in between |
| DeliveryFairness.SweepBringsForward | services/notification-service/internal/delivery/repository.go:131-139 | a sweep that passes a due row over lowers its position by exactly the limit |
| DeliveryFairness.NothingOvertakes | services/notification-service/internal/delivery/repository.go:94-108 | no step puts another row ahead of a due one, as delays are not negative |
| DeliverySafety.RetrySchedule | services/notification-service/internal/delivery/service.go:105-123 | in every run a failed row waits exactly the delay of its attempt, and the scheduler never picks it earlier |
| DeliverySafety.DeadWithoutDeadLetter | services/notification-service/internal/delivery/service.go:94-100 | a concrete run for every command: dead, committed, nothing on its way, and no dead letter |
| DeliverySafety.RunsAreSafe | services/notification-service/internal/delivery/service.go:64-112 | the invariants behind the two theorems hold along every run |
| DeliverySafety.RowStaysLive | services/notification-service/internal/delivery/repository.go:126-219 | each step keeps each row finished, scheduled or carried |
| DeliverySafety.BalanceStep | services/notification-service/internal/delivery/service.go:76-112 | each step keeps the equation between Send calls and attempts, final success, interruptions and the call in progress |
| DeliveryPipeline.ProcessIsARun | services/notification-service/internal/delivery/service.go:64-112 | one call of Process is a run of the machine, and returns nil exactly when the message may be committed |
| Delivery.RetryTakesDue | services/notification-service/internal/delivery/repository.go:131-139 | on the columns: every failed row whose next attempt is not in the future is picked, or the sweep is full of such rows that do not come later |
| Delivery.RetriesFollowDelays | services/notification-service/internal/delivery/service.go:114-123 | the delays are taken in order, then the last again and again; a minute when none are configured |
| Delivery.Service.Process | services/notification-service/internal/delivery/service.go:64-89 | the table, the Send calls, the dead letters and the error for every combination of working and failing effects |
| Delivery.Service.HandleFailure | services/notification-service/internal/delivery/service.go:91-112 | below the maximum the row is postponed, at it the row dies and then the dead letter is published |
| Delivery.Service.UpsertPending | services/notification-service/internal/delivery/repository.go:46-80 | a known key keeps its whole row, a new one becomes pending with no attempts |
| Delivery.Service.EnqueueDueRetries | services/notification-service/internal/delivery/repository.go:126-219 | one transaction makes the picked due rows pending and inserts one command for each, rebuilt from the row |
| Delivery.Service.RequeueAll | services/notification-service/internal/delivery/repository.go:180-213 | the loop over the picked rows has exactly that effect |
| SubscriptionRuns.RequestsTellConfirmed | services/subscription-api/internal/subscription/service.go:91-100 | in every interleaving, starts minus stops of a repo is 1 or 0 as it has a confirmed subscriber, if and only if no start of it is still to be asked for or was lost between the two transactions |
| SubscriptionRuns.RequestsAlternateIff | services/subscription-api/internal/subscription/service.go:91-100 | in every interleaving the requests of a repo are start, stop, start, ... if and only if its last confirmed subscriber never left while a start of it was outstanding; then they end with a start exactly when it has a confirmed subscriber and nothing is outstanding |
| SubscriptionRuns.RequestsAlternate | services/subscription-api/internal/subscription/repository.go:139-214 | so when confirm and request are one step they always alternate, and end with a start exactly when the repo has a confirmed subscriber |
| SubscriptionRuns.OutOfTurnForGood | services/subscription-api/internal/subscription/repository.go:216-234 | requests once out of turn stay so, as requests are only appended |
| SubscriptionRuns.StopCanOvertakeStart | services/subscription-api/internal/subscription/service.go:91-100 | a concrete run: with an unsubscription between the two transactions the stop is asked for first and the start last |
| SubscriptionRuns.CompensationIsHarmless | services/subscription-api/internal/subscription/repository.go:59-74 | in every run a compensation takes away at most the unconfirmed row its own call inserted |
| SubscriptionRuns.ConfirmingConfirms | services/subscription-api/internal/subscription/repository.go:139-170 | a confirmation is the first of its repo exactly when nobody was confirmed before |
| SubscriptionRuns.RemovingUnconfirms | services/subscription-api/internal/subscription/repository.go:185-214 | an unsubscription leaves the repo without confirmed subscribers exactly when it removed the last one |
| SubscriptionRuns.RunBalances | services/subscription-api/internal/subscription/repository.go:139-214 | the balance of starts, stops and outstanding starts holds along every run |
| Subscriptions.Store.Subscribe | services/subscription-api/internal/subscription/service.go:49-89 | the errors in their order; a failed call leaves the table as it was unless the compensation itself fails |
| Subscriptions.Store.ConfirmSubscriptionByToken | services/subscription-api/internal/subscription/service.go:91-100 | the row is confirmed even when the request of the start fails; the start is asked for exactly for a first confirmation |
| Subscriptions.Store.ConfirmByToken | services/subscription-api/internal/subscription/repository.go:139-170 | confirms exactly the row of the token, and says whether it was the first of its repo; a failed select reads as an unknown token |
| Subscriptions.Store.Unsubscribe | services/subscription-api/internal/subscription/repository.go:185-214 | one transaction deletes the row of the token and asks for a stop exactly when it was the last confirmed one |
| Subscriptions.Store.SaveSubscription | services/subscription-api/internal/subscription/repository.go:46-87 | a known pair keeps its token and confirmation |
| Subscriptions.Store.DeleteUnconfirmedSubscription | services/subscription-api/internal/subscription/repository.go:59-74 | deletes exactly an unconfirmed row with that token, and fails when there is none |
| Subscriptions.Store.GetSubscribers | services/subscription-api/internal/subscription/repository.go:114-137 | each confirmed subscriber of the repo exactly once |
| Fanout.FanOutIsExactlyOnce | services/subscription-api/internal/subscription/release_expander.go:27-38 | any partial expansions and redeliveries with one complete expansion among them leave exactly the keys of the release, each in a row addressed to a subscriber with its hash, and no other row changed |
| Fanout.SameAsOneExpansion | services/subscription-api/internal/subscription/release_expander.go:27-38 | the keys are those of a single uninterrupted expansion |
| Fanout.OneKeyPerHash | services/subscription-api/internal/subscription/notification_publisher.go:100-120 | a release has as many keys as its subscribers have distinct hashes |
| Fanout.Expander.Expand | services/subscription-api/internal/subscription/release_expander.go:27-38 | publishes for exactly the subscribers before the first failure, in order |
| Fanout.Expander.PublishReleaseNotification | services/subscription-api/internal/subscription/notification_publisher.go:73-98 | one command with the key, hash, recipient and text of the release, or nothing |
| IdempotencyKeys.ReleaseKeyDecodes | services/subscription-api/internal/subscription/notification_publisher.go:110 | round trip: a release key determines its repo, any tag, and its hash |
| IdempotencyKeys.ReleaseKeyIsUnambiguous | services/subscription-api/internal/subscription/notification_publisher.go:110 | two release keys are equal if and only if all three parts are |
| IdempotencyKeys.ReleaseKeyIsNoConfirmationKey | services/subscription-api/internal/subscription/grpc_notification_publisher.go:48 | no release key of a repo that passes the router equals a confirmation key |
| IdempotencyKeys.ConfirmationKeyIsUnambiguous | services/subscription-api/internal/subscription/grpc_notification_publisher.go:48 | two confirmation keys are equal if and only if all three parts are |
| IdempotencyKeys.RepoHasSlashButNoColon | services/subscription-api/internal/httpapi/router.go:20 | a repo that passes the router has a slash and no colon |
| TagCacheRuns.TagIsFresh | services/scanner-service/internal/github/provider.go:94-116 | in every run of overlapping calls with cache failures: an error or empty answer is GitHub's own at that instant, and a tag was given by GitHub for that repo less than the TTL plus the longest answer-to-store delay before it is returned |
| TagCacheRuns.CachedEqualsUncached | services/scanner-service/internal/github/provider.go:94-116 | while GitHub's answer is constant over that window the cached provider equals the uncached one |
| TagCacheRuns.WindowIsExact | services/scanner-service/internal/github/provider.go:106-114 | for every TTL and every delay a run in which the answer had been replaced for all but the first instant of the window; with a delay of more than one instant the plain TTL window does not contain it |
| TagCacheRuns.OnlyTagsAreCached | services/scanner-service/internal/github/provider.go:106-114 | errors and empty tags are never stored |
| TagCacheRuns.CallIsARun | services/scanner-service/internal/github/provider.go:94-116 | a call of the method without others in between is a run of the machine, with the same cache and answer |
| TagCache.CachedReleaseProvider.GetLatestTag | services/scanner-service/internal/github/provider.go:94-116 | the cache and the answer for every combination of cache failures, with separate instants for the look, the answer and the store |
| Migrations.Load | pkg/migrations/migrations.go:36-78 | succeeds if and only if every version fits 64 bits and no two files share one; then the list is strictly increasing, covers exactly the matching files, and has files with equally long digit groups in the order of those digits; otherwise the error names files that are to blame |
| Migrations.Collect | pkg/migrations/migrations.go:42-73 | the scan of the directory, with the map of seen versions |
| Migrations.ValueOfDecimal | pkg/migrations/migrations.go:52 | round trip: the number read from the decimal numeral of n, written by n / 10 and n % 10, is n |
| Migrations.LeadingZeroChangesNothing | pkg/migrations/migrations.go:52 | a leading zero does not change the number |
| Migrations.ValueOrdersDigits | pkg/migrations/migrations.go:74-76 | numerals of one length are ordered as numbers if and only if the first digit in which they differ is smaller |
| Migrations.IncreasingIsInDigitOrder | pkg/migrations/migrations.go:74-76 | increasing versions put files with equally long digit groups in the order of those digits |
| Migrations.SortByVersion | pkg/migrations/migrations.go:74-76 | the sorted list is strictly increasing and a permutation |
| Migrations.MatchIsPattern | pkg/migrations/migrations.go:22 | the matcher accepts exactly digits, underscore, title, .sql, and splits a name in the one possible way |
| MigrationRuns.CompleteRunIsUninterrupted | pkg/migrations/migrations.go:80-138 | any interrupted runs and then a complete one leave what one uninterrupted run leaves, and any further run changes nothing |
| MigrationRuns.InterruptedRunsResume | pkg/migrations/migrations.go:80-138 | an interrupted run changes neither where an uninterrupted run would end nor its outcome |
| MigrationRuns.RunExecutesMissing | pkg/migrations/migrations.go:80-138 | an uninterrupted run of an increasing list succeeds exactly without a mismatch, and commits exactly the missing migrations before the first one, in order |
| MigrationRuns.RunHandlesPrefix | pkg/migrations/migrations.go:91-98 | a run of any fate handles exactly a prefix of the list, which ends before the first mismatch |
| MigrationRuns.MismatchStops | pkg/migrations/migrations.go:110-120 | over any number of runs nothing at or after an edited migration is executed or recorded, and every run fails |
| MigrationRuns.EachVersionCommitsOnce | pkg/migrations/migrations.go:102-138 | under any interleaving of runners a recorded version's SQL was committed exactly once, an unrecorded one's never |
| MigrationRuns.Runner.Run | pkg/migrations/migrations.go:80-100 | creates the table or fails with nothing done, then the loop equals its specification and stops at the first error |
| MigrationRuns.Runner.Apply | pkg/migrations/migrations.go:102-138 | one transaction: mismatch, already applied, or executed and recorded together |

## Left out

- PostgreSQL, Kafka, Redis, SMTP, HTTP, gRPC and GitHub themselves: only their effect on a table, queue or log, and whether they work.
- Isolation anomalies between concurrent transactions, deadlocks, and column length limits such as 100 characters for last_seen_tag.
- JSON and protobuf encoding; a payload that does not decode is a non-retryable error of the handler.
- The gRPC notification mode: its failed deliveries are enqueued for a consumer that only the Kafka mode starts, so no delivery theorem holds there.
- `KafkaRetryPublisher.Retry`, which the delivery service does not call.
- Sending a confirmation email, which keeps no state; its idempotency key in gRPC mode is covered.
- Several partitions and rebalancing; two consumers of one partition at once. Commands of one idempotency key share a partition, as their Kafka key is the email hash inside it.
- Metrics, logging, configuration, wiring, HTTP status codes, static pages, scripts and dashboards.
- Columns nothing reads: saga type, updated_at of sagas, event source, the email of a saga request.
- Scanner.AckFor: the error text of an unsupported action does not quote the action. Validation rejects such a command before it gets there.
- Delivery.Service.UpsertPending: a notification id that is already used under another key is not modelled; ids are fresh.
- Subscriptions.Store.Subscribe: stated for a call without interference; interleaved calls are the subject of `SubscriptionRuns`.
- Outbox.HealthyBrokerDrains: stated for passes with no insertion in between; `EligibleRowIsTaken` covers insertions of later rows.
- Convergence.DrainedIffNotStale: a watchlist statement that fails is not part of that machine; in-order delivery per repo is taken from Kafka. `WatchedIffLastAppliedStarts` needs neither.
- Convergence.DrainedRepoIsRightIff: stated for repos no start of which was overtaken; `DrainedRepo` covers the others.
- DeliveryFairness.NoRetryStarves: needs delays that are not negative, which the configuration does not check.
- DeliverySafety.DeadLetterIff: a dead-letter publication that returns an error is taken not to have reached the queue.
- RelayRuns.LeasesExclude: holds for passes that finish within 30 seconds; the code does not enforce that.
- Fanout.FanOutIsExactlyOnce: subscribers are fixed during the deliveries; what becomes of the rows afterwards is the subject of `DeliverySafety`.
- Migrations.Load: an unreadable directory or file, which an embedded file system does not have; the path is directory, slash, name.
- Migrations.SortByVersion: stands for the library's sort.Slice and is an insertion sort; only its contract matters.
