# Seat allocation, verified

A Dafny model of the orientation and enrollment platform's core: the enrollment
service, the SQL statements it issues, and the durable job queue that finishes its
work. Around that core stand the replay protection of mutating requests, the password
hash, the stored timestamps, the schema migrations, the retry schedule and the
paginated listing. `dafny verify dfyconfig.toml` checks everything.

## How the model is built

The database is a value, `Tables.Db`: one sequence per table, a row's id being its
position. Each SQL statement is a function from tables to tables or to a refusal
(`Tables`), each service transaction a function that chains statements and keeps
nothing when one refuses (`Transactions`). The code as written, statement after
statement with early returns, rollback, retry loop and loops over rows, is in the
classes `StoreModel.Store`, `Services.EnrollmentService`,
`Services.RegistrationService` and `WorkerModel.Worker`; every method is proved equal
to the function of the same name.

`Protocol` is the platform as a state machine. One step is one committed transaction,
one statement of the job queue, or one move of a worker between two statements:
leasing a job, committing the handler's transaction, returning, marking, crashing, and
requeueing stale leases. Marks test only that a row is running, as the source does, so
executions whose lease was requeued overlap and may close or requeue the row. Every
step takes its own clock reading, a requeue may put back any running rows, and a lease may
take any queued one, so no result relies on clocks agreeing, on moving forward, or on how
timestamps compare. `ServiceRuns.CallIsRun` and `WorkerModel.CycleIsRun` tie service calls and
worker cycles to these steps.

`Text` says what trimming and folding come to, `Leases` when a job row may be leased, how
long a lease lasts and what an attempt leaves behind. `Forms` gives the paperwork
transactions and `Calls` every service call as a whole, refusals in their order included.
`Provisioning` says what the catalogue may hold, `Versions` what the version columns are for.

`Invariant.Inv` is what every committed transaction keeps: links, counters, ranks,
uniqueness, plans, gates and the audit trail. `NetEffect` says what each transaction
comes to on such tables, `Preservation` and `Growth` that it keeps the invariant,
`Behaviour` that every step of every run does. The results about whole runs are in
`Guarantees`, `Admission`, `Waitlist` and `JobBudget`, and, for the seats that drops set
free, in `FreedSeats`, `Histories`, `OpenSections`, `CreditLedger`, `Stranded`,
`Chances`, `LostSeats` and `Payment`. `Scene`, `ClosedSection` and `RetiredPromotion` build the two runs that
lose a seat.

`SeatRace` drops transaction isolation and interleaves single reads and conditional
updates. `Idempotency` interleaves find, run, save, second find and purge.
`Pbkdf2` and `PasswordCodec` cover key derivation and its stored form, `Timestamps`
the stored instants, `Migration` and `MigrationRuns` the schema scripts, `Backoff` the
retry schedule, `Paging` and `Listing` the pages of a query, `Batch` and `BatchAcrossTerms` batch claims.

## Where the code and its documentation differ

The model follows the code. Three promises turned out to need a condition:

- internal/service/enrollment.go:206-209 says a freed seat is offered to the waitlist. It
  can be lost in two ways. A promotion that runs while its section is not open succeeds
  without promoting, and nobody tries again after the section reopens
  (`ClosedSection.ClosingLosesTheSeat`). And a promotion that never got to run is retired
  once failures have exhausted its budget, even if its section was open all along
  (`RetiredPromotion.RetirementLosesTheSeat`). Both end in an open section with a free
  seat and a student who stays unseated until another seat is dropped. Exactly these two
  kinds of step, with no promotion to spare, end the cover of the seats on offer by
  promotions that may still run (`LostSeats.StepKeepsChancesIff`, for whole runs
  `LostSeats.ChancesKeptIff`), and a queue facing a free seat is abandoned exactly when none
  of its promotions is queued, running or about to commit (`Payment.AbandonedIff`). While
  the cover holds and the section is open, workers alone can fill every such seat
  (`Payment.OfferCanBePaid`).
- internal/service/idempotency.go:54 says a request's function runs at most once per
  scope. Two requests that both look before either saves both run it
  (`Idempotency.TwoRunsOfOneScope`). A request runs it exactly when nothing is stored
  under its scope as it looks (`Idempotency.RunsExactlyWithoutRecord`).
- internal/storage/sqlite/db.go:189-190 says the text order of stored timestamps is their
  chronological order. Within one second it is reversed whenever one trimmed fraction
  begins the other (`Timestamps.TextOrderIsNotTimeOrder`, exactly: `Timestamps.StoredOrder`).

A batch claim is a sequence of single claims, and duplicate courses are refused per term:
two items of one batch can succeed for the same course when their sections belong to
different terms (`Batch.BatchSuccessesDistinct`, with a reachable instance in
`BatchAcrossTerms.OneCourseTwice`).

## Model

| member | source | states |
|---|---|---|
| `FreedSeats.NoFreedSeatForgotten` | internal/service/enrollment.go:251-263 | in every reachable state, crashes, retries and overlapping workers included, min(free seats, queue length) of each section is at most the number of its promotion jobs whose transaction never ran while the section was open |
| `OpenSections.OpenSectionSeatsAreOwed` | internal/service/enrollment.go:206-209 | for a section that is open whenever a promotion of it is executing, that number is at most the promotions whose handler never returned success, and so at most its rows that are queued, running or permanently failed |
| `OpenSections.OpenedSectionSeatsAreOwed` | internal/service/enrollment.go:206-209 | the same for a section that is not closed again once opened, however it was provisioned |
| `Histories.SucceededIsFinished` | internal/worker/worker.go:147-156 | in every reachable state a job row marked succeeded belongs to a handler that returned success |
| `Histories.ReachedIsSound` | internal/worker/worker.go:121-188 | every reachable state is sound: the invariant holds, a row marked succeeded belongs to a handler that returned success, and such a handler had run its transaction |
| `CreditLedger.StepKeepsCreditIff` | internal/service/enrollment.go:295-297 | any step keeps the seats on offer covered by promotions that have not run, retired ones included, except exactly a promotion's first run while the section is not open and no promotion is to spare |
| `CreditLedger.CreditKeptIff` | internal/service/enrollment.go:284-328 | a whole run keeps that cover exactly when it contains no such step |
| `Stranded.QueueIsStranded` | internal/service/enrollment.go:251-263 | once no promotion of a section is queued, running or about to be committed, no step of any kind seats one of its waiting students until another of its seats is dropped |
| `ClosedSection.ClosingLosesTheSeat` | internal/storage/sqlite/seed.go:362-379 | a run closes a section, completes its promotion job and reopens it: the section is open with a free seat, its one job succeeded, and no continuation without another dropped seat seats the waiting student |
| `RetiredPromotion.RetirementLosesTheSeat` | internal/worker/worker.go:169-179 | the same end without any change of a section's status: the handler fails on all five attempts, and the promotion is retired without having run |
| `LostSeats.StepKeepsChancesIff` | internal/worker/worker.go:158-188 | any step keeps the seats on offer covered by promotions that have not run and still may, except exactly, with none to spare, a first run while the section is not open, or the return, mark or crash that ends a promotion's last chance to run |
| `LostSeats.ChancesKeptIff` | internal/service/enrollment.go:206-209 | a whole run keeps that cover exactly when it contains no such step |
| `LostSeats.LostHasLosingStep` | internal/service/enrollment.go:206-209 | a run that ends with a seat on offer and nothing pending contains such a step |
| `LostSeats.LostToRetirement` | internal/worker/worker.go:169-179 | and if no promotion ran while the section was not open with none to spare, some promotion of the section is permanently failed and never ran |
| `Payment.OfferIsPaid` | internal/service/enrollment.go:284-328 | from a covered state of an open section, however workers interleave, crash and retry, no free seat faces a waiting student once every promotion of the section has run |
| `Payment.OfferCanBePaid` | internal/worker/worker.go:121-156 | from every state of an open section that has kept its chances, requeues, leases and commits alone lead to a state with no free seat facing the queue |
| `Payment.AbandonedIff` | internal/service/enrollment.go:284-328 | when a seat is on offer, every continuation without another dropped seat leaves the waiting students unseated exactly when no promotion of the section is queued, running or about to be committed |
| `Guarantees.CountersAgree` | internal/storage/sqlite/catalog.go:284-361 | in every reachable state seats_taken and waitlist_length equal the counts of the rows they cache and stay within capacity and limit |
| `Guarantees.PlanSafety` | internal/domain/enrollment.go:175-198 | in every reachable state every student's pending, enrolled and waiting rows of every term fit the credit limit and pairwise differ in section and course and never overlap, although promotion rechecks nothing |
| `Guarantees.GateHolds` | internal/domain/enrollment.go:168-190 | in every reachable state every enrollment row belongs to a student with verified paperwork for the term and, for each prerequisite, a record with a grade of A, B, C, D or P |
| `Guarantees.VerifiedStays` | internal/domain/registration.go:20-25 | once verified, a registration reads as verified in every continuation of the run |
| `Guarantees.TrailRebuildsSeats` | internal/service/enrollment.go:270-273 | folding the success events on enrollments in id order rebuilds every row's status up to completion, and nothing else is in the fold |
| `Guarantees.TrailDeterminesStatuses` | internal/service/service.go:80-97 | for runs without the completion step the fold is exactly the status of every row; refused and rolled-back attempts contribute nothing |
| `Guarantees.NoLateFailures` | internal/service/enrollment.go:135-203 | in every reachable state claim, drop and promotion commit exactly under rules read off the rows (the first-rule refusal of a claim, the add/drop window of a drop, an open section with a free seat and a queue); no later statement of the transaction fails |
| `Admission.AdmissionIsExact` | internal/domain/enrollment.go:164-207 | a claim is refused by the first rule that fails, in the documented order and read off the rows alone, and otherwise commits; it joins the queue exactly when no seat is free |
| `Admission.DecisionIsExact` | internal/service/enrollment.go:102-147 | the decision computed from query results is the decision over the rows, each refusal and their order included |
| `Calls.ClaimCallIsExact` | internal/service/enrollment.go:57-98 | a claim call as a whole: whose seat is meant, who may ask for it, the first rule that refuses it with its rejection record, or the exact new tables |
| `Calls.DropCallIsExact` | internal/service/enrollment.go:210-280 | the same for a drop call |
| `Calls.DropOutlivesEnrollment` | internal/domain/catalog.go:53-58 | a student may leave an own active row exactly from the opening of the term to the end of add/drop, also after enrollment has closed, when claims are refused |
| `Calls.PromoteCallIsExact` | internal/service/enrollment.go:284-328 | a promotion call refuses a missing section, seats the earliest waiting row of an open section with a free seat, and else changes nothing |
| `Calls.SubmitCallIsExact` | internal/service/registration.go:38-90 | a submission call as a whole, the acting student included |
| `Calls.DecideCallIsExact` | internal/service/registration.go:100-129 | a decision call as a whole, its rejection record included |
| `Forms.SubmitOutcome` | internal/service/registration.go:42-85 | a submission is refused by the first failing rule (actor, term, archived, submitted or verified before, form, student) or leaves the one record of student and term holding the form handed in, submitted now, undecided, at the next version |
| `Forms.DecideOutcome` | internal/domain/registration.go:101-118 | a decision is refused by the first failing rule or leaves the record with the target status, the decider, the time and the trimmed note |
| `Admission.WindowRespected` | internal/domain/catalog.go:44-50 | in every reachable state every row was requested while its term's enrollment window was open |
| `Waitlist.RanksOrderTheQueue` | internal/storage/sqlite/enrollments.go:205-217 | in every reachable state ranks are positive exactly on waiting rows and ordered like row ids within a section |
| `Waitlist.NeverMovesBack` | internal/storage/sqlite/enrollments.go:220-231 | the number of students ahead of a waiting student never grows over any continuation of a run |
| `Waitlist.NoOvertaking` | internal/service/enrollment.go:298-318 | of two students waiting for one section, the later is seated only after the earlier stopped waiting |
| `Waitlist.PromotionServesTheQueue` | internal/service/enrollment.go:298-318 | a promotion seats the student nobody is ahead of and moves everyone else in that queue up by exactly one |
| `JobBudget.AttemptBound` | internal/worker/worker.go:158-188 | in every run attempts stay within max_attempts plus cancellations plus stale requeues, executions in flight within one plus stale requeues, and retries below max_attempts |
| `JobBudget.AnyNumberOfAttempts` | internal/worker/worker.go:158-167 | cancellations are free: every number of attempts is reachable, so the bound cannot leave them out |
| `Behaviour.StepAmounts` | internal/service/enrollment.go:100-328 | every step either grows catalogue, paperwork, queue and trail or has one of four exact effects on the seat tables |
| `Behaviour.JobsDueToDrops` | internal/service/enrollment.go:258-262 | over any step job rows keep their place and kind, and a new promotion is always the one a dropped seat left for its section |
| `Behaviour.StepKeepsGood` | internal/storage/sqlite/db.go:126-156 | every step keeps the whole invariant |
| `Behaviour.ReachedIsGood` | internal/storage/sqlite/db.go:126-156 | so every reachable state satisfies it |
| `NetEffect.ClaimOutcome` | internal/service/enrollment.go:100-204 | an accepted decision commits with exactly one new row, one counter step and one event, unless the student completed the section before |
| `NetEffect.OnlyCompletedCollides` | internal/storage/sqlite/enrollments.go:33-59 | after an accepted decision the unique index can be hit only by a completed row |
| `NetEffect.ClaimNeverConflicts` | internal/storage/sqlite/db.go:158-186 | inside a serialised transaction a claim never meets a version conflict, whatever the tables hold |
| `NetEffect.DropOutcome` | internal/service/enrollment.go:210-280 | a drop is refused by a rule spelled out in the rows (whose seat, the student's window up to the end of add/drop, the status) or commits exactly: one row moved, one counter lowered, a promotion job exactly when a seat was freed and someone waits |
| `NetEffect.PromoteOutcome` | internal/service/enrollment.go:284-328 | promotion fails only on a missing section and promotes exactly when the section is open with a free seat and a queue |
| `NetEffect.HeadIsEarliest` | internal/storage/sqlite/enrollments.go:220-231 | the three-key ORDER BY picks the lowest id among the waiting rows, and finds none exactly when the queue is empty |
| `Preservation.ClaimKeepsInv` | internal/service/enrollment.go:161-203 | a committed claim keeps the invariant |
| `Preservation.DropKeepsInv` | internal/service/enrollment.go:237-273 | a committed drop keeps the invariant |
| `Preservation.PromoteKeepsInv` | internal/service/enrollment.go:305-322 | a committed promotion keeps the invariant without rechecking any student rule |
| `Preservation.CompleteKeepsInv` | internal/domain/enrollment.go:21-28 | completing an enrolled row keeps the invariant |
| `Preservation.DecisionMeans` | internal/domain/enrollment.go:175-198 | an accepted decision makes the new row compatible with every row of the table and within the credit limit |
| `Growth.GrowthKeepsInv` | internal/storage/sqlite/seed.go:299-379 | transactions that only grow catalogue, paperwork, queue or trail keep the invariant |
| `Growth.VerifiedIsAbsorbing` | internal/domain/registration.go:20-25 | no committed submission or decision, of whatever record, changes a verified record at all |
| `Growth.SubmitGrows` | internal/service/registration.go:55-85 | a submission rewrites or adds the one record of its student and term and leaves every other exactly as it was |
| `Growth.DecideGrows` | internal/service/registration.go:107-123 | a decision rewrites the one record it names and leaves every other exactly as it was |
| `ServiceRuns.CallIsRun` | internal/service/service.go:72-97 | each service call changes the tables exactly as its protocol steps do: one step when it commits, one rejection record when it is refused |
| `ServiceRuns.CallsKeepInvariant` | internal/service/service.go:72-97 | any calls after any run leave tables that satisfy the invariant |
| `SeatRace.NeverOversold` | internal/storage/sqlite/catalog.go:284-334 | under any interleaving of single statements seats stay within capacity, move by claims minus releases, and the version counts the updates |
| `SeatRace.UnchangedVersionUnchangedRow` | internal/storage/sqlite/catalog.go:284-303 | no ABA: a version still current means the whole row is unchanged |
| `SeatRace.ClaimSettles` | internal/service/enrollment.go:69-97 | a claim commits at most once within maxRetries+1 attempts, and k conflicts need at least k updates by others |
| `Batch.BatchSuccessesDistinct` | internal/service/enrollment.go:330-369 | the successful items of a batch are of distinct sections, and of distinct courses within a term |
| `BatchAcrossTerms.OneCourseTwice` | internal/domain/enrollment.go:175-186 | from a reachable state one batch succeeds for two sections of one course, in two terms |
| `Services.SumCredits` | internal/domain/enrollment.go:132-140 | the loop sums the credits of exactly the active rows |
| `Services.CheckEnrollmentEligibility` | internal/domain/enrollment.go:164-207 | the checks with their loops give the decision, and the first failing rule as the error |
| `Services.EnrollmentService.ClaimOnce` | internal/service/enrollment.go:100-204 | the statements in sequence compute the claim transaction |
| `Services.EnrollmentService.ClaimInTx` | internal/service/enrollment.go:75-82 | a refused claim leaves every table as it was |
| `Services.EnrollmentService.Claim` | internal/service/enrollment.go:57-98 | the retry loop commits the transaction once or rolls it back and records the rejection, and never falls out of its loop |
| `Services.EnrollmentService.BatchClaim` | internal/service/enrollment.go:332-369 | every item reports what a single claim after the previous items would, and a bad batch changes nothing |
| `Services.EnrollmentService.DropOnce` | internal/service/enrollment.go:217-274 | the statements in sequence compute the drop transaction |
| `Services.EnrollmentService.LeaveOnce` | internal/service/enrollment.go:237-273 | its writing half: row, seat or queue counter, promotion job and event |
| `Services.EnrollmentService.Drop` | internal/service/enrollment.go:210-280 | a refused drop is rolled back and recorded |
| `Services.EnrollmentService.PromoteOnce` | internal/service/enrollment.go:290-323 | the statements in sequence compute the promotion transaction |
| `Services.EnrollmentService.PromoteWaitlist` | internal/service/enrollment.go:284-328 | a failed promotion is rolled back |
| `Services.EnrollmentService.RecordRejection` | internal/service/service.go:80-97 | appends one rejection event and nothing else |
| `Services.RegistrationService.SubmitOnce` | internal/service/registration.go:42-85 | load, submit and write back compute the submission transaction |
| `Services.RegistrationService.Submit` | internal/service/registration.go:38-90 | a refused submission is rolled back |
| `Services.RegistrationService.DecideOnce` | internal/service/registration.go:107-123 | load, decide and write back compute the decision transaction |
| `Services.RegistrationService.Decide` | internal/service/registration.go:100-129 | a refused decision is rolled back and recorded |
| `StoreModel.Store.Rollback` | internal/storage/sqlite/db.go:126-156 | restores every table |
| `StoreModel.Store.ClaimSeat` | internal/storage/sqlite/catalog.go:284-303 | the conditional update in place, with the failure explained |
| `StoreModel.Store.ReleaseSeat` | internal/storage/sqlite/catalog.go:306-334 | the conditional release in place, with the failure explained |
| `StoreModel.Store.AdjustWaitlistLength` | internal/storage/sqlite/catalog.go:338-361 | moves the counter only within 0 and the limit |
| `StoreModel.Store.CreateEnrollment` | internal/storage/sqlite/enrollments.go:33-59 | inserts at version 1 unless the partial unique index is hit |
| `StoreModel.Store.UpdateEnrollment` | internal/storage/sqlite/enrollments.go:62-84 | writes the mutable columns back only over the expected version |
| `StoreModel.Store.UpsertRegistration` | internal/storage/sqlite/registrations.go:25-81 | refuses a record without a student, inserts once per student and term, or updates over the expected version |
| `StoreModel.Store.EnqueueJob` | internal/storage/sqlite/jobs.go:18-43 | appends one queued job with a positive budget |
| `StoreModel.Store.ClaimNextJob` | internal/storage/sqlite/jobs.go:48-83 | leases the first ready job: running, locked now by this worker, one attempt charged, and no other row touched |
| `StoreModel.Store.FinishJob` | internal/storage/sqlite/jobs.go:141-154 | closes a running row whoever holds its lease, and refuses any other |
| `StoreModel.Store.RequeueStaleJobs` | internal/storage/sqlite/jobs.go:110-124 | requeues exactly the running rows locked at or before the cutoff or not locked at all, due at once, and counts them |
| `StoreModel.Store.AppendAudit` | internal/audit/recorder.go:44-68 | appends one event through the caller's transaction |
| `Versions.SecondSeatWriterLoses` | internal/storage/sqlite/catalog.go:284-334 | of two seat statements issued under one version only the first commits, and it moves the counter by exactly one within its limits |
| `Versions.SecondEnrollmentWriterLoses` | internal/storage/sqlite/enrollments.go:62-84 | of two updates of a row under one version the second meets a version conflict |
| `Versions.SecondRegistrationWriterLoses` | internal/storage/sqlite/registrations.go:25-81 | the same for paperwork, and of two first submissions the second meets the unique index |
| `Versions.ClaimSeatExplains` | internal/storage/sqlite/catalog.go:284-303 | a refused seat names what was wrong: missing, written by somebody else, not open, full |
| `Versions.WaitlistCounterBounded` | internal/storage/sqlite/catalog.go:338-361 | the queue counter moves exactly as asked while it stays in its range and is refused as full otherwise |
| `Provisioning.TermMeans` | internal/domain/catalog.go:28-42 | which terms may be written: enrollment opens before it closes and add/drop outlasts it |
| `Provisioning.CourseMeans` | internal/domain/catalog.go:73-81 | which courses may be written |
| `Provisioning.SectionMeans` | internal/domain/catalog.go:131-142 | sections start empty, with blocks inside the days of the week |
| `Tables.NextJobIsFirst` | internal/storage/sqlite/jobs.go:66-71 | a ready job (queued, due, of a registered kind) is leased whenever there is one, and none precedes it in (run_after, id) order |
| `Tables.HeadIsFirst` | internal/storage/sqlite/enrollments.go:220-231 | the head precedes every other waiting row of its section |
| `Tables.NextRankExceeds` | internal/storage/sqlite/enrollments.go:205-217 | the next rank is one more than the largest rank waiting, or 1 |
| `WorkerModel.Worker.constructor` | internal/worker/worker.go:44-80 | unset settings fall back to one minute, one second and "worker", and a maximum below the base is raised to it |
| `WorkerModel.Worker.Register` | internal/worker/worker.go:83-92 | a kind is bound at most once |
| `WorkerModel.Worker.RecoverStaleJobs` | internal/worker/worker.go:107-117 | puts back exactly the running rows whose lock time plus the lease has passed, or that have none, due at once, and counts them; the protocol's requeue of those rows |
| `WorkerModel.Worker.RunHandler` | internal/worker/handlers.go:34-54 | a missing section and an empty promotion count as success |
| `WorkerModel.Worker.RunOnce` | internal/worker/worker.go:121-188 | leases the first ready job; success closes the row, a cancellation makes it due at completion, a failure due after the backoff delay of that attempt or, at the budget, retired with one failure event; no worker gets a failed job before the base delay is over |
| `WorkerModel.CycleIsRun` | internal/worker/worker.go:121-188 | what RunOnce does to the tables is a run of the protocol's lease, handler and mark steps |
| `WorkerModel.CycleSettles` | internal/worker/worker.go:147-188 | one cycle changes only its own job row, settled by the outcome, besides what the handler did and the failure event of a retired job |
| `WorkerModel.HandlerMeans` | internal/worker/handlers.go:34-54 | a promotion handler that gets to run promotes exactly when the section is open with a free seat and a queue, and returns success in every case, a missing section included |
| `Leases.AttemptSettles` | internal/worker/worker.go:147-188 | what each outcome leaves of the job row, and that a job is retired exactly when a failure uses up its attempts |
| `Leases.RetryWaits` | internal/domain/job.go:69-88 | a failed job is not leased again before its delay, which is never below the base, has passed |
| `Leases.LiveLeaseSurvives` | internal/domain/job.go:92-97 | a leased job survives every recovery before its lease is over and none after |
| `Leases.StaleMeans` | internal/domain/job.go:92-97 | a row is stale exactly when its lock time plus the lease, by default a minute, has passed |
| `Domain.OverlapIsSharedMinute` | internal/domain/catalog.go:144-151 | valid blocks overlap exactly when they share a minute of a weekday |
| `Domain.FindScheduleConflict` | internal/domain/catalog.go:230-239 | finds the first overlapping pair, exactly when there is one |
| `Domain.MissingPrerequisites` | internal/domain/registration.go:142-160 | lists the normalised codes no record with a passing grade covers, in catalogue order, and nothing exactly when all are covered |
| `Domain.PassingMeans` | internal/domain/registration.go:131-138 | a grade passes exactly when it is one of the letters A to D and P in either case, with only white space around it |
| `Domain.OtherGradesFail` | internal/domain/registration.go:131-138 | F, W, I and a blank grade never pass |
| `Domain.WellFormedMeans` | internal/domain/registration.go:64-80 | which forms may be handed in: program, advisor address and dorm preference |
| `Domain.EmailMeans` | internal/domain/identity.go:52-65 | an address is accepted exactly when its trimmed text has no inner white space and its first at-sign has text on both sides |
| `Domain.SeatLifeCycle` | internal/domain/enrollment.go:76-98 | the seven moves of an enrollment, what each stamps, and that every other is refused |
| `Text.TrimMeans` | internal/domain/registration.go:132-132 | trimming removes exactly the white space at both ends |
| `Text.NormalMeans` | internal/domain/registration.go:146-151 | normalising a code trims it and makes small letters capitals, and changes nothing else |
| `Domain.PaperworkMachine` | internal/domain/registration.go:83-118 | exactly when a submission and a decision are accepted, and that verified accepts neither |
| `Idempotency.OutcomeIsSavedRecord` | internal/service/idempotency.go:59-118 | under any interleaving every successful keyed outcome is the response of a record saved for that scope and fingerprint |
| `Idempotency.OneFreshOutcomePerRecord` | internal/service/idempotency.go:91-118 | each saved record has exactly one outcome that is not a replay, that of the successful run that produced it |
| `Idempotency.AnswersAgreeBetweenPurges` | internal/service/idempotency.go:72-87 | outcomes of one scope not separated by a purge of the record are identical |
| `Idempotency.RunsExactlyWithoutRecord` | internal/service/idempotency.go:72-87 | a keyed request runs its function exactly when nothing was stored as it looked, and at most once |
| `Idempotency.RerunNeedsPurge` | internal/service/idempotency.go:54-58 | after a saved answer the function runs again for the scope only once the record is purged |
| `Idempotency.LookDecides` | internal/service/idempotency.go:72-87 | in every reachable world a keyed request that looks goes ahead when nothing is stored, is refused when its payload is not the saver's or the record is a day old, and replays the record otherwise |
| `Idempotency.PurgeTakesTheDead` | internal/storage/sqlite/idempotency.go:68-79 | the purge of a moment takes exactly the records a look at that moment would refuse as expired |
| `Idempotency.FingerprintIs` | internal/service/idempotency.go:50-52 | a fingerprint is the digest of method, path and payload in that order, each closed by a NUL byte |
| `Idempotency.TwoRunsOfOneScope` | internal/service/idempotency.go:54-58 | at most once per scope is false: two overlapping requests both run, and the loser replays the winner |
| `Idempotency.SameFingerprintSamePayload` | internal/service/idempotency.go:50-52 | with a collision-free digest, equal fingerprints within a scope mean equal payloads |
| `Idempotency.FingerprintPayload` | internal/security/credentials.go:81-88 | the loop digests the parts, each closed by a NUL byte |
| `Idempotency.IdempotencyService.SaveIdempotencyRecord` | internal/storage/sqlite/idempotency.go:44-65 | inserts unless the scope is incomplete or already stored |
| `Idempotency.IdempotencyService.PurgeExpired` | internal/storage/sqlite/idempotency.go:68-79 | keeps exactly the records that expire later than now and counts the others |
| `Idempotency.IdempotencyService.RunAndSave` | internal/service/idempotency.go:91-118 | running, saving and looking again: a failure is not stored, a success is stored for a day or gives way to the winner's answer, whatever other requests leave in the table meanwhile |
| `Idempotency.IdempotencyService.Execute` | internal/service/idempotency.go:59-118 | one request: without a key it runs, with a stored answer it is refused for another payload or after expiry and replayed otherwise, and else it runs and stores its answer for a day; the protocol's look followed by those moves |
| `Pbkdf2.Derive` | internal/security/credentials.go:92-120 | the loops compute DK of section 5.2 of RFC 8018 for every password, salt, length and work factor, factors below one counting as one |
| `Pbkdf2.DeriveBlock` | internal/security/credentials.go:100-117 | one block is F of that section, with the digest buffer reused and the XOR in place |
| `Pbkdf2.Iterate` | internal/security/credentials.go:109-115 | one iteration digests the last link over its own buffer and adds the new one to the sum |
| `Pbkdf2.XorInto` | internal/security/credentials.go:112-114 | the in-place XOR |
| `Pbkdf2.XorCancels` | internal/security/credentials.go:112-114 | exclusive or leaves a byte alone against zero and cancels it against itself |
| `Pbkdf2.BigEndianFaithful` | internal/security/credentials.go:103-107 | block indices are encoded faithfully below 2^32, the standard's limit, and repeat beyond it |
| `PasswordCodec.HashPassword` | internal/security/credentials.go:31-48 | refuses passwords below 8 bytes and salts other than 16, and its text is the algorithm, the factor (60000 unless given), the salt and the 32-byte key joined by dollar signs, which parses back to them |
| `PasswordCodec.VerifyPassword` | internal/security/credentials.go:52-71 | parses the four fields and compares derived keys, with every malformed text refused |
| `PasswordCodec.HashThenVerify` | internal/security/credentials.go:31-71 | a stored hash accepts a candidate exactly when it derives the same key |
| `PasswordCodec.ParseUndoesStored` | internal/security/credentials.go:43-69 | the stored text gives back factor, salt and key |
| `PasswordCodec.ParseMeans` | internal/security/credentials.go:52-69 | exactly which stored texts are read, and as which factor, salt and key |
| `PasswordCodec.DecodeAccepts` | internal/security/credentials.go:62-69 | exactly which texts are base64: line breaks aside, only characters of the alphabet and not one too many |
| `PasswordCodec.SymbolIsStandard` | internal/security/credentials.go:46-47 | the alphabet is that of section 4 of RFC 4648 |
| `PasswordCodec.ValueIsStandard` | internal/security/credentials.go:62-69 | and is read back by the same table |
| `PasswordCodec.GroupsAreBits` | internal/security/credentials.go:46-47 | bits are taken most significant first, and the last group is filled with zeros |
| `PasswordCodec.NumberIsPositional` | internal/security/credentials.go:45-58 | digits are read in decimal notation |
| `PasswordCodec.AtoiReadsSigns` | internal/security/credentials.go:57-59 | a sign in front of a factor is read, and an empty factor refused |
| `PasswordCodec.SplitUndoesJoin` | internal/security/credentials.go:43-54 | splitting undoes joining when no field contains the separator |
| `PasswordCodec.JoinUndoesSplit` | internal/security/credentials.go:43-48 | joining always undoes splitting |
| `PasswordCodec.AtoiUndoesItoa` | internal/security/credentials.go:45-58 | decimal factors survive up to the 64-bit limit |
| `PasswordCodec.DecodeUndoesEncode` | internal/security/credentials.go:62-69 | every byte string survives unpadded base64 |
| `Timestamps.StoredOrder` | internal/storage/sqlite/db.go:188-193 | exactly how text order relates to time order |
| `Timestamps.EqualLengthsAgree` | internal/storage/sqlite/db.go:188-193 | with equally long fractions the two orders agree |
| `Timestamps.TextOrderIsNotTimeOrder` | internal/storage/sqlite/db.go:188-193 | two instants of one second whose texts are reversed |
| `Timestamps.ParseUndoesFormat` | internal/storage/sqlite/db.go:204-210 | parsing gives back every four-digit-year instant |
| `Timestamps.FormatIsInjective` | internal/storage/sqlite/db.go:188-193 | distinct instants have distinct texts |
| `Timestamps.FormatShape` | internal/storage/sqlite/db.go:188-193 | the stored text is the UTC form of section 5.6 of RFC 3339: fixed-width fields with their separators, a trimmed fraction, a final Z |
| `Timestamps.MonthLengths` | internal/storage/sqlite/db.go:204-210 | the month lengths a parsed date is checked against, leap years included |
| `Migration.LoadAll` | internal/migrations/migrations.go:32-63 | parses every script and refuses a bad name or a version seen before |
| `Migration.All` | internal/migrations/migrations.go:32-75 | succeeds exactly when the versions are 1..n, and returns, in that order, every script that a file of the directory describes: number and name from its file name, its text, and the digest of that text |
| `Migration.NameMeans` | internal/migrations/migrations.go:86-101 | exactly which file names are scripts, and which number and name they give |
| `Migration.LoadMeans` | internal/migrations/migrations.go:37-63 | a script loaded from a file has that file's number, name, text and digest |
| `MigrationRuns.Database.ApplyMigration` | internal/storage/sqlite/migrate.go:79-98 | script and ledger row commit together or not at all |
| `MigrationRuns.Database.CheckDrift` | internal/storage/sqlite/migrate.go:48-63 | reports drift exactly when a recorded version is unknown or its checksum differs |
| `MigrationRuns.Database.Migrate` | internal/storage/sqlite/migrate.go:35-77 | applies the missing scripts in order until it completes, dies or fails, and nothing on drift |
| `MigrationRuns.AlwaysAPrefix` | internal/storage/sqlite/migrate.go:31-34 | after any crashes and releases the disk holds an initial part of the scripts, each run once and in order |
| `MigrationRuns.CompletedIsUninterrupted` | internal/storage/sqlite/migrate.go:30-77 | a completed run leaves what one uninterrupted run leaves, and a further run applies nothing |
| `MigrationRuns.RunAdvances` | internal/storage/sqlite/migrate.go:48-77 | a run completes exactly at the end of its own list, and a disk ahead of the list is reported, not touched |
| `MigrationRuns.ChangedScriptsAreRefused` | internal/storage/sqlite/migrate.go:48-63 | after any crashes and releases a binary is refused, with nothing touched, exactly when it ships fewer scripts than were applied or one of those with another checksum |
| `Backoff.DelayWithinBounds` | internal/domain/job.go:69-88 | every delay lies between the effective base and cap |
| `Backoff.DelayMonotone` | internal/domain/job.go:69-88 | a later attempt never waits less |
| `Backoff.DelayDoubles` | internal/domain/job.go:67-88 | for every base and cap the schedule starts at the base, or a second without one, and doubles until the cap or the 17th attempt |
| `Backoff.TotalDelayBounded` | internal/worker/worker.go:181-184 | n delays sum to at most n caps and at most (2^n - 1) bases |
| `Paging.NormalizeSettles` | internal/domain/query.go:30-58 | a normalised page is in range, names an allowed column and normalises to itself |
| `Paging.NormalizeMeans` | internal/domain/query.go:30-58 | exactly which page requests are accepted and what they become: size, default size, column and direction in any spelling of their case |
| `Paging.PagesPartition` | internal/domain/query.go:61-93 | pages 1..TotalPages concatenate to the list; all but the last are full, later ones empty |
| `Listing.PagesCoverListing` | internal/storage/sqlite/enrollments.go:140-159 | walking all pages of a query yields exactly the rows with the wanted student, term, section and statuses, each once, by the chosen column in the chosen direction with ties by id |
| `Listing.RequestsAccepted` | internal/storage/sqlite/enrollments.go:111-159 | exactly which list requests are accepted: page size, one of the six columns, direction |
| `Listing.AnswerIsPage` | internal/storage/sqlite/enrollments.go:140-159 | every answer is its page of one listing, with that listing's total |
| `Listing.OrderIsUnique` | internal/storage/sqlite/enrollments.go:149-151 | breaking ties by id leaves exactly one order, so separate queries page through one list |

## Left out

- Users, sessions, login, roles beyond registrar and student, configuration, HTTP routing and JSON are not modelled.
- Text that no decision reads (codes and labels of sections, reasons, audit details, last_error, created_at and updated_at columns) is dropped; the audit trail keeps action, object, result and order.
- Row ids are positions and start at 0 where the source's start at 1; "must be positive" checks on section and enrollment ids become "must not be negative", and a list filter's zero becomes an absent option.
- Sections are provisioned with both counters at 0; the insert statement itself would accept other values.
- Completion of a course is an environment step, since no service performs it.
- Domain.Enrollment.Transition: returns the changed record; the source changes its own copy in place and writes it back, and no other holder sees the copy. The same goes for Domain.Registration.Submit and Domain.Registration.Decide.
- Text.Normal: trimming, changing case and counting characters cover ASCII only, here and in the form validators.
- A fault inside the database (I/O error, busy timeout, failed commit) is not modelled; a transaction commits or is rolled back. A rejection record that cannot be written, which the source only logs, is always written here, except that runs may leave out any step.
- Cancellation of a request's context in the middle of Claim is not modelled; a worker's cancellation is.
- Services.EnrollmentService.Claim: the clock reading is the same for every replay of the transaction; the replay is never taken here because a serialised claim meets no conflict, and `SeatRace` covers it without serialisation.
- WorkerModel.Worker.RunOnce: runs one cycle with nothing else in between; the interleaved form is `Protocol`. The branch for a kind without handler is unreachable because only registered kinds are leased. The endless polling loop is not modelled.
- Job payloads are section ids instead of JSON, so a payload that does not decode does not occur; a faulting handler stands for it.
- StoreModel.Store.ClaimNextJob: compares run_after as an instant where the source compares its text; `Timestamps.StoredOrder` says exactly when the two differ, which needs two instants within one second. Results about runs do not depend on it: there a lease may take any queued row.
- StoreModel.Store.RequeueStaleJobs: compares locked_at as an instant in the same way; in runs a requeue may put back any running rows.
- Idempotency.IdempotencyService.PurgeExpired: compares expires_at as an instant in the same way; in the interleaved form a purge may delete any rows.
- Backoff.Delay: the source scales in float64, exact for bases up to 2^53 nanoseconds; larger durations are not modelled.
- Idempotency: the foreign key from a record to its user is not modelled, nor is a find that fails for another reason than a missing row.
- Pbkdf2: HMAC-SHA256 is any function with 32-byte results, and the stored digest is any function of the text.
- Passwords are byte strings, and constant-time comparison is equality.
- PasswordCodec.Parse: every malformed text gives one error; the source words them differently.
- Timestamps.ParseTime: reads the stored UTC form only; zone offsets, fractions longer than nine digits and calendar arithmetic are not part of this model.
- Migration.All: reading an embedded file never fails here, and the checksum is any function of its text.
- MigrationRuns.Database.Migrate: two processes migrating one database at the same time are not modelled; the ledger's primary key makes the second one fail.
- Listing: column values are integers ordered as the database orders them; the section roster, registration and audit lists use the same paging.
- SortMeetings, labels, the maintenance sweep guard and the demo data only add easy members.
