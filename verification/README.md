# Email delivery pipeline: a verified model

The service accepts emails over an HTTP API, keeps one database record per email, moves its id through
Redis lists and sorted sets, and sends it from worker processes over SMTP. The two stores share no
transaction; workers crash, locks expire, ids are delivered twice, and a sweeper repairs what was lost
between the stores. This project models that pipeline in Dafny and proves what it guarantees over whole
runs, for every interleaving, and where those guarantees stop.

## How it is built

* **Stores.** `Lists` and `SortedSets` give the Redis commands, `Queue` the keys and the Lua scripts,
  `Locks` the per-email lock, `Records` the rows, `Payload` the stored requests.
* **Services.** `QueueServices.QueueService`, `LockHistory.RedisLock`, `EmailServices.EmailService`,
  `ProcessEmails.WorkerProcess`, `Sweepers.SweeperService` and `Submissions.EmailApi` are classes whose
  methods run as the Python methods do, exception arms and `finally` included, and are proved against the
  functions above. Every call to Redis or to the database takes a `Fault` that says whether it comes back
  normally or raises, and whether it had already taken effect when it raised.
* **One worker, call by call.** `Process` cuts `dequeue` and `process_email` at every external call: `Next`
  says where control goes, `Effect` what the call does to the stores, `Solo` what a call does that runs
  undisturbed. `ProcessEmails.WorkerProcess.ProcessEmail` is proved to do exactly what `Solo` does, and
  `Verdicts` says in plain terms what that is, case by case.
* **All of it together.** `Pipeline` interleaves any number of workers, submissions, reaper and mover passes,
  sweeper actions, crashes and clock ticks over all ids. `Pipeline.StepProjects` shows that what a step does
  to one id is a step of the small machine `OneEmail`, so invariants are proved there (`Fence`, `Exclusion`,
  `Budget`, `Currency`, `Marker`, `Retention`) and lifted to every run in `Guarantees`.
* **Get-or-create.** `Idempotency` interleaves concurrent `create_email` calls over one table with the unique
  index and shows that they are linearizable.

## Where the guarantees stop

* **The retry budget needs the lock until the outcome is written.** A lock that lasts from the read to the
  compare-and-set is not enough: a worker that has outlived its lock can write FAILED between the read and the
  compare-and-set of the next one, which then sends on a retry count it has not seen
  (`Overtaking.LockToCasIsTooShort`, a run of the whole pipeline). `Guarantees.RetryBudget` therefore asks that no
  worker makes a call between its read and its outcome write after its lock's time to live. What really counts is
  whether the copy a worker has read is still current at the compare-and-set: a failed send is then counted, and
  otherwise not (`Budget.FailedSendIsCountedIff`), and `Guarantees.RetryBudgetWhenCurrent` proves the budget from
  that alone, with no assumption on the lock.
* **The plain measure does not always fall.** `(M - retry_count) * M + (M - db_errors)` falls with every delayed
  call except when the send ends in an exception that is not an SMTP error and the FAILED write of the generic
  arm does not take effect: the email stays SENDING and `finally` clears its error counter.
  `PlainMeasure.PlainFallsIff` gives the exact condition. `Termination.Measure`, which gives no credit for
  retries to an email that cannot be sent any more, falls always, and the bound of `max(1, M * (M + 1))` calls
  holds (`Termination.CallsAreBounded`, `Termination.CallsAreFinal`).
* **The generic arm can make an email eligible that must not be sent again.** It writes FAILED whatever the status.
  A call whose send was accepted leaves the email eligible if and only if the SENT write raises an exception other
  than `OperationalError` and that FAILED write takes effect (`Limits.AcceptedReopensIff`). A call on an email that
  is already SENDING, SENT or DLQ makes it eligible if and only if it gets the lock, the read or the database call
  that the record leads to next raises such an exception (the DLQ write when retries are used up, the
  compare-and-set when not, none for SENT), and the FAILED write takes effect (`Limits.SpentReopensIff`). A later
  call then gets the email accepted again (`Limits.ReopenedIsSentAgain`). `Guarantees.FencedSends` excludes
  such exceptions.
* **Late writes can do the same.** The sweeper does not look at the status again after its SELECT, and a submission
  writes FAILED after an enqueue error without looking at all. When either comes to an email that may not be sent
  any more, it makes it eligible under exactly the conditions of `Limits.SweepReopensIff` and
  `Limits.LateFailReopensIff`. The theorems that need it say so: neither comes to such a status
  (`Guarantees.FencedSends`, `Guarantees.RetryBudget`, `Guarantees.RetryBudgetWhenCurrent`), and the sweeper acts
  on or skips records that still wait (`Guarantees.QueuedSetIsExact`, `Guarantees.MarkedIffPresent`).
* **The empty idempotency key is not a key.** The lookup skips it but the unique index does not, so a repeated
  request with the key `""` ends in an `IntegrityError` (`Idempotency.ReplayIff`).
* **Delays can shrink unless the base delay is at least the jitter** (`Backoff.NeverShrinksIff`).
* **The audit log survives exactly those updates that start from the current log**
  (`EmailServices.StaleUpdateKeepsLogIff`): serialised updates per email are needed for the trail.

## Model

| member | source | states |
|---|---|---|
| Guarantees.FencedSends | worker.py:243-333 | in every run, with any crashes, duplicate copies and expired locks, at most one worker is between the compare-and-set and the outcome write of an email, and the SMTP server accepts the email at most once, as long as worker database calls raise only OperationalError and no FAILED write of a submission and no sweeper action comes late to a status that cannot be sent |
| Guarantees.TwoInSection | worker.py:189-201 | if two workers are between read and outcome write of one email, the one that locked first was past its time to live when the other locked |
| Guarantees.RetryBudget | worker.py:219-417 | at most `max_retries` SMTP attempts per email in every run, and never more than `retry_count` plus one while the status is SENDING, SENT or DLQ, as long as no worker works on a read email after its lock's time to live and no submission or sweeper write comes late |
| Guarantees.RetryBudgetWhenCurrent | worker.py:219-417 | the same bound for every run, whatever happens to the lock, in which the compare-and-set hits only for workers whose copy has the row's retry count, under the conditions of the fence |
| Guarantees.QueuedSetIsExact | app/services/queue.py:301-316 | from empty queues, a PENDING or QUEUED email that is in the queued set has a copy or a dead letter in Redis, and one that has is in the queued set unless its latest push is still without its marker update |
| Guarantees.MarkedIffPresent | app/services/queue.py:171-188 | in every run in which a push that takes effect comes back normally and gets its marker, a PENDING or QUEUED email is in the queued set if and only if Redis has a copy or a dead letter of it, except between the two commands of an enqueue |
| Guarantees.SweeperAddsNoCopy | app/services/sweeper.py:125-191 | in every such run a sweeper action that pushes an email finds no copy and no dead letter of it, except between the two commands of an enqueue |
| Guarantees.Conservation | app/services/queue.py:37-119 | copies in queue, processing, delayed and DLQ are always the initial ones plus pushes less effective completes less collapses, per id, over every run |
| Guarantees.NoLostRetry | worker.py:295-325 | while the reaper takes only copies no worker holds, processing has a copy for every worker holding one, and an email that a worker brought to FAILED is still in Redis, whoever writes FAILED over it later, crashes between the FAILED write and the delay included |
| Guarantees.EachTakesOneCopy | worker.py:185-417 | under the same reaper, however the workers interleave, each completion, delay or dead letter that takes effect finds a copy of its email in processing and takes exactly one out |
| Visibility.SafeFromReaper | app/services/queue.py:250-268 | in every run, for the visibility timeout after a refresh of an id that takes effect, no reaper pass takes that id or moves its copies |
| Visibility.PromptIsDisciplined | app/services/queue.py:78-100 | a run in which the reaper never meets a held id whose latest refresh is a timeout old is one in which it takes only copies no worker holds |
| Guarantees.AttemptsAreSpaced | app/services/queue.py:382-437 | for a single copy no SMTP attempt starts before the score of the latest delay |
| Guarantees.RetriesAreSpaced | app/services/queue.py:382-437 | for a single copy any SMTP attempt after a delay of d seconds starts at least d seconds after that delay was scheduled, whatever was delayed in between |
| Guarantees.RetriesAreSpacedByBackoff | worker.py:295-325 | for a single copy, when a worker has committed FAILED with a retry count of r and its next call delays the copy, every later SMTP attempt starts at least `retry_delay * 2^(r - 1)` seconds after that call, or the largest retry delay if that is smaller |
| Guarantees.StepKeepsRequests | app/services/email.py:413-460 | no step but `create_email` adds a row, and none removes one or changes its caller, key or payload |
| Pipeline.StepProjects | worker.py:169-467 | refinement: each step of the whole pipeline is, for every id, exactly one step of the machine for that id, effects on the two stores and on the bookkeeping included |
| Fence.Kept | worker.py:243-333 | the fence invariant is kept by every step of workers, submissions, reaper, mover and sweeper |
| Exclusion.Kept | app/services/queue.py:546-564 | a worker in the locked section owns the lock or has outlived it, and such ownerships do not overlap; kept by every step |
| Budget.Kept | worker.py:219-417 | attempts stay within `retry_count` plus the one the status shows, through every arm including OperationalError and the generic one |
| Budget.FailedSendIsCountedIff | worker.py:243-325 | a compare-and-set that hits, a failed send and its FAILED write follow each other, and after them every attempt is still counted, within the budget, if and only if the copy the worker had read is not behind the row |
| Currency.Kept | worker.py:219-417 | attempts stay counted through every step while workers that win the compare-and-set have a current copy, because at most one of them is in flight |
| Currency.LockKeepsCurrent | worker.py:189-252 | a lock that outlasts the calls of its worker is one way to have a current copy |
| Marker.Kept | app/services/queue.py:301-316 | no worker that is completing a copy can meet a PENDING or QUEUED email, so clearing the marker never hides waiting work; kept by every step |
| Guarantees.MissingWorkReturns | app/services/sweeper.py:125-191 | in every run, a waiting email of which Redis has nothing gets exactly one copy and its marker back from a sweeper action whose push and marker come through, also when its database block fails after the enqueue |
| Guarantees.MissingWorkEnds | app/services/sweeper.py:138-164 | in every run such an email is FAILED, with nothing pushed, once its sweeps are used up and that write takes effect |
| Retention.Balanced | app/services/queue.py:37-119 | each step keeps the balance of copies, pushes, completes and collapses |
| Retention.KeptByAll | worker.py:295-325 | each step keeps a copy for every holder and one more copy than removers for an email a worker failed |
| Retention.WaitsKept | app/services/queue.py:102-119 | each step keeps the latest delay running or over |
| Retention.NotBeforeGrows | app/services/queue.py:382-416 | a single copy is delayed again only after its latest delay is over, so its earliest send time never moves back |
| Retention.AttemptWaits | app/services/queue.py:418-437 | a send never starts before that time |
| Limits.AcceptedReopensIff | worker.py:327-417 | a call whose send is accepted leaves the email eligible if and only if the SENT write raises a generic exception and the FAILED write of the generic arm takes effect |
| Limits.AcceptedReopensAsFailed | worker.py:379-417 | it is then FAILED with one retry more |
| Limits.SpentReopensIff | worker.py:203-252 | a call on a SENDING, SENT or DLQ email makes it eligible if and only if it gets the lock, the read or the database call that the record leads to next raises a generic exception, and the FAILED write takes effect |
| Limits.ReopenedIsSentAgain | worker.py:203-333 | after either, a later call that finds the lock free and retries left gets the email accepted again |
| Overtaking.LockToCasIsTooShort | worker.py:189-252 | with one retry allowed, a run of the pipeline in which every lock lasts from the read to the compare-and-set makes two SMTP attempts |
| ProcessEmails.WorkerProcess.ProcessEmail | worker.py:169-436 | the whole call, with all its arms and `finally`, leaves the stores and returns or raises as the worker's calls in a row do, disposes of its copy in exactly one way unless it came to a Redis call that failed first (a call that returns then is one whose own last move failed without effect), and answers true only for an email that is SENT |
| ProcessEmails.WorkerProcess.AcquireAndLeave | worker.py:186-201 | only a worker that gets the lock goes on to read the record; one that does not delays its copy, and a Redis failure raises |
| ProcessEmails.WorkerProcess.ReadAndLeave | worker.py:203-238 | missing, already sent, out of retries, or on to the compare-and-set, with both exception arms |
| ProcessEmails.WorkerProcess.TransitionAndLeave | worker.py:240-252 | only the worker whose compare-and-set hit goes on to send, the others drop their copy |
| ProcessEmails.WorkerProcess.SendAndLeave | worker.py:264-325 | ends as the worker's calls from the send on do; which codes are dead-lettered and which are retried is stated by `Verdicts` |
| Verdicts.AcceptedIsSent | worker.py:327-333 | an accepted send ends with the email SENT, its copy completed, the marker, visibility entry, error counter and lock gone, and true |
| Verdicts.PermanentIsDeadLetter | worker.py:282-293 | one of the codes 500 to 504, 521, 550 to 554 ends with DLQ, the retry count as it was, a dead letter, and false |
| Verdicts.TransientIsRetried | worker.py:295-325 | any other code or SMTP error ends with FAILED, one retry more, a delay between the doubled base and that plus the jitter, both cut off at the cap, and false |
| Verdicts.OtherErrorIsRetried | worker.py:379-417 | an exception that is not an SMTP error ends the same way through the generic arm |
| Verdicts.SentIsCompleted | worker.py:211-216 | an email that is SENT already is completed, and the answer is true |
| Verdicts.MissingIsDropped | worker.py:204-209 | the copy of a missing email is completed, and the answer is false |
| Verdicts.UsedUpIsDeadLetter | worker.py:218-238 | with its retries used up an email that is not SENT becomes DLQ and a dead letter |
| Verdicts.TakenIsDropped | worker.py:243-250 | the copy of an email that is SENDING or DLQ is completed and its record left alone |
| Verdicts.ContendedIsDelayed | worker.py:193-200 | when another worker has the lock the copy waits between the contended delay and as much again, or a second, and record and lock are left alone |
| Verdicts.DatabaseErrorIsCounted | worker.py:339-378 | an OperationalError of the read counts one error more, leaves the record alone, and delays the copy by the backoff of that number, or makes it a dead letter from `max_retries` errors on |
| Verdicts.FailingDelayRaises | worker.py:309-338 | a delay that fails after an SMTP error raises RedisError, with the email FAILED and its copy where it was |
| Verdicts.FailingDelayIsSwallowed | worker.py:412-417 | a delay that fails in the generic arm is swallowed |
| ProcessEmails.WorkerProcess.WriteOutcome | worker.py:282-333 | SENT then complete, or DLQ then dead letter, with the arms of a failing write |
| ProcessEmails.WorkerProcess.OnSmtpError | worker.py:295-325 | FAILED with one retry more, then the delay of that retry count |
| ProcessEmails.WorkerProcess.OnOperationalError | worker.py:339-378 | the error counter decides between a delay and the dead letters; the record is not written |
| ProcessEmails.WorkerProcess.OnException | worker.py:379-417 | the FAILED write and the delay of the generic arm both swallow their failures |
| ProcessEmails.WorkerProcess.LeaveThrough | worker.py:418-436 | `finally` releases the lock if it was acquired and clears the error counter unless this call met an OperationalError |
| Disposition.SoloSettles | worker.py:185-417 | a call that has a copy in processing takes exactly one copy out and does exactly one of complete, delay and dead letter; it leaves the copy where it is exactly when it comes to a Redis call that fails before that, a failed move without effect, and then it raises or is at the move of the generic arm |
| Disposition.TailSettles | worker.py:418-436 | after the disposition nothing touches the copies any more |
| Outcomes.AnswerMeans | worker.py:185-417 | true is answered only for an email that is SENT; a completed copy belongs to an email that is SENT, missing, or in other hands, a dead letter to one that is DLQ or out of database errors, a delayed copy to one that is FAILED unless the database failed or the lock was held |
| Termination.CallFalls | worker.py:339-436 | a call without contention and Redis failures that ends with a delay makes the measure fall, also when a failed send clears the error counter |
| Termination.CallsAreBounded | worker.py:339-436 | from a clear error counter fewer than `max(1, M * (M + 1))` calls in a row can end with a delay |
| Termination.CallsAreFinal | worker.py:339-436 | so among the first `max(1, M * (M + 1))` calls there is one that completes the copy or makes it a dead letter |
| PlainMeasure.PlainFallsIff | worker.py:379-436 | such a call makes `(M - retry_count) * M + (M - db_errors)` fall if and only if the generic arm did not lose its FAILED write |
| Idempotency.Linearizable | app/services/email.py:264-355 | in every run of concurrent calls each call takes effect at the database call at which it ends, with the answer of the atomic get-or-create on the table of that moment, and leaves the table alone before |
| Idempotency.FailureIsAtomic | app/services/email.py:333-357 | a call that ends in a database exception has had no effect or its whole effect |
| Idempotency.OneRecordPerKey | app/models/email.py:62-72 | at most one record per caller and key at every moment |
| Idempotency.SameRecord | app/services/email.py:264-355 | all calls that succeed with one caller and one non-empty key return the same id, and all asked for the same email as the request the record was stored for |
| Idempotency.SuccessIsKept | app/services/email.py:268-285 | a successful call's record has its caller, its key and a matching payload, then and for the rest of the run |
| Idempotency.ReplayIff | app/services/email.py:264-355 | repeating a successful call gives the same record exactly when its key is not empty |
| Payload.MatchIsSameEmail | app/services/email.py:105-163 | a record stored from one request matches another exactly when they ask for the same email: addresses up to case and blanks, missing lists as empty ones, headers by the last spelling of each folded name, tags and attachments kept apart from missing ones |
| Payload.MatchIsEquivalence | app/services/email.py:105-163 | matching is reflexive, symmetric and transitive on requests |
| Payload.JsonTextMatchesAlike | app/services/email.py:74-200 | columns kept as JSON text match like decoded ones |
| Payload.CorruptIffUnreadable | app/services/email.py:74-163 | a row is corrupt for every request exactly when one of its columns cannot be read |
| Payload.NormalizedHeaderMap | app/services/email.py:66-72 | the normalised dict gives a folded name the value of its last spelling |
| Payload.NormalizedLists | app/services/email.py:61-103 | normalised lists are equal exactly when the lists agree address by address, and a missing list is an empty one |
| EmailServices.EmailService.CreateEmail | app/services/email.py:238-364 | refused for its sender exactly when no listed entry equals the envelope sender, stripped and lowercased; else, absent an answer at the lookup, for its headers exactly when a name is unlisted; a new row holds the request, column by column; the call makes the moves of the concurrent machine, with other sessions working between lookup and commit, answers like the atomic get-or-create, and a returned record carries the request |
| Idempotency.RefusedSenders | app/services/email.py:165-169 | the atomic operation refuses a sender exactly when no entry of the list equals `envelope_from`, or the From address if that is missing or empty, stripped and lowercased |
| Idempotency.RefusedHeaders | app/services/email.py:294-306 | it refuses headers exactly when some name equals no listed one, lowercased, and no record was found |
| Idempotency.FoundRecordDecides | app/services/email.py:268-285 | a record with the caller and non-empty key decides the answer: itself, a mismatch or a corruption |
| Idempotency.NewRowHolds | app/services/email.py:310-331 | a new row is PENDING, with no retries and the columns of its request, and is the only change |
| EmailServices.EmailService.TransitionToSending | app/services/email.py:385-411 | true exactly when the row was PENDING, QUEUED or FAILED, and then it is SENDING |
| EmailServices.EmailService.UpdateStatus | app/services/email.py:413-460 | new status, one more log entry, one more retry if asked for, computed from the session's copy, and every other column and row as it was; may raise before or after its commit |
| EmailServices.AuditTrail | app/services/email.py:385-460 | over any serialised run the old log is a prefix of the new one, its length is 1 plus the `update_status` calls, and recorded retry counts never fall and end at the record's |
| EmailServices.StaleUpdateKeepsLogIff | app/services/email.py:440-457 | an update computed from a copy of the row extends the row's log exactly when that copy has the current log |
| LockHistory.OwnershipIsExclusive | app/services/queue.py:524-564 | over any run of acquire, release and expiry the ownership intervals of a name are disjoint, and the key shows a token exactly while that token owns the name |
| LockHistory.ReleaseOnlyByOwner | app/services/queue.py:532-538 | a release removes the lock if and only if its token owns it at that moment |
| LockHistory.RedisLock.Acquire | app/services/queue.py:546-550 | sets the key exactly when it is free or expired |
| LockHistory.RedisLock.Release | app/services/queue.py:552-564 | deletes the key exactly when it shows the caller's token |
| Batches.DrainDelayed | worker.py:439-450 | calling the mover with any batch of at least 1 until it returns 0 leaves what one unbounded batch would leave |
| Batches.MoveInTwo | app/services/queue.py:102-119 | a batch followed by everything else is everything at once |
| Batches.ReadyLeaveInOrder | app/services/queue.py:102-119 | exactly the ids whose score lies between 0 and now leave the delayed set, and are dequeued in (score, id) order after everything queued before |
| Batches.ReapedLeaveInOrder | app/services/queue.py:78-100 | reaped ids were due and in processing, are dequeued in (score, id) order after everything queued before, and one big enough pass takes all of them |
| Batches.PassesDrain | app/services/queue.py:78-100 | as many passes as it takes to cover the expired entries drain them all, like one unbounded pass, even if passes over orphans return 0 |
| Batches.PollReaper | worker.py:453-467 | the loop makes those passes, whether or not it sleeps after a pass that moved nothing |
| Batches.PassTakesLowest | app/services/queue.py:85-90 | a pass removes the lowest expired entries of its batch and leaves all unexpired ones alone |
| Batches.PassReports | app/services/queue.py:90-99 | a pass returns the number of its expired ids that were still in processing |
| SortedSets.SortedIsSorted | app/services/queue.py:85-108 | a range by score lists every due member once, by score and then by member |
| SortedSets.ZRemRange | app/services/queue.py:85-113 | removing a batch leaves exactly the later due members in the same order |
| Lists.RightEndLeavesFirst | app/services/queue.py:231-237 | the right end of a list is the first to go |
| Lists.PushedLeavesLast | app/services/queue.py:183-183 | what is pushed leaves last |
| Lists.RemovesLeftmost | app/services/queue.py:43-43 | LREM with a count of 1 takes the leftmost occurrence and keeps the order of the rest |
| Queue.TakeCounts | app/services/queue.py:231-237 | BLMOVE moves one copy of the id at the right end |
| Queue.DropCounts | app/services/queue.py:310-310 | LREM takes one copy of that id, if there is one, and no other |
| Queue.ToDlqCounts | app/services/queue.py:37-49 | a dead letter is made only from a copy in processing, and keeps the number of copies |
| Queue.ToQueueCounts | app/services/queue.py:51-62 | a requeue keeps the number of copies |
| Queue.ToDelayedCounts | app/services/queue.py:64-76 | a delay keeps the number of copies, except that two collapse into one when the id is delayed already |
| Queue.ReapCounts | app/services/queue.py:78-100 | a reaper pass moves one copy of each expired id still in processing, and keeps all counts else |
| Queue.MoveReadyCounts | app/services/queue.py:102-119 | a mover pass moves ready ids only, and keeps every copy |
| QueueServices.QueueService.Enqueue | app/services/queue.py:171-188 | the id is dequeued after everything queued before, then marked; raises if either fails |
| QueueServices.QueueService.Dequeue | app/services/queue.py:223-268 | takes the next id in line to processing and then makes it visible to the reaper only after the timeout; the two can come apart |
| QueueServices.QueueService.Complete | app/services/queue.py:301-316 | one copy and the visibility entry go, then the marker, whose failure is swallowed |
| QueueServices.QueueService.MoveToDlq | app/services/queue.py:318-353 | the script as one step, with its reported count |
| QueueServices.QueueService.Requeue | app/services/queue.py:355-380 | a copy put back is dequeued after everything queued before, then marked if something moved |
| QueueServices.QueueService.RequeueDelayed | app/services/queue.py:382-416 | the copy becomes ready the given seconds from now, whatever it was delayed to before, and is then marked if something moved |
| QueueServices.QueueService.ReapProcessing | app/services/queue.py:270-299 | the ids of the expired batch that are still in processing are dequeued in batch order after everything queued before, and counted |
| QueueServices.QueueService.MoveReadyDelayed | app/services/queue.py:418-437 | the ready batch is dequeued in order after everything queued before, and counted |
| Backoff.CalculateBackoffDelay | worker.py:69-81 | the delay is the doubled base plus the draw, or the cap if there is one and it is smaller |
| Backoff.DelayBounds | worker.py:69-81 | over all draws it lies between the doubled base and that plus the jitter, both cut off at the cap |
| Backoff.TotalBounds | worker.py:69-81 | over n failures the total lies between B*(2^n - 1) and B*(2^n - 1) + n*J uncapped, and capped between the sum of the doubled bases, each cut off at the cap, and n*cap |
| Backoff.LeastIsUncapped | worker.py:69-81 | while the doubled bases stay below the cap, that sum is B*(2^n - 1) |
| Backoff.NeverShrinksIff | worker.py:69-81 | uncapped delays never shrink, for all draws, if and only if the base is at least the jitter |
| Backoff.NeverShrinks | worker.py:69-81 | with a base of at least the jitter they never shrink, capped or not |
| Sweepers.SelectedIsOldest | app/services/sweeper.py:103-116 | a pass selects the oldest PENDING and QUEUED rows past the cutoff, oldest first, each once, at most a batch, and all of them if they fit |
| Sweepers.SweeperService.SweepRecord | app/services/sweeper.py:123-189 | the loop body does to the stores what the pipeline's sweeper step does, and reports the counter it belongs to |
| Sweepers.SweeperService.SweepOnce | app/services/sweeper.py:91-202 | with the rest of the system at work between the SELECT and each record, a pass acts on the selected records one by one with the counters that the SELECT returned, returns the number requeued, and adds each record to exactly one counter, that of its verdict on the stores it found |
| Sweepers.TallyIsTotal | app/services/sweeper.py:122-192 | every selected record is in exactly one of requeued, skipped, errored and failed, whatever happens between the records |
| Sweepers.SweepAllSees | app/services/sweeper.py:122-192 | when nothing else runs, what a pass does to a record depends on that record alone |
| Sweepers.VerdictIff | app/services/sweeper.py:122-192 | each verdict exactly under its condition on the marker, the sweep counter and the failures |
| Sweepers.SweepsStayBounded | app/services/sweeper.py:138-189 | an action never takes the sweep counter past its maximum, and what each verdict means for the stores |
| Sweepers.SweepBudget | app/services/sweeper.py:138-189 | in every run the committed sweep counter stays within its maximum, whatever else runs |
| Sweepers.RunPasses | app/services/sweeper.py:208-241 | one success resets the backoff and sleeps the interval; a failure sleeps the jittered backoff before it is doubled |
| Sweepers.FailuresDouble | app/services/sweeper.py:220-241 | after k failures in a row the backoff is interval * 2^k, at most eight intervals and at most 300 seconds |
| Submissions.EmailApi.Submit | app/api/emails.py:88-116 | a record that is not PENDING any more is left alone in both stores; otherwise QUEUED, push and marker, and FAILED when enqueueing fails |
| Submissions.EmailApi.SendEmail | app/api/emails.py:51-179 | both stores and the response in every case: 403, 400 for a refused sender or header, 409 for a mismatch and 500 for the other errors of `create_email` leave the queue alone, a failing submission ends in 500, 202 comes with exactly one new copy, marked and QUEUED, 200 with none, and both with a record that carries the request |
| Submissions.DriveIsSubmit | app/api/emails.py:88-116 | the submission steps of the pipeline, run in a row, do what `Submit` does |

## Left out

- Guarantees.RetryBudget: one direction over runs; a run may also stay within the budget although a lock expired. The exact condition is given for one cycle of compare-and-set, failed send and FAILED write (`Budget.FailedSendIsCountedIff`).
- Guarantees.FencedSends: nothing is promised about an email left SENDING by a crash or an OperationalError; the next worker drops its copy (worker.py:245-250), as the code does.
- Guarantees.MarkedIffPresent: nothing is said while an enqueue is between LPUSH and SADD, or after a push whose marker update was lost; there the code itself allows a live email that is not marked.
- Sweepers.SweepBudget: one sweeper only, so the counter that the SELECT returned is still the row's.
- EmailServices.AuditTrail: list-valued logs only; text logs, double-encoded logs and the reset of corrupted ones (app/services/email.py:202-228) are not modelled.
- Batches.DrainDelayed: the clock stands still and Redis does not fail; the sleep of the loop is not modelled.
- Submissions.EmailApi.Submit: the PENDING check and the QUEUED write are one step, so two overlapping replays that both see PENDING are excluded.
- SMTP and MIME construction: only how the send ends (accepted, response code, other SMTP error, other exception).
- HTTP routing, health, status and statistics endpoints, request validation and response texts.
- Redis connections, script registration, reconnects, signals and task management; Redis calls raise `RedisError` only.
- SQLAlchemy sessions: a row is a value, the session's earlier copy is the `cached` argument of an outcome, and a block that cannot begin because the session already has a transaction is one of the failures the sweeper's oracle allows.
- A status write that the session skips because its own copy already has that status.
- Prometheus metrics and logging, except the sweeper's four counters.
- Settings parsing; settings are constants with their declared bounds.
- Wall clocks and randomness: a nondecreasing integer clock, draws as arguments, ids and lock tokens never drawn twice.
- The rolling-deploy fallback without `transition_to_sending` (worker.py:251-252), which drops the fence.
- Error texts, timestamps and the contents of dead letters other than their id.
- Failures of the sweeper's SELECT: they are failed passes of `RunPasses`.

Verify with `dafny verify dfyconfig.toml`.
