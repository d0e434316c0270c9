# A verified model of the s3nd upload scheduler

s3nd accepts upload requests over HTTP, admits them to a weighted pool of upload
slots, uploads each file with retries and growing timeouts, and keeps the kernel's
pacing rate of every connection at the configured bandwidth limit divided by the
slots in use. This project models that scheduler in Dafny and proves what it keeps
over all runs.

The centre is a transition system (`Scheduler.Run`). Its state is a clock, the
slot count, the waiter gauge, the connection ledger, the Prometheus counters and a
sequence of requests; an event is an arrival, one step of one request, one step of
a dial or a close, a change of a kernel counter, or a tick. `updatePacingRate`,
`SetPacingRate`, the tail of `DialContext` and `TrackedConn.Close` are cut at every
read and store that another goroutine can see. A run is any sequence of events that can happen in
turn, so a claim about all runs is a claim about every interleaving of any number
of requests.

The code that updates objects is also written as classes whose methods are proved
against the same specification functions: `UploadTask`, `ConnTracker`,
`Semaphore` (with other goroutines moving between its steps), the retry loop
`UploadFileMultipart`, and `Handler` with `UpdatePacingRate` and `DoServeHTTP`. The
two descriptions are tied together: a request that nothing disturbs is served by a
run of the transition system with the result, times and counters of `DoServeHTTP`
(`Undisturbed.ServeIsRun`).

| file | content |
|---|---|
| Sums, CeilingDivision, FileParts, Timeouts | arithmetic: sums, `DivCeil` on int64, part counts, attempt timeouts |
| Errors, Retry | error trees with Is and As, status codes, the retry loop |
| UploadTasks, Semaphores, ConnTrackers, Handlers | the classes |
| TcpInfos, Ledger, Totals, SocketHistories, LedgerRuns | the connection ledger as a transition system, what `TcpInfo` sums, and what events have done to each connection |
| Requests, Scheduler | the transition system of requests |
| Lifecycle, Invariants, Histories | what every step keeps, the invariant of every run, and what events have done to each request |
| Slots, Accounting, PaceBounds, PaceCarries, PaceExact, PaceRaces, Termination, Deadlines | the claims over whole runs |
| Undisturbed | the classes and the transition system describe the same code |

## Findings

- A configuration with `UploadTries < 1` reports success without uploading
  (`Retry.NilMeansUploaded`: nil means uploaded exactly when at least one try is
  configured).
- Two overlapping calls of `updatePacingRate` can store their targets in the wrong
  order and leave a pace that does not fit the slots in use, with nothing pending
  that would correct it. This can happen exactly when there are two or more slots
  and the limit is at least two bytes per second (`PaceRaces.NeverStaleExactly`).
  When the calls do not overlap the pace is exact (`PaceExact.PaceIsExact`), and
  in every run it stays between the share of a full house and the whole limit
  (`PaceBounds.RunFair`).
- A connection whose dial reads the pace before `SetPacingRate` changes it, and calls
  setsockopt after that, keeps the old pace, up to the whole limit. Nothing is pending
  that would correct it, and setting the same pace again returns early
  (conntracker/conntracker.go:62-65, 140-142). This too can happen exactly when there
  are two or more slots and the limit is at least two bytes per second
  (`PaceRaces.ConnsNeverStaleExactly`). When calls of `SetPacingRate` do not
  overlap and none stores a pace in the middle of a dial, every active connection
  carries the stored pace, however the count reads overlap
  (`PaceCarries.ConnectionsCarryPace`).
- The deferred `updatePacingRate` reads the slot count twice and divides by the
  second value, which can be zero. Some run panics there exactly when a
  bandwidth limit is set (`PaceRaces.DividesByZeroExactly`); the call made while slots
  are held never does (`PaceBounds.PanicsExactly`).
- A waiting callback that fails makes `Acquire` return an error although the slots
  may have been taken; nil means held exactly when every callback
  returns nil (`Semaphores.NilMeansHeldExactly`). The only callback of the handler, `logWait`,
  returns nil.
- A request whose URI has no path, where `parseRequest` slices an empty string and
  panics (upload/handler.go:622), and one that divides by zero are counted in no
  response: arrivals are the requests in flight plus the responses exactly when
  there is neither (`Accounting.NothingUnansweredExactly`).

## Where code and documentation differ

- README.md:189 says that an object counts as one against
  `S3ND_UPLOAD_MAX_PARALLEL`; the code takes one slot for each part
  (upload/handler.go:551). The model follows the code.
- README.md:221 says any factor other than one enables backoff; the code needs a
  factor of at least two (upload/handler.go:652).
- README.md:173-184 gives every TCP stream the whole limit, and an aggregate of the
  limit times the number of parallel uploads; the code divides the limit by the slots
  in use (upload/handler.go:737), so the aggregate stays near the limit itself
  (`PaceExact.PacesShareLimit`).
- The help text of the attempts histogram (upload/handler.go:148) says zero
  attempts means a timeout in the queue; a disconnect in the queue, a rejected
  request and a file that cannot be opened also report zero.
- The swagger comments (upload/handler.go:410-415) omit the codes 418 and 502,
  which the switch at 437-469 produces.

## Hypotheses

- `ValidConfig`: at least one slot, a positive part size, a non-negative bandwidth
  limit, and no ceiling division of the pacing code leaving 64 bits. `DivCeil`
  itself, part counts and the number of tries are modelled without such limits.
- Errors that come from the SDK, the operating system or a context contain none
  of the repository's own sentinels and no `BadRequestError`; errors of `os.Open`
  contain no API error.
- marusama/semaphore takes n slots atomically and only when they fit; `sync.Once`
  makes later callers wait for the first; the ledger's mutex makes each locked
  section one step. These libraries are not part of this model.
- Rounding to float64 keeps every integer up to 2^53, and math.Pow of two integers is
  exact when its result is such an integer (`Timeouts.KeepsIntegers`,
  `Timeouts.KeepsPowers`). Go's documentation does not promise the second.
- The clock is monotone. `PaceExact` additionally assumes that calls of
  `updatePacingRate` overlap neither each other nor a change of the slot count
  (`Serialized`), `PaceCarries` that calls of `SetPacingRate` do not overlap and store a
  pace only while no dial is between reading and setting it (`Undivided`), and `Deadlines.EndsInTime` that only waiting for slots and
  uploading take time and that both end by their timers (`Prompt`). What is said of
  reported counters asks that the one counter falls on no connection and that
  getsockopt succeeds (`GrowingRun`, `GrowingSince`). The other claims are about all runs.

## Model

| member | source | states |
|---|---|---|
| CeilingDivision.DivCeilExact | util/divceil.go:3-8 | on non-negative operands the wrapping 64-bit code rounds up correctly exactly when its intermediate sum fits |
| CeilingDivision.TruncDivLeaves | util/divceil.go:7 | the division truncates: the rest is smaller than the divisor and has the sign of the dividend |
| CeilingDivision.CeilLeast | util/divceil.go:7 | the quotient is the least multiplier of the divisor that reaches the dividend |
| CeilingDivision.CeilMonotone | util/divceil.go:7 | antitone in the divisor, monotone in the dividend |
| CeilingDivision.CeilCompose | conf/conf.go:49-51 | rounding bits to bytes and then to shares equals one rounding |
| CeilingDivision.CeilSandwich | upload/handler.go:737 | the rounded shares cover the whole and overshoot by less than one unit each |
| FileParts.UploadPartsCountsPieces | upload/handler.go:643-645 | the part count is the number of pieces of the recursive cut of the file |
| FileParts.UploadPartsLeast | upload/handler.go:644-645 | it is the least k of at least 1 whose k parts hold the file |
| FileParts.UploadPartsExactly | upload/handler.go:643-645 | the wrapping code counts the parts rightly exactly when its sum fits in 64 bits or one part holds the file; else it takes one part |
| FileParts.CutConcat | README.md:191-199 | the pieces concatenate back to the file |
| FileParts.CutPieces | README.md:191-199 | all pieces but the last are full, the last is empty only for an empty file |
| FileParts.CutLength | README.md:191-199 | the number of pieces is the ceiling, or one for an empty file |
| FileParts.ReadmeThreeParts | README.md:195-199 | 25 MiB in parts of 10 MiB is three parts |
| Timeouts.FloatTimeoutExact | upload/handler.go:651-660 | for any float rounding and power that are exact on integers up to 2^53 the float code equals the integer formula below 2^53 ns |
| Timeouts.TotalTimeoutFlat | README.md:205-217 | without backoff all attempts together take tries times the timeout |
| Timeouts.TotalTimeoutGeometric | README.md:219-230 | with backoff they form the geometric sum |
| Timeouts.ReadmeTimeouts | README.md:211-230 | the two documented examples |
| Errors.ForeignMatchesNothing | upload/handler.go:442-457 | an error from outside matches none of the repository's own targets at any depth |
| Errors.IsFindsNode | upload/handler.go:445-457 | Is finds a target exactly when it is a node of the tree |
| Errors.IsThroughLayers | upload/handler.go:704 | Is looks through every wrap and join, for sentinels and cancellation alike |
| Errors.AsApiFinds | upload/handler.go:461 | As yields the code of the first API error among the nodes in depth-first order, and nothing exactly when no node is one |
| Errors.WrapKeepsCode | upload/handler.go:711 | wrapping never changes the status code |
| Errors.JoinCode | upload/handler.go:437-469 | a sentinel joined with an outside error is answered with the sentinel's code |
| Errors.CodeOfNodes | upload/handler.go:437-469 | the code of any error is decided by its nodes, in the order of the switch |
| Errors.ForeignCode | upload/handler.go:461-468 | an outside error alone is answered with 502 if it carries an API error, else 500 |
| Retry.VerdictReturns | upload/handler.go:689-715 | the loop ends at the last try or at an attempt that is not retryable |
| Retry.VerdictCode | upload/handler.go:689-712 | the returned error is answered with the code of the attempt's kind, through every layer of Wrap and Join |
| Retry.KindMeans | upload/handler.go:689-707 | the kind of an attempt is decided by the first API error of its tree, then its timer, then a cancellation anywhere in the tree |
| Retry.ApiKind | upload/handler.go:693-698 | under any number of wraps an S3 error is a missing bucket exactly when its code is NoSuchBucket, and is retried otherwise |
| Retry.VerdictKeepsError | upload/handler.go:697-711 | the returned tree holds the attempt's own error, wrapped after the last try, joined with its sentinel on a missing bucket, a timeout or a disconnect |
| Retry.LoopStops | upload/handler.go:669-717 | the loop stops at attempt n exactly when all earlier ones were retryable and n is last or not retryable; its result is the verdict on n |
| Retry.LoopTerminates | upload/handler.go:671 | with as many outcomes as tries it stops within the tries |
| Retry.ResultMeans | upload/handler.go:662-718 | a failed open is returned with its error and without an attempt; otherwise the result is the verdict on the last attempt made |
| Retry.NilExactly | upload/handler.go:662-718 | nil is returned exactly when an attempt within the tries succeeds after retryable ones, or no try is configured |
| Retry.NilMeansUploaded | upload/handler.go:671-717 | nil means that one of the attempts made uploaded the file, for every behaviour of the store, exactly when at least one try is configured |
| Retry.UploadFileMultipart | upload/handler.go:662-718 | the loop with its counters computes the recursive specification; attempts stay within 1 and tries |
| UploadTasks.UploadTask.constructor | upload/handler.go:218-223 | a new record reports no times |
| UploadTasks.UploadTask.StartTransfer | upload/handler.go:226-228 | records the start of the transfer |
| UploadTasks.UploadTask.Stop | upload/handler.go:238-261 | a record stopped once reports, in nanoseconds, total = end - start, queued = begin - start and transfer = end - begin, or transfer = total when it did not queue |
| UploadTasks.UploadTask.StopNoUpload | upload/handler.go:231-236 | the same without a rate |
| UploadTasks.TimesMeasured | upload/handler.go:238-261 | the specification behind Stop in terms of the clock, and its rate: size over transfer time, with Go's values for a division by zero |
| UploadTasks.TimeAccounted | upload/handler.go:238-261 | with a monotone clock all durations are non-negative, and queue and transfer fill the total exactly when the request queued, started or took no time |
| UploadTasks.RateMovesSize | upload/handler.go:258 | rate times transfer time is the size; a zero transfer time reports no finite rate |
| TcpInfos.AddTcpInfo | conntracker/conntracker.go:225-243 | each of the twelve counters is the wrapped sum of that same counter |
| TcpInfos.CountersAreAll | conntracker/conntracker.go:228-240 | the twelve counters are distinct and make up the whole record |
| Ledger.MarkClosedKeeps | conntracker/conntracker.go:148-162 | closing moves one connection from the active to the closed part and keeps every sum |
| Ledger.NetRunKeeps | conntracker/conntracker.go:114-162 | in every ledger run, under any interleaving of dials, closes and pacing, the bookkeeping is a partition with correct sums |
| Ledger.LedgerPartition | conntracker/conntracker.go:114-118 | registered = active + closed, no active connection and no dial in progress has a closed descriptor, pacing leaves closed ones alone |
| Ledger.SetPacingRatePaces | conntracker/conntracker.go:59-79 | setting a new rate stores it and sets it on exactly the active connections whose setsockopt succeeds; the failed and the closed keep their pace |
| Ledger.DialPaces | conntracker/conntracker.go:140-142 | the last step of a dial sets the rate it read, the whole tail the stored one, exactly when setsockopt succeeds |
| Ledger.CloseCountsOnce | conntracker/conntracker.go:275-278 | only the first Close of a connection counts, and closing twice is closing once |
| Ledger.CallsAreRuns | conntracker/conntracker.go:59-145 | an undisturbed SetPacingRate or dial is the run of its own steps, and setting the stored pace again the run of none |
| Ledger.CloseIsRun | conntracker/conntracker.go:275-278 | an undisturbed Close is the run of its own steps, whether or not it is the first of its connection |
| Totals.SumOverTake | conntracker/conntracker.go:199-211 | the sum over the active connections does not depend on the iteration order |
| Totals.TotalSplits | conntracker/conntracker.go:213-214 | closed sum plus active sum counts every registered connection once |
| Totals.RunGrows | conntracker/conntracker.go:148-162 | for each counter by itself: if it falls on no connection and no getsockopt of markClosed fails, its true total never decreases in any ledger run, whatever the other counters do |
| Totals.ReportedNeverDecreases | conntracker/conntracker.go:191-223 | then that reported counter never decreases between two calls while its total fits its word |
| SocketHistories.PaceIsLastSet | conntracker/conntracker.go:59-145 | in every ledger run a connection carries the rate of the last successful setsockopt the events made on it, and counts as failed exactly when the last one failed |
| SocketHistories.RunReads | conntracker/conntracker.go:148-162 | in every ledger run a connection's counters are the kernel's last, and its final ones those markClosed read, or none when getsockopt failed |
| SocketHistories.ReportIsHistory | conntracker/conntracker.go:191-223 | so each reported counter adds up, modulo its word, one value of every connection ever dialed, read off the events |
| ConnTrackers.ConnTracker.constructor | conntracker/conntracker.go:34-45 | an empty, consistent ledger |
| ConnTrackers.ConnTracker.SetPacingRate | conntracker/conntracker.go:59-79 | the loop over any iteration order equals the ledger's operation, including the early return; the errors joined are those of the active connections that failed |
| ConnTrackers.ConnTracker.DialContext | conntracker/conntracker.go:121-145 | a failed dial changes nothing; otherwise it registers the connection, paces it if a pace is set, and returns an error beside it exactly when that fails |
| ConnTrackers.ConnTracker.MarkClosedLocked | conntracker/conntracker.go:148-162 | equals the ledger's closing step |
| ConnTrackers.ConnTracker.Close | conntracker/conntracker.go:275-278 | equals the ledger's whole Close and keeps the ledger consistent |
| ConnTrackers.ConnTracker.Connections | conntracker/conntracker.go:165-173 | active plus closed is the number registered, modulo 2^64 |
| ConnTrackers.PaceActive | conntracker/conntracker.go:69-76 | the loop paces exactly the active connections, whatever the order, and collects the errors of those that failed |
| ConnTrackers.SumActive | conntracker/conntracker.go:199-211 | sums the readable active connections, whatever the order, and collects the errors of the others |
| ConnTrackers.ConnTracker.TcpInfo | conntracker/conntracker.go:191-223 | each counter is, modulo its word, the final values of closed plus the current values of readable active connections; the errors are those of the unreadable ones |
| Semaphores.NilMeansHeldExactly | semaphore/semaphore.go:24-52 | nil means the slots are held, whatever others and the context do, exactly when every callback returns nil |
| Semaphores.Semaphore.TryAcquire | semaphore/semaphore.go:27-29 | takes n slots exactly when they fit |
| Semaphores.Semaphore.InnerAcquire | semaphore/semaphore.go:44 | runs only while its caller is counted as a waiter; it gives up only after it was woken as often as its context allows, with no room the last time |
| Semaphores.Semaphore.RunCallbacks | semaphore/semaphore.go:36-49 | runs only while its caller is counted as a waiter, and keeps the first failure |
| Semaphores.Semaphore.Release | upload/handler.go:565 | gives n held slots back |
| Semaphores.Semaphore.Acquire | semaphore/semaphore.go:24-52 | with other goroutines moving throughout: the gauge is raised while callbacks and the inner acquisition run and restored after, callbacks run exactly when the fast path failed; if they all return nil, so does Acquire exactly when n more slots are held, else with the context's error; if one fails, Acquire returns the first failure even when it took the slots |
| Requests.LimitBytes | conf/conf.go:49-51 | the limit in bytes is the rounded-up eighth of the limit in bits |
| Lifecycle.QueueErrorCode | upload/handler.go:551-562 | the three errors built after a failed Acquire are answered with 408, 418 and 500 |
| Lifecycle.OpenErrorCode | upload/handler.go:663-666 | a file that cannot be opened is answered with 500 |
| Lifecycle.ActKeepsGood | upload/handler.go:519-586 | every step of a request keeps its invariant: slots, flags, attempts and result agree with the phase |
| Lifecycle.ActConserves | upload/handler.go:519-586 | every step changes each shared counter by the change of the request's own contribution |
| Invariants.RunKeeps | upload/handler.go:418-586 | the invariant of the whole holds in every state of every run |
| Slots.SlotsConserved | upload/handler.go:551-585 | the slot count is the sum of the parts of the holders and never exceeds the limit |
| Slots.ReleasedOnce | upload/handler.go:551-585 | on every path slots are given back exactly once and Release never underflows |
| Slots.OversizeNeverHolds | upload/handler.go:551 | a request of more parts than slots never holds one and ends only in the queue |
| Slots.AdmittedAtOnce | semaphore/semaphore.go:27 | the fast path admits exactly the requests that fit |
| Slots.AdmittedWhenFits | semaphore/semaphore.go:44 | a waiter can be admitted exactly when it fits beside what others hold: no slot is lost |
| Slots.BlockedExactly | upload/handler.go:519-586 | the program can take no step of a request exactly when it is over, awaits an answer of the world, or is queued with no room and its timer not yet due |
| Slots.TakesAnyAnswer | upload/handler.go:588-717 | where it awaits the world every answer is taken: any parse, any outside error of the open, any attempt, one that timed out exactly from its deadline on |
| Accounting.RequestsConserved | upload/handler.go:476-528 | arrivals = in flight + panicked + responses; valid requests likewise without the responses of 400 |
| Accounting.NothingUnansweredExactly | upload/handler.go:476-528 | arrivals are in flight plus responses exactly when no request had an empty path or divided by zero; valid requests exactly when none divided by zero |
| Accounting.AttemptsConserved | upload/handler.go:671-675 | attempts are the sum over requests, attempts less retries counts those that entered the loop |
| Accounting.WaitersCounted | semaphore/semaphore.go:31-56 | the gauge is the number of requests in the slow path modulo 2^32, and zero when there is none |
| Accounting.CodeDetermined | upload/handler.go:437-469 | the code of every answered request is determined by how it ended and by the attempts it made |
| Histories.RunTells | upload/handler.go:519-711 | in every run each request is what its events say: its start, queue, transfer, attempt and end times are the clock of the events that set them, its size is the parsed one, its attempts ended as the uploader ended them, its ending and result are those of the event that ended it |
| Histories.TimersRunFromEvents | upload/handler.go:548-676 | in every run an attempt that timed out ends at least its own timeout after the event that began it, and the queue timer fires at least the queue timeout after the parse |
| PaceBounds.TargetIsPaceFor | upload/handler.go:734-738 | for every count up to the slots the wrapping division yields the fair share |
| PaceBounds.RunFair | upload/handler.go:722-744 | with all reads and stores interleaved, the stored pace and every connection's pace stay between the share of a full house and the limit |
| PaceBounds.PanicsExactly | upload/handler.go:734-737 | the second read panics exactly when all slots were released since the first; holders are safe |
| PaceCarries.RunCarries | conntracker/conntracker.go:59-145 | when calls of SetPacingRate do not overlap and none stores in the middle of a dial, all else interleaved, dials between store and loop included: every dial holds the current pace, every pace about to be applied is the stored one, and connections follow it |
| PaceCarries.ConnectionsCarryPace | conntracker/conntracker.go:59-145 | then every active connection whose last setsockopt succeeded carries exactly the stored pace, or none yet while being dialed, in every state with no SetPacingRate half done |
| PaceExact.RunExact | upload/handler.go:564-576 | with calls of updatePacingRate that do not overlap, every call acts on current values |
| PaceExact.PaceIsExact | upload/handler.go:722-744 | then, with nothing pending, the pace is the fair share of the slots in use, however dials interleave |
| PaceExact.PacesShareLimit | upload/handler.go:737 | then count times pace lies between the limit and the limit plus count minus one, and the pace is the limit in bits over eight times the count, rounded up once |
| PaceExact.PaceReturns | upload/handler.go:564-576 | then, with no request in flight, the pace is back to the full limit |
| PaceRaces.NeverStaleExactly | upload/handler.go:722-744 | without that discipline the pace is exact whenever nothing is pending, in all runs, exactly when there is one slot or a limit of at most one byte |
| PaceRaces.ConnsNeverStaleExactly | conntracker/conntracker.go:140-142 | without any discipline every dialed active connection carries the stored pace whenever nothing is pending, in all runs, under exactly the same condition |
| PaceRaces.DividesByZeroExactly | upload/handler.go:734-737 | some run divides by zero exactly when a limit is set |
| Termination.RunsAreFinite | upload/handler.go:519-586 | n requests take at most n * (20 + tries) steps in any run |
| Deadlines.TimesAccounted | upload/handler.go:536-583 | every answered request queued exactly when the fast path failed, its times add up, failures report no rate |
| Deadlines.NeverEarly | upload/handler.go:548-684 | in every run a 408 comes no earlier than the queue timeout, and a 504 only after all tries and at least the timeouts of the attempts that timed out |
| Deadlines.EndsInTime | upload/handler.go:548-684 | in a prompt run a request ends by start + queue timeout + the timeouts of the attempts it made, hence of all tries |
| Deadlines.BoundInClosedForm | README.md:217-230 | that bound as a product or a geometric sum |
| Handlers.Handler.constructor | upload/handler.go:366-400 | the pace is set to the full limit before the first connection |
| Handlers.Handler.UpdatePacingRate | upload/handler.go:722-744 | the undisturbed call leaves the ledger paced for the current slot count |
| Handlers.Handler.Upload | upload/handler.go:566-578 | the upload may start only once the transfer has begun and the pace fits the slots in use |
| Handlers.Handler.Deferred | upload/handler.go:564-565 | the slots go back before the pace is recomputed, so the pace is that of the slots left |
| Handlers.Handler.Transfer | upload/handler.go:564-585 | the ledger is paced for the slots in use when the upload starts and again for those left after it; result, counters and times are as specified and the slots are back |
| Handlers.Handler.DoServeHTTP | upload/handler.go:519-586 | on every path, the panic on an empty path included, the slots and the waiter gauge are restored; result, counters and times are as specified; the pace is set twice for an upload and left alone otherwise |
| Handlers.QueueFailureIs | upload/handler.go:553-560 | the three branches after a failed Acquire build the three queue errors |
| Undisturbed.RepaceReaches | upload/handler.go:722-744 | the steps of the transition system, undisturbed, amount to the whole call of updatePacingRate |
| Undisturbed.LoopReaches | upload/handler.go:671-717 | the steps of the attempts amount to the retry loop, in the time its timers ask |
| Undisturbed.ServeIsRun | upload/handler.go:418-586 | from every reachable state an undisturbed request is served by a run with the result, times, slots, counters and paces that DoServeHTTP specifies, and answered with its code |
| LedgerRuns.RunIsLedgerRun | conntracker/conntracker.go:59-162 | every run of the scheduler is, for the connections, the ledger run of exactly the events they see, so the ledger's theorems hold in it |
| LedgerRuns.ActiveAreOpen | conntracker/conntracker.go:114-162 | in every run, active connections are open and active plus closed is all registered |
| LedgerRuns.RunPaceIsLastSet | conntracker/conntracker.go:59-145 | in every run of the scheduler each connection carries the rate of the last successful setsockopt made on it |
| LedgerRuns.RunReportIsHistory | conntracker/conntracker.go:191-223 | in every run of the scheduler the report counts every connection ever dialed once, with values read off the events |
| LedgerRuns.RunReportNeverDecreases | conntracker/conntracker.go:191-223 | in every run of the scheduler a counter that only grows on each connection never decreases between two reports while its total fits its word |

## Left out

- Handlers.Handler.UpdatePacingRate: nothing else moves during the call; the interleaved call is part of the transition system.
- ConnTrackers.ConnTracker.SetPacingRate: nothing else moves during the call; the interleaved call is part of the transition system.
- ConnTrackers.ConnTracker.DialContext: nothing else moves during the call; the interleaved dial is part of the ledger's transition system.
- Undisturbed.ServeIsRun: the request moves alone; what interleaving adds is the subject of the claims over all runs.
- Retry.UploadFileMultipart: what the uploader answers to each attempt is given as a sequence; the SDK uploader, the S3 client and the HTTP transport are not part of this model.
- ConnTrackers.ConnTracker.Close: not called while another goroutine is inside the Once; that case is part of the ledger's transition system.
- ConnTrackers.ConnTracker.TcpInfo: the mean round-trip time is not modelled, because with no readable connection it is the mean of an empty list.
- Deadlines.EndsInTime: holds for runs in which local steps take no time; scheduling delays are not bounded by the code.
- Sockets are records of a pace and twelve counters, not objects; aliasing between a connection and its wrapper is not modelled.
- Parsing of URLs, forms, flags and environment variables: a request is accepted with a size, rejected, or panics.
- Float formatting and the human-readable strings; times and rates are real numbers.
- Logging, histograms, byte counters and the counters of S3 responses and API errors.
- The client, collector, version and cmd packages and the generated API documentation.
