# PulsePay's asynchronous back end, verified

PulsePay creates, confirms and refunds payments. Its HTTP requests mostly write rows and enqueue jobs;
a durable job table, an in-memory dispatch queue, one consumer and a poller do the rest. No single
function is responsible for the promises made to clients and operators: that no work is lost or done
twice, that retries end, that refunds never exceed a payment. This project models the whole of it as
one transition system, proves those promises for every run, and proves that an imperative
implementation with the services' own classes only ever takes steps of that system. Beside it stands
the in-process rate limiter.

`dafny verify dfyconfig.toml` checks everything.

## How it is organised

* `common.dfy`, `payments.dfy`, `jobs.dfy`, `refunds.dfy`, `webhooks.dfy`: rows, their state machines
  and the rules of each table on its own.
* `system.dfy`: the state (tables, clock, job system), and `Next`, one step of it: a request, a tick of
  the clock, a poll, a put on the dispatch queue, a restart, an operator's retry, or one uninterrupted
  stretch of a handler, with every answer of the processor or the network and every place where a
  handler can be cut short. `Exec` is a run of such steps.
* `invariants.dfy`, `preservation.dfy`, `handler_steps.dfy`, `growth.dfy`, `frames.dfy`, `runs.dfy`: what
  every reachable state satisfies, what no step takes back or touches, and why.
* `effects.dfy`, `delivery_effects.dfy`: what each operation does, seen from outside: the processor's
  draws, the clock and the settings are read off the tables after it, in every reachable state.
* `payment_theorems.dfy`, `refund_theorems.dfy`, `webhook_theorems.dfy`, `work_theorems.dfy`,
  `backoff_theorems.dfy`, `undisturbed.dfy`, `leftovers.dfy`, `post_bounds.dfy`, `termination.dfy`,
  `rest.dfy`, `fairness.dfy`: the promises.
* `ceiling.dfy`, `operator_theorems.dfy`, `scenarios.dfy`: where a promise has a condition, the condition
  exactly, and concrete runs in which it fails.
* `store.dfy`, `payment_service.dfy`, `refund_service.dfy`, `webhook_service.dfy`, `platform.dfy`: the
  classes that update tables, session rows and queues in place. Each method is proved to take exactly
  the step that `system.dfy` specifies; `Platform.PulsePay` keeps the run it is in as ghost state, so
  every theorem about runs holds of the object.
* `rate_limit.dfy`: the token bucket, on its own.

Things worth knowing before reading the proofs:

* `_process` never compares a job's start time with the clock when it starts the handler, and ids may
  be on the dispatch queue twice or after their job is done. `QueueInv` says why
  that is harmless: every id in memory names a job whose time has come, or carries the very time that
  its coroutine will compare with the clock.
* `Carries` is the relation behind "no lost and no forked work": a job that is queued, running or dead
  and whose handler has not yet handed its work on carries a payment, refund or event. Every step keeps
  it injective, and total on open work.
* An aborted refund run may leave delivery jobs whose events were rolled back. So a termination measure
  that starts with open refunds and then counts attempts does not work: such a run creates jobs without
  closing anything. The measure here charges fan-outs to the attempts of the refund job instead.
* `confirm_payment` commits a soft failure before it looks at the retry ceiling, and fails the payment by
  a second commit. A caller that dies between the two leaves a payment that has used up its attempts and
  still processes. If a retry job carries it, that job makes up for the missed commit without a call. But
  a confirm over HTTP, or the payment's first job when it is run again (with MAX = 1), calls the processor
  once more; `Ceiling.MoreThanMaxIff` says that these are the only ways to exceed MAX calls.
* The amount of a refund request is compared unrounded, and stored in a column with two decimals.
  Rounding to whole cents is monotone, and the limit is in whole cents, so the stored sum still fits.

## Assumptions

* A service call on a payment or refund is one serialised step: the code takes no row lock.
* A payment or refund is committed before the worker picks up its job, although the job is enqueued
  first, by a session of its own (pulsepay/payments/service.py:96-97, pulsepay/refunds/service.py:80-82).
* Commits, and the refreshes after them, succeed, except where a step has an explicit fault: before a
  payment handler's work, between the two commits of an attempt that reaches the ceiling (over HTTP,
  too), after the commit, instead of scheduling the next attempt, anywhere in a refund's fan-out or
  after its commit, before a POST or between a POST and its commit.
* The settings are in the ranges that pulsepay/core/config.py:19-22 demands: at least one payment
  attempt, at least one request per minute. Every job is enqueued with three attempts, as all callers do.
* An operator retries dead jobs only; the code does not check it. `OperatorTheorems.RetryIsSafeIff` says
  for which jobs a retry keeps the invariant, and for which it does not.
* Stopping or restarting the process does not cut a handler in flight: a row left running is never
  polled again.
* The database starts empty, ids are never repeated, and the clock does not go back.

## Model

| member | source | states |
|---|---|---|
| Runs.NextKeeps | pulsepay/jobs/worker.py:88-142 | every request, poll, put, restart, operator retry and handler step, however it is cut short, keeps the whole invariant: rows, keys, money, carriers, timing |
| Runs.Reached | pulsepay/jobs/worker.py:50-142 | so it holds after every run from an empty database |
| Growth.NextGrows | pulsepay/payments/service.py:100-160 | no step takes back a row, a key, a processor call, a POST, a piece of history or a terminal status |
| WorkTheorems.NoLostOrForkedWork | pulsepay/jobs/handlers.py:67-155 | between worker steps every open payment, refund and event has exactly one job that is queued, running or dead, and nothing ever has two |
| WorkTheorems.NeverTwoCarriers | pulsepay/jobs/handlers.py:50-190 | even inside a handler at most one job has not handed the work on, with HTTP confirms interleaved at will |
| OperatorTheorems.RetryIsSafeIff | pulsepay/jobs/queue.py:85-99 | in every run, beside a handler or not, resetting a job keeps the whole invariant if and only if it is not running, is not completed while its target is carried or is an existing event, and comes before neither its event's retry time nor the backoff after its payment's latest call by another job; a dead job always qualifies |
| OperatorTheorems.EarlyRetryIsUnsafe | pulsepay/jobs/queue.py:91-98 | a concrete run whose waiting retry job, reset, may call the processor too early |
| WorkTheorems.StartsAreAccounted | pulsepay/jobs/worker.py:94-132 | handler starts since insertion or reset are the counted failures plus the run under way or done, at most max_attempts; dead exactly when the attempts are used up; no committed row is failed; an error text exactly after a failure not followed by success |
| WorkTheorems.CompletedIsFinal | pulsepay/jobs/worker.py:94-108 | a completed job's row and its number of starts never change again, so at most one run of it succeeds |
| WorkTheorems.NoEarlyStart | pulsepay/jobs/worker.py:76-98 | a handler only starts for a job that is queued and whose run_at has come, although the start never looks at run_at |
| DeliveryEffects.TakeMeans | pulsepay/jobs/worker.py:88-98 | in every run an idle worker takes the first id: it starts the handler if the job is queued, and drops the id if the job is completed or dead, which are the only cases |
| DeliveryEffects.FinishMeans | pulsepay/jobs/worker.py:105-132 | in every run, a handler that returned completes its job; one that raised has its job queued for now with a put to come after the first and second failure, and dead after the third, with the error noted |
| DeliveryEffects.RetryMeans | pulsepay/jobs/queue.py:85-99 | a dead job that is retried is queued for now, with no attempts and no error, and its put is to come |
| DeliveryEffects.PollMeans | pulsepay/jobs/worker.py:75-86 | a poll makes one put pending for every queued job whose run_at has come, and for no other |
| WorkTheorems.PollRestoresDispatch | pulsepay/jobs/worker.py:75-95 | losing memory between jobs touches no table, and one poll afterwards puts every due job on the dispatch queue again |
| WorkTheorems.DrainedDispatches | pulsepay/jobs/worker.py:85-86 | when all suspended puts go through, every due id among them is on the dispatch queue, and nothing is lost from it |
| Jobs.InsertKeepsQueue | pulsepay/jobs/queue.py:37-52 | inserted rows with their conditional puts keep every id in memory ripe or carrying its own start time |
| Jobs.ResumeKeepsQueue | pulsepay/jobs/queue.py:51-52 | a put that happens any time after its insert or poll keeps the rule |
| Jobs.PollKeepsQueue | pulsepay/jobs/worker.py:75-86 | so does a poll, however stale its snapshot gets |
| Jobs.TakeKeepsQueue | pulsepay/jobs/worker.py:88-98 | so does taking an id, whether stale, duplicate or live |
| Jobs.FinishKeepsQueue | pulsepay/jobs/worker.py:105-132 | so do success, requeue and dead-lettering, with starts and attempts still in balance |
| Jobs.ResetKeepsQueueIff | pulsepay/jobs/queue.py:85-99 | an operator's reset keeps accounting and timing if and only if the job is not the one that is running |
| Payments.SettledFollows | pulsepay/payments/service.py:100-160 | one processor call takes the row from the verdict on the calls so far to the verdict on one call more, or to the ceiling with its second commit missed |
| Payments.ExhaustedFollows | pulsepay/jobs/handlers.py:106-119 | the retry job that finds a payment at the ceiling turns it into the verdict that was missed |
| Payments.RowShape | pulsepay/payments/state_machine.py:11-35 | a row that follows its calls has a valid history ending in its status, a confirmation time exactly on success, and the class, reason and count its status demands |
| Effects.ConfirmMeans | pulsepay/payments/service.py:100-142 | in every run, whoever confirms an open payment, over HTTP or as its job, and however that is cut: one more call is on record, made now; the payment is Success exactly for a draw below 0.85 (confirmed now), declined exactly from 0.95 on; in between the call is soft and the payment goes on processing below the ceiling and is failed with max_retries_exceeded at it, unless the second commit was missed; metadata is stored if given; nothing else changes |
| Effects.ConfirmReplies | pulsepay/payments/service.py:100-142 | the answer of a confirm, read off the tables: not found, already processed (then nothing changes), soft with the number of the attempt below the ceiling, cut at the ceiling, or confirmed with a payment at its end |
| Effects.AnswerLeads | pulsepay/jobs/handlers.py:50-75 | after its call a payment job goes on to schedule a retry exactly if the draw was soft and the payment below the ceiling; otherwise it returns, or raises if it was cut |
| Effects.CeilingMeans | pulsepay/jobs/handlers.py:102-119 | a retry job that finds its payment at the ceiling fails it with max_retries_exceeded, now, without a call |
| Effects.SettledMeans | pulsepay/payments/service.py:100-104 | a job that finds its payment at its end changes nothing, and raises unless it is a retry job that finds it failed with its attempts used up |
| Effects.CutMeans | pulsepay/jobs/handlers.py:50-75 | a payment job that is cut before its call, or between a soft failure and its retry, only raises |
| Effects.SoftMeans | pulsepay/jobs/handlers.py:21-75 | in every run, a job that remembers the soft failure of call n made that call itself, and leaves exactly one more job, a queued retry of its payment, for 2^n seconds from now and up to a second more |
| PaymentTheorems.RowFollowsAnswers | pulsepay/payments/service.py:100-160 | in every run status, count, class, reason and history are a function of the processor's answers and the ceiling alone exactly while the payment is not overdue; only the last answer can be decisive; an overdue payment's last call, and call MAX of a payment with more calls, missed its second commit |
| PaymentTheorems.RowIsVerdict | pulsepay/payments/service.py:124-135 | if no second commit was missed, the row is the verdict on its answers and there are at most MAX calls |
| PaymentTheorems.RowIsWellFormed | pulsepay/payments/service.py:102-157 | history is a path of length one to three; processing means soft; failed means hard; the count is the number of calls; max_retries_exceeded exactly after soft answers up to the ceiling, once the payment is not overdue |
| Ceiling.NextCounted | pulsepay/payments/service.py:100-112 | every step makes at most one processor call for a payment, and exactly if the payment is open and the step is a confirm for it over HTTP, its first job's attempt, or its retry job's attempt below the ceiling |
| Ceiling.MoreThanMaxIff | pulsepay/payments/service.py:124-130 | in every run the processor is called more than MAX times for a payment if and only if, at some moment at which it is overdue, somebody confirms it over HTTP or its first job makes its attempt |
| Ceiling.MissedCommitCallsAgain | pulsepay/payments/service.py:127-130 | a concrete run with MAX = 1 and two calls, and a row in between that is no verdict |
| Ceiling.FirstJobCallsAgain | pulsepay/jobs/handlers.py:50-67 | and a concrete run with MAX = 1 in which the first job alone makes both calls |
| PaymentTheorems.RowOnlyGrows | pulsepay/payments/state_machine.py:16-35 | over the rest of any run history is only extended and a terminal payment never changes |
| PaymentTheorems.OnePaymentPerKey | pulsepay/payments/models.py:23-27 | no run ever yields two payments for one key |
| PaymentTheorems.CreateLeaves | pulsepay/payments/service.py:67-98 | a creation leaves a pending payment as asked for, exactly that row with status 201 as the recorded response for 24 hours, and one more job for it that is due at once |
| PaymentTheorems.RepeatedCreate | pulsepay/payments/service.py:56-98 | after a creation every later request with its key changes nothing: before 24 hours are over it gets the first row and status 201 even if the payment has moved on, and from then on it is refused |
| PaymentTheorems.CreatesIff | pulsepay/payments/service.py:57-84 | a key without a live record creates a payment exactly if it was never used and the stored amount is below 10^12 cents |
| PaymentTheorems.ExpiredKeyIsRefused | pulsepay/payments/service.py:64-83 | a concrete run in which a key used more than 24 hours ago is refused, against the design document |
| PaymentServices.PaymentStateMachine.Transition | pulsepay/payments/state_machine.py:16-35 | moves status and history together exactly if the move is allowed, and touches nothing otherwise |
| PaymentServices.PaymentService.CreatePayment | pulsepay/payments/service.py:51-98 | in place: replay, conflict, rejection by the unique key with everything rolled back, or payment, record and job together |
| PaymentServices.PaymentService.ConfirmPayment | pulsepay/payments/service.py:100-142 | in place: the row, its history and the answer the caller gets, for every status, answer and retry count, and a cut between its two commits |
| PaymentServices.PaymentService.MarkPaymentFailedMaxRetries | pulsepay/payments/service.py:144-160 | in place: fails an open payment along valid moves, including one at the ceiling, leaves a failed one, refuses a successful or unknown one |
| PaymentServices.PaymentHandlers.ProcessPayment | pulsepay/jobs/handlers.py:50-96 | the handler up to the processor's answer takes exactly the specified step, with a fault before, between the commits of, or after the attempt |
| PaymentServices.PaymentHandlers.RetryPayment | pulsepay/jobs/handlers.py:99-147 | likewise, with the check of the ceiling first, and an unknown payment raising |
| PaymentServices.PaymentHandlers.AfterSoftFailure | pulsepay/jobs/handlers.py:67-165 | after a soft failure: one delayed retry job, or the end at the ceiling, or nothing when cut |
| BackoffTheorems.CallsAreSpaced | pulsepay/jobs/handlers.py:67-75 | in every run, whatever confirms and aborts interleave, a job calls the processor no earlier than 2^n seconds after the latest call another job made, which was call n |
| BackoffTheorems.CallsBackOff | pulsepay/jobs/handlers.py:149-155 | in every run, if consecutive calls were made by different jobs, call k + 1 comes at least 2^k seconds after call k |
| BackoffTheorems.ChainTakesTime | pulsepay/jobs/handlers.py:99-155 | and then m calls span at least 2^m - 2 seconds |
| Undisturbances.RunIsPeaceful | pulsepay/jobs/handlers.py:50-165 | in every run without HTTP confirms and without faults in payment handlers, a job that has called is completed or about to return, so consecutive calls come from different jobs |
| Undisturbances.BackoffHolds | pulsepay/jobs/handlers.py:67-75 | so in every such run call k + 1 of every payment comes at least 2^k seconds after call k, with restarts, operator retries and faults in other handlers |
| Undisturbances.ChainIsSlow | pulsepay/jobs/handlers.py:99-155 | and its m calls span at least 2^m - 2 seconds |
| Scenarios.HttpDoesNotWait | pulsepay/payments/service.py:100-112 | the condition is needed: a concrete run in which two confirms over HTTP call at the same moment |
| Scenarios.RerunDoesNotWait | pulsepay/jobs/worker.py:109-129 | and one in which a handler that died after a soft failure is run again and calls at the same moment |
| BackoffTheorems.ScheduleBounds | pulsepay/jobs/handlers.py:21-26 | a schedule of m attempts takes between 2^m - 2 and 2^m + m - 3 seconds, for every m |
| BackoffTheorems.DelaysIncrease | pulsepay/jobs/handlers.py:21-26 | every scheduled delay is longer than the one before, whatever the jitter |
| Refunds.StoredWithinLimit | pulsepay/refunds/models.py:36 | rounding to two decimals never lifts a request over a limit in whole cents |
| Refunds.StoredIsNearest | pulsepay/refunds/models.py:36 | the stored amount is the nearest whole number of cents, halves away from zero |
| RefundTheorems.RefundsAreCovered | pulsepay/refunds/service.py:49-62 | in every run the remainder of every payment is non-negative, refunds exist only for successful payments, and no committed refund is processing |
| RefundTheorems.PaidIsHeld | pulsepay/refunds/service.py:136-143 | paid-out refunds are part of the held-back ones, and these are at most the payment's amount |
| RefundTheorems.PaidOnlyGrows | pulsepay/refunds/service.py:150-162 | the completed total never goes down |
| RefundTheorems.MoneyIsConserved | pulsepay/refunds/service.py:54-122 | over any stretch of a run the remainder changes by exactly what new refunds took and what failed ones gave back |
| RefundTheorems.InitiatesIff | pulsepay/refunds/service.py:41-80 | in every run a request with a fresh key creates a refund if and only if the payment exists and is successful, something is left of it, no more than that is asked for, and the stored amount is below 10^12 cents; the first of these that fails decides the refusal, and a refusal changes nothing |
| RefundTheorems.InitiateTakes | pulsepay/refunds/service.py:54-77 | an accepted request takes exactly its stored amount, at most the remainder, and all of it if it names none, and leaves one more job for it that is due at once |
| RefundTheorems.RepeatedRefund | pulsepay/refunds/service.py:41-43 | after a refund was initiated, every later request with its key finds it and changes nothing |
| RefundTheorems.FullyRefundedRefuses | pulsepay/refunds/service.py:54-65 | once nothing is left, fresh keys are turned away for as long as no refund of the payment fails |
| RefundTheorems.CompletionAnnounces | pulsepay/refunds/service.py:97-115 | whatever step makes a refund completed is a commit of its own handler on a pending refund, and creates in the same step one event per endpoint then active, and no other |
| RefundTheorems.CompletedExactlyOnce | pulsepay/refunds/service.py:86-125 | in every run a completed refund was completed by one step, with no event about it before, exactly one per listening endpoint with it, and none added or changed after |
| RefundTheorems.RerunsAreSafe | pulsepay/refunds/service.py:86-95 | a rerun finds its refund pending or terminal and never raises an invalid transition |
| Effects.RefundMeans | pulsepay/refunds/service.py:94-125 | in every run, a refund job not cut before its commit completes a pending refund exactly for a draw below 0.95, with one queued event and one due delivery job per active endpoint of the customer and nothing else new; from 0.95 on the refund has failed and no other table changes |
| Effects.DecidedStays | pulsepay/refunds/service.py:91-92 | a rerun that finds the refund decided only returns |
| Leftovers.AbortLeavesStrays | pulsepay/webhooks/dispatcher.py:42-54 | a refund handler cut after k enqueued deliveries leaves exactly k new delivery jobs, whose events do not exist, and changes no other table |
| Leftovers.StaysUnborn | pulsepay/webhooks/dispatcher.py:43-50 | an event id that was rolled back names no event at any later time of any run |
| Leftovers.LeftoversDoNothing | pulsepay/webhooks/dispatcher.py:57-60 | in every run, at any later time, each step of a handler of such a job, and the worker's bookkeeping after it, changes that job's own row and no table, no other row |
| RefundServices.RefundService.Transition | pulsepay/refunds/service.py:150-162 | moves the status exactly if allowed |
| RefundServices.RefundService.SumNonFailed | pulsepay/refunds/service.py:136-143 | computes the sum of the payment's refunds that have not failed |
| RefundServices.RefundService.InitiateRefund | pulsepay/refunds/service.py:34-84 | in place: the known key, each refusal, or the refund with its job |
| RefundServices.RefundService.ProcessRefund | pulsepay/refunds/service.py:86-125 | in place: the working copy's two moves and the commit, or the rollback that leaves only delivery jobs behind |
| WebhookServices.WebhookDispatcher.ActiveEndpoints | pulsepay/webhooks/dispatcher.py:34-39 | lists exactly the customer's active endpoints, each once |
| WebhookServices.WebhookDispatcher.FanOut | pulsepay/webhooks/dispatcher.py:41-52 | after any number of iterations the session holds that many events and the job table that many delivery jobs |
| WebhookServices.WebhookDispatcher.Dispatch | pulsepay/webhooks/dispatcher.py:33-55 | events and completed refund are committed together, or neither is |
| WebhookServices.WebhookDispatcher.Deliver | pulsepay/webhooks/dispatcher.py:57-142 | in place: skip, give up, deliver, dead-letter or reschedule, and every place it can be cut |
| Webhooks.PostKeepsEvent | pulsepay/webhooks/dispatcher.py:92-132 | a POST, recorded or lost, keeps the row equal to what its recorded POSTs make of it |
| WebhookTheorems.AtMostFivePosts | pulsepay/webhooks/dispatcher.py:92-119 | at most five recorded POSTs, counted exactly by the row, only the last one of a delivered event succeeded, and five end it; the rest of the POSTs on the wire are the lost ones |
| WebhookTheorems.CountIsExactIff | pulsepay/webhooks/dispatcher.py:87-98 | the row counts every POST on the wire if and only if no handler died between a POST and its commit |
| Scenarios.LostPostIsUncounted | pulsepay/webhooks/dispatcher.py:87-98 | a concrete run that ends with a successful POST on the wire and no attempt in the row |
| PostBounds.PostsAreStarts | pulsepay/jobs/worker.py:94-105 | in every run, with every fault and operator retry, an event is POSTed at most once per handler start of its delivery jobs |
| PostBounds.AtMostFifteenPosts | pulsepay/webhooks/dispatcher.py:108-132 | without operator retries at most fifteen times, recorded or not, however many handlers die |
| WebhookTheorems.RowExplainsItself | pulsepay/webhooks/dispatcher.py:62-132 | next_retry_at is set exactly while failed, 2^attempts to one second more after the time at which the last recorded POST was sent, which is last_attempt_at until the event is dead; dead below five attempts means the endpoint is inactive or gone; the refund is completed |
| WebhookTheorems.PostsBackOff | pulsepay/webhooks/dispatcher.py:92-132 | in every run recorded POST k + 1 of an event is sent at least 2^k seconds after recorded POST k |
| WebhookTheorems.EveryPostWaits | pulsepay/webhooks/dispatcher.py:68-132 | and no POST, recorded or not, is sent before the backoff after the last recorded one is over |
| DeliveryEffects.DeliveryMeans | pulsepay/webhooks/dispatcher.py:68-132 | in every run, a delivery to an active endpoint POSTs exactly once, now; the event is delivered if and only if the answer is good, dead if it is the fifth bad one, and otherwise failed, with exactly one more job, queued for the time in the row, 2^attempts to one second more from the POST |
| DeliveryEffects.LostDeliveryMeans | pulsepay/webhooks/dispatcher.py:87-98 | a handler that dies after the POST leaves row and jobs as they were, and the POST unrecorded |
| DeliveryEffects.InactiveMeans | pulsepay/webhooks/dispatcher.py:62-68 | an event whose endpoint is gone or inactive is not POSTed, and is dead |
| DeliveryEffects.ActiveIff | pulsepay/webhooks/service.py:64-84 | in every run a registered endpoint keeps its client, and is active if and only if it has not been deactivated since |
| DeliveryEffects.DeactivatedIsSilent | pulsepay/webhooks/dispatcher.py:33-68 | however a run goes on after an endpoint became inactive, no event is created for it, and none of its events is POSTed again |
| WebhookTheorems.RetryWaits | pulsepay/webhooks/dispatcher.py:121-132 | a failed event has exactly one outstanding job, and its run_at is not before next_retry_at |
| WebhookTheorems.DeliversInTime | pulsepay/webhooks/dispatcher.py:57-68 | a delivery handler that starts finds its event open and its retry time past |
| Termination.StepPays | pulsepay/jobs/worker.py:88-142 | every background step keeps the measure from rising, and every handler start lowers it |
| Termination.BoundedWork | pulsepay/jobs/worker.py:88-142 | without new requests, endpoints and operator retries at most Measure further handlers start, whatever they answer and however they abort |
| Termination.WorkSettles | pulsepay/jobs/worker.py:50-60 | in any endless run without requests for work and operator retries, however many endpoints register meanwhile, there is a moment after which no handler starts |
| Termination.AtRestOnlyDeadWork | pulsepay/jobs/worker.py:124-132 | at rest no job is queued or running, and every open piece of work has exactly one job, which is dead |
| Rest.RestIsReachable | pulsepay/jobs/worker.py:50-98 | no reachable state is stuck: the clock, the poller, the consumer and handlers that run to their ends, without fault, restart or request, lead from it to rest |
| Fairness.FairRunsRest | pulsepay/jobs/worker.py:50-98 | in every endless run without requests for work and operator retries in which time goes on, polls recur, puts go through in order, ids are taken, handlers end and restarts cease, from some moment on every job is completed or dead and all open work has one dead job |
| Fairness.FairRunsExist | pulsepay/jobs/worker.py:50-98 | every reachable state has such a run ahead of it |
| Store.StormQueue.Enqueue | pulsepay/jobs/queue.py:30-49 | the durable row, and a put that is still to come |
| Store.StormQueue.Resume | pulsepay/jobs/queue.py:51-52 | the put, only if the job is due by then |
| Store.StormQueue.RetryDeadJob | pulsepay/jobs/queue.py:85-99 | resets whatever row it is given, and says whether there was one |
| Store.JobWorker.DueJobs | pulsepay/jobs/worker.py:75-83 | lists exactly the due queued jobs, each once |
| Store.JobWorker.EnqueueDueJobs | pulsepay/jobs/worker.py:75-86 | and gives each of them one more put |
| Store.JobWorker.TakeNext | pulsepay/jobs/worker.py:88-98 | drops an id that is missing, completed or dead, and marks any other running, without looking at run_at |
| Store.JobWorker.Finish | pulsepay/jobs/worker.py:105-132 | completed, queued again from now, or dead; the failed status is never committed |
| Platform.PulsePay.Log | pulsepay/jobs/worker.py:50-60 | a step of the services is one more step of the run that the object is in |
| Platform.PulsePay.Sound | pulsepay/jobs/worker.py:50-142 | whatever has been called, the object's tables and memory satisfy the invariant |
| Platform.PulsePay.RunHandler | pulsepay/jobs/handlers.py:193-210 | the handler registered for the job's type runs, and takes exactly that type's step |
| RateLimit.LazyRefillIsWindowRule | pulsepay/ratelimit/store.py:41-47 | the lazily refilled number admits a call exactly when every window that ends with it stays within capacity plus rate times length |
| RateLimit.WindowBound | pulsepay/ratelimit/store.py:22-47 | grants in any stretch of calls are at most capacity plus what the stretch's length earns |
| RateLimit.MinuteBound | pulsepay/ratelimit/store.py:22-27 | with the configured limits, any sixty seconds carry at most the burst plus the per-minute limit |
| RateLimit.MinuteRefills | pulsepay/ratelimit/store.py:22-27 | a minute refills as many tokens as the per-minute setting says, and the capacity is the burst setting |
| RateLimit.GrantedAfterPause | pulsepay/ratelimit/store.py:41-47 | a call of at most burst tokens is granted once 60 * tokens / per-minute seconds have passed since the last grant on its key |
| RateLimit.RefusalsAreHarmless | pulsepay/ratelimit/store.py:41-51 | any number of refused calls leaves the level where one direct refill would have put it |
| RateLimit.RetryAfterIsExact | pulsepay/ratelimit/store.py:49-51 | with no grant in between, a call is granted exactly from the announced wait on, and never above capacity |
| RateLimit.WaitInSettings | pulsepay/ratelimit/store.py:49-51 | the announced wait is (tokens - level) * 60 / per-minute seconds |
| RateLimit.TokenBucket.Draw | pulsepay/ratelimit/store.py:41-51 | the two numbers updated in place decide by the window rule over the whole history |
| RateLimit.RateLimitStore.Consume | pulsepay/ratelimit/store.py:29-51 | each key is served by the window rule over its own calls, with the exact wait, and other keys are untouched |

Where code and design document disagree, the model follows the code. The document lets a payment be
created again with a key that is older than 24 hours; the code deletes the record, violates the unique
key of the payments table and rolls back (`PaymentTheorems.CreatesIff`). The document contradicts
itself about confirms: the service is to be called by the worker only, and there is to be an HTTP
endpoint for it. The code has both, which is why `Confirm` may come from either.

## Left out

- Routers, schemas and middleware: validation appears as the guards amount > 0 of the two requests.
- Currency, refund reasons and the copy of the customer on a refund: carried along, never decided on.
- Error texts, failure reasons and history reasons are the constructors of `Reason` and `Cause`.
- Signing, JSON and HTTP: a POST is a boolean answer after some time; timeouts and refused connections are the answer no.
- Random draws, jitter, UUIDs and clock readings are arguments or fresh numbers; the clock stands still within one step, but for the wait for a POST.
- The order in which the database lists endpoints, due jobs and refunds: any.
- Ledger entries and payment webhooks: the payment and refund services only log them (pulsepay/payments/service.py:214-231).
- Job types without a handler and malformed payloads: no caller produces them.
- Cancellation of a handler in flight when the worker stops, and an exception between a delivery's enqueue and its commit: see the assumptions.
- Listing and pagination of payments, refunds, events and dead jobs: easy reads.
- pulsepay/seed.py: its rows are processing without a job, which no run produces.
- Binary floating point and the decimals of the Retry-After header: the rate limiter is modelled over the reals.
- BackoffTheorems.CallsBackOff: no upper bound on the time between calls, because nothing bounds how long the worker is busy; the bound on the schedule is `BackoffTheorems.ScheduleBounds`.
