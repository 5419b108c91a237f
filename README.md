# broadcast-bot-api: a verified model of the broadcast dispatcher

A Dafny model of the part of the broadcast bot API with real logic: the
`sendMessageToUsers` dispatch loop and the two handlers around it.

- The dispatch loop loads a job's durable counters and resume cursor from Redis, then repeats three steps:
  - check the job's cancel flag;
  - fetch a page of up to 500 users after the cursor, or take the fixed test list;
  - send to the page in batches of 30, with one delivery attempt per user, each bumping `messages_sent` or `errors`.
- After every batch it persists the cursor and pauses.
- It stops on an empty page (marking the job `completed`), after one pass in test mode, or when the flag is seen.
- `/start-broadcast` validates a request, resolves its defaults and queues one job. A scheduled job gets a delay.
- `/cancel-broadcast` sets a job's cancel flag. The sentinel `all` also empties the waiting queue.

The layers:

- `Store` — the Redis store, as a map from key text to number (every value the service writes is a number). Keys are `<jobId>:<field>`. A missing key reads as 0, which is how `get(...) || 0` behaves. Class `Redis` has `Get` and `Set`.
- `Batching` — `users.slice(i, i + 30)` for `i = 0, 30, ...`, as a function with its partition lemmas.
- `Dispatch` — the reference definition of one run, as step functions over a `RunState`:
  - the locals `messages_sent`, `errors`, `last_user_id` and `keepSending`;
  - the store;
  - logs of what went out: sends, page requests, pauses and progress reports.

  Everything outside comes from an `Env`:
  - the recipient API (`getUsers`, which returns `[]` on any failure);
  - the transport's answer to each attempt;
  - during which batch an outside cancel request lands.
- `DispatchPage` and `DispatchRun` — what a batch, a page and a whole run do (the properties below).
- `Dispatcher` — class `Dispatcher` follows the source's control flow: fields for the locals, `while` loops over batches and pages, writes to the shared `Redis`. Every method is proved to produce exactly the state the `Dispatch` functions define.
- `Intake` — the decision rules of `/start-broadcast`.
- `Service` — class `BroadcastService`: the queue worker and the two handlers, against the shared store and a queue of waiting and delayed jobs.

Behaviour of the code that the model keeps as written:

- The cancel flag is read once per loop iteration, before each page (index.js:91-97). It is not read before each batch, so a page that has started always finishes. `DispatchRun.CancelMidPage` states this.
- A cancelled run returns without a final report (index.js:93-96).
- In test mode the loop ends after one pass (index.js:100-103, 149-150). It does not set `completed`, and it still writes `last_user_id` after every batch.
- Cancelling `all` (index.js:243-247) writes the key `all:cancelled`, which no job reads because queue job ids are numbers. It removes only the waiting jobs. A job that is running, and a scheduled job (one with a positive delay, held in the queue's delayed list), are not cancelled by it.

## Model

| member | source | states |
|---|---|---|
| Store.CancelKeyIsNoCounterKey | index.js:243 | the cancel key of any job is never a messages_sent, errors, last_user_id or completed key of any job |
| Batching.Batches | index.js:123-124 | a page of n users gives ceil(n/30) batches, each of 1 to 30 users, all but the last exactly 30 |
| Batching.BatchesPartition | index.js:123-124 | the batches concatenated in order are the page: no gap, no overlap, no reordering |
| Batching.BatchAt | index.js:123-124 | batch k is exactly `users.slice(30k, 30k + 30)` |
| DispatchPage.AttemptEffect | index.js:135-147 | one attempt sends once to the user; a delivered attempt adds 1 to messages_sent, a failed one adds 1 to errors; only that counter's key is written, with the counter's new value, and the other counter and every other key stay as they were |
| DispatchPage.BatchEffect | index.js:124-151 | a batch attempts each of its users once, in order; the counters grow by the delivered and failed attempts; the cursor, local and stored, becomes the batch's last userId; one pause; only the progress keys change; the cancel flag is set afterwards exactly when it was set or a cancel landed during the batch |
| DispatchPage.PageEffect | index.js:123-152 | a page attempts every user exactly once in page order, grows messages_sent + errors by the page length, leaves the cursor at the page's last userId, and pauses once per batch |
| DispatchRun.CounterAccounting | index.js:32-147 | over a run, messages_sent and errors start from the stored values, or 0 when absent; they end at start + delivered and start + failed; both stay persisted and neither ever drops |
| DispatchRun.Reporting | index.js:85-158 | one report at the start when a report chat or webhook is set; one more at the end only when the loop was left normally and such a sink is set |
| DispatchRun.NormalRun | index.js:99-121 | without test users, each page request uses limit 500 and the cursor the previous pages left; the users attempted are exactly those fetched, in order; the run finishes iff a page comes back empty, and then completed is 1 and no cancel flag was seen; otherwise completed is untouched |
| DispatchRun.TestModeRun | index.js:100-103 | with test users and no flag set, the recipient API is never asked; each test user is attempted exactly once in order; the run finishes after that single pass whatever the fuel; the cursor is still written; completed is untouched |
| DispatchRun.CancelledBeforeStart | index.js:91-97 | a flag already set: the run returns cancelled with no page request, no send, no store write and no final report |
| DispatchRun.PageIgnoresCancel | index.js:123-152 | when cancel requests land makes no difference to a page's sends, counters, cursor and pauses |
| DispatchRun.CancelMidPage | index.js:91-152 | a cancel landing during a page still lets the whole page be attempted, with all its pauses, and then ends the run as cancelled before any further page request |
| DispatchRun.RunFrame | index.js:91-158 | a whole run writes only its own job's messages_sent, errors, last_user_id and completed keys (and the job's cancel flag may be set from outside); every other key of the store is as it was |
| DispatchRun.ResumeContinues | index.js:32-34 | a later run of the same job continues from the counters and cursor this run left; the attempt total adds up over both runs; the first page request of the later run uses this run's cursor |
| Dispatcher.Dispatcher.constructor | index.js:32-86 | the counters and cursor are loaded from the store (0 when absent), and the first report goes out |
| Dispatcher.Dispatcher.SendOrUpdateReport | index.js:39-83 | a snapshot of the counters is reported when a chat or webhook sink is set |
| Dispatcher.Dispatcher.Attempt | index.js:125-147 | the state after one attempt is the reference `AfterAttempt` |
| Dispatcher.Dispatcher.SendBatch | index.js:124-151 | the state after the loop over a batch, the cursor write and the pause is the reference `AfterBatch` |
| Dispatcher.Dispatcher.ProcessPage | index.js:123-152 | the state after the `i += 30` loop is the reference `AfterPage` |
| Dispatcher.Dispatcher.Iterate | index.js:91-152 | one loop iteration (flag check, page or test list, batches) is the reference `AfterIteration`, with its way out of the loop |
| Dispatcher.Dispatcher.Execute | index.js:91-158 | the `while (keepSending)` loop and the final report produce the reference run |
| Intake.RejectionStatus | index.js:180-210 | the answer is 403 exactly when a request has a text but the wrong key, and 400 exactly when the text is missing or, past both checks, the scheduled time is before now |
| Intake.ResolveDefaults | index.js:190-199 | a request giving only a text gets interval 1, buttons [], delay 1, and image, report chat and webhook null; the user count estimate and the test users are carried over |
| Intake.ResolveKeepsGiven | index.js:190-199 | a request giving every field with a truthy value keeps each of them unchanged in the job data |
| Intake.ResolvedNeverFalsy | index.js:196-199 | in the job data the image, report chat and webhook are null or a non-empty text, and the delay is never 0 |
| Intake.Decide | index.js:180-212 | rejected for a missing text iff the text is falsy; for a bad key iff the text is present and the key differs; for a past time iff both pass and a scheduled time is before now; otherwise accepted with the resolved data and the delay scheduled - now |
| Intake.AcceptedIff | index.js:180-210 | a request is accepted exactly when it has a text, the right key, and no scheduled time before now |
| Intake.MissingTextBeforeKey | index.js:180-187 | a missing text gives 400 whatever key is sent |
| Intake.ScheduledDelayNonNegative | index.js:203-212 | an accepted scheduled job's delay is at least minus the clock advance between the check and the subtraction; this holds also when the clock steps back between the readings, and the delay is non-negative when both readings are the same instant |
| Intake.AcceptedPause | index.js:199 | an accepted job's delay is truthy, so the pause between batches is delay * 1000 ms |
| Service.CancelFlagsOnlyItsJob | index.js:243 | setting one job's flag changes no other job's flag and no job's counters, cursor or completion mark |
| Service.JobKeysDistinct | index.js:169 | a key of one queued job is never a key of another queued job, whatever the two fields |
| Service.RunLeavesOtherJobs | index.js:169 | a run of one queued job leaves every key of every other queued job exactly as it was |
| Service.AllFlagStopsNoJob | index.js:243-247 | the flag written for `all` is not the flag of any queued job |
| Service.EnqueuePlaced | index.js:212-225 | queuing a job keeps every queued job and the order of both lists, adds exactly the new job, and keeps delayed jobs (positive delay) apart from waiting ones |
| Service.BroadcastService.SendMessageToUsers | index.js:169 | the store after a run is the reference run's store, and the exit is the reference exit |
| Service.BroadcastService.ProcessNext | index.js:167-171 | the oldest waiting job is removed from the queue and dispatched under its id; an empty queue changes nothing |
| Service.BroadcastService.StartBroadcast | index.js:174-227 | the early returns give the status of `Decide`'s rejection and queue nothing; an accepted request queues exactly one job with the next id, the resolved data and the delay, and answers with its id and scheduled time; waiting and delayed jobs stay apart |
| Service.BroadcastService.CancelBroadcast | index.js:235-251 | a falsy id gives 400 and changes nothing; otherwise that id's cancel key is set to 1, even for `all`; `all` also empties the waiting list; delayed jobs stay |

## Left out

- Telegram `sendMessage`, `sendPhoto` and `editMessageText`, and the webhook POST. A delivery attempt is an oracle answer (success or failure). A report is a snapshot of the two counters.
- Report contents: elapsed time, progress percent, the ETA (which divides by messages_sent with no zero guard, index.js:42), `toFixed` and the humanized durations. These are floating point numbers and library formatting.
- The `setInterval` periodic report and its `clearInterval`. This is concurrency. Only the first and the final report are modelled.
- `Promise.all` within a batch. JavaScript runs the callbacks one at a time and each increment completes synchronously, so a batch is modelled as a sequential loop over its users.
- The recipient API and the user count query (`utils/getUsers.js`, `utils/getUserCount.js`) are not part of this model. They are oracle inputs: a page of users (`[]` on failure) and an optional count.
- The time-zone conversion of the scheduled time and the clock. The converted instant and the two clock readings (at the past check and at the subtraction) are integer milliseconds given to the model. A `scheduledTime` text that cannot be parsed is not modelled: the source lets it past the check at index.js:208 and queues the job with a delay that is not a number (index.js:212).
- The queue's own behaviour: promoting delayed jobs once their time comes, retries, and concurrency between workers. Job ids are the queue's counter 1, 2, 3, ... in decimal.
- Failures of Redis or of the queue, and the HTTP 500 answers of the handlers. A failing store write after a successful send would also count one error, and this model does not capture that. The catch that ends a run on an error is not modelled either.
- Express routing, JSON parsing, the response messages' text and `app.listen`. Each response is its status and decision only. A numeric `jobId` in a cancel request is taken as its decimal text, except the number 0, which is falsy and so is taken as a missing id.
- The branch at index.js:115-120 cannot run, because the branch just above it already handles an empty page. It is omitted.
- Dispatcher.Dispatcher.Execute: the loop runs for at most `fuel` passes. The run of the source may never end (the recipient API can keep returning pages), so runs are stated per fuel bound. Exit `StillRunning` is a run stopped (or crashed) between pages.
- Intake.Resolve: the numeric request fields (report interval, delay) are whole numbers. The model does not capture fractional or text JSON values, nor the `parseInt` truncation of the interval (index.js:190), which can turn a truthy `0.5` or `"0"` into 0.
- DispatchRun.NormalRun: an outside cancel request is placed in the batch it lands in. One that lands during a report, during the request for an empty page or after the last batch has no slot of its own: it counts as landing in the next batch, or as already in the store at the start. So the promise that a finished run leaves no cancel flag holds for the store at the last flag check, not for a flag set after it.
