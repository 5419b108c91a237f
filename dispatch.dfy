/**
 * The broadcast dispatch engine, `sendMessageToUsers`, as state-transforming
 * functions. A `RunState` holds the run's locals (messages_sent, errors,
 * last_user_id, keepSending) and the Redis map. It also logs what the run did
 * to the outside world, in order: the messages handed to the transport, the
 * page requests made to the recipient API, the pauses between batches, and
 * the progress reports.
 *
 * The class `Dispatcher` mirrors these functions step for step, and the
 * lemmas in `DispatchPage` and `DispatchRun` state what they guarantee.
 */
module Dispatch {
  import opened Wrappers
  import opened Js
  import opened Store
  import opened Batching

  /** Page size requested from the recipient API. */
  const PageSize: nat := 500

  type UserId = int

  datatype User = User(userId: UserId)

  datatype Button = Button(text: string, url: string)

  /** What goes to one recipient: an image with a caption, or plain text, with one inline button row. */
  datatype Payload =
    | TextMessage(text: string, keyboard: seq<seq<Button>>)
    | PhotoMessage(photo: string, caption: string, keyboard: seq<seq<Button>>)

  /** One delivery attempt and the transport's answer. */
  datatype Send = Send(chatId: UserId, payload: Payload, delivered: bool)

  /** One call `getUsers(lastId, limit)`. */
  datatype Fetch = Fetch(lastId: UserId, limit: nat)

  /** The counters a progress report shows. */
  datatype Snapshot = Snapshot(messagesSent: int, errors: int)

  /** The data of one queued job, after intake has resolved the defaults. */
  datatype JobData = JobData(
    messageText: string,
    imageUrl: Option<string>,
    buttons: seq<Button>,
    estimatedUserCount: Option<int>,
    reportChatId: Option<string>,
    webhookUrl: Option<string>,
    reportIntervalMinutes: int,
    delay: int,
    testUsers: seq<User>)

  /**
   * What the run cannot see inside:
   * - getUsers(k, lastId, limit): the page returned by the k-th call to the
   *   recipient API. The API answers [] on any failure.
   * - delivers(k, user): whether the k-th delivery attempt of the run succeeds.
   * - cancelDuring(n): whether an outside cancel request for this job lands
   *   while batch n of the run (counted from 0) is in flight.
   */
  datatype Env = Env(
    getUsers: (nat, UserId, nat) -> seq<User>,
    delivers: (nat, User) -> bool,
    cancelDuring: nat -> bool)

  datatype Context = Context(jobId: string, job: JobData, env: Env)

  datatype RunState = RunState(
    redis: Data,
    messagesSent: int,
    errors: int,
    lastUserId: UserId,
    keepSending: bool,
    sends: seq<Send>,
    fetches: seq<Fetch>,
    pauses: seq<int>,
    reports: seq<Snapshot>)

  /** How one pass of the `while (keepSending)` body ends. */
  datatype Next = Continue | Break | Return

  /** How the run ends: cancelled (early return), finished (loop left), or still running once the fuel is spent. */
  datatype Exit = Cancelled | Finished | StillRunning

  function PayloadOf(job: JobData): Payload {
    if TruthyText(job.imageUrl) then PhotoMessage(job.imageUrl.value, job.messageText, [job.buttons])
    else TextMessage(job.messageText, [job.buttons])
  }

  /** `delay ? delay * 1000 : 1000` milliseconds. */
  function PauseMs(delay: int): int {
    if delay != 0 then delay * 1000 else 1000
  }

  predicate HasReportSink(job: JobData) {
    TruthyText(job.reportChatId) || TruthyText(job.webhookUrl)
  }

  /** `sendOrUpdateReport()`: a snapshot reaches the configured sinks; with none configured it has no effect. */
  function WithReport(r: RunState, ctx: Context): RunState {
    if HasReportSink(ctx.job) then r.(reports := r.reports + [Snapshot(r.messagesSent, r.errors)]) else r
  }

  /** Loading the durable counters and cursor, then the first report. */
  function Load(data: Data, ctx: Context): RunState {
    var r := RunState(data,
      GetOrZero(data, Key(ctx.jobId, MessagesSentField)),
      GetOrZero(data, Key(ctx.jobId, ErrorsField)),
      GetOrZero(data, Key(ctx.jobId, LastUserIdField)),
      true, [], [], [], []);
    WithReport(r, ctx)
  }

  /** One delivery attempt. Success bumps and persists messages_sent; failure bumps and persists errors. */
  function AfterAttempt(r: RunState, ctx: Context, u: User): RunState {
    var ok := ctx.env.delivers(|r.sends|, u);
    var sends := r.sends + [Send(u.userId, PayloadOf(ctx.job), ok)];
    if ok then
      r.(messagesSent := r.messagesSent + 1,
         redis := r.redis[Key(ctx.jobId, MessagesSentField) := r.messagesSent + 1],
         sends := sends)
    else
      r.(errors := r.errors + 1,
         redis := r.redis[Key(ctx.jobId, ErrorsField) := r.errors + 1],
         sends := sends)
  }

  /** The attempts of one batch, one user after another. */
  function AfterAttempts(r: RunState, ctx: Context, users: seq<User>): RunState
    decreases |users|
  {
    if users == [] then r else AfterAttempts(AfterAttempt(r, ctx, users[0]), ctx, users[1..])
  }

  /**
   * One batch: its attempts, then the persisted cursor (the batch's last
   * userId), then the pause. A cancel request from outside may land meanwhile.
   */
  function AfterBatch(r: RunState, ctx: Context, batch: seq<User>): RunState
    requires batch != []
  {
    var r1 := AfterAttempts(r, ctx, batch);
    var last := batch[|batch| - 1].userId;
    var r2 := r1.(lastUserId := last,
                  redis := r1.redis[Key(ctx.jobId, LastUserIdField) := last],
                  pauses := r1.pauses + [PauseMs(ctx.job.delay)]);
    if ctx.env.cancelDuring(|r1.pauses|) then r2.(redis := r2.redis[Key(ctx.jobId, CancelledField) := 1])
    else r2
  }

  function AfterBatches(r: RunState, ctx: Context, bs: seq<seq<User>>): RunState
    requires forall k :: 0 <= k < |bs| ==> bs[k] != []
    decreases |bs|
  {
    if bs == [] then r else AfterBatches(AfterBatch(r, ctx, bs[0]), ctx, bs[1..])
  }

  /** The `for (i = 0; i < users.length; i += 30)` loop over one page. */
  function AfterPage(r: RunState, ctx: Context, users: seq<User>): RunState {
    AfterBatches(r, ctx, Batches(users))
  }

  /** One pass of the `while (keepSending)` body. The cancel flag is read here and nowhere else. */
  function AfterIteration(r: RunState, ctx: Context): (RunState, Next) {
    if IsSet(r.redis, Key(ctx.jobId, CancelledField)) then (r, Return)
    else if |ctx.job.testUsers| > 0 then
      (AfterPage(r.(keepSending := false), ctx, ctx.job.testUsers), Continue)
    else
      var users := ctx.env.getUsers(|r.fetches|, r.lastUserId, PageSize);
      var r1 := r.(fetches := r.fetches + [Fetch(r.lastUserId, PageSize)]);
      if |users| == 0 then
        (r1.(keepSending := false, redis := r1.redis[Key(ctx.jobId, CompletedField) := 1]), Break)
      else
        (AfterPage(r1, ctx, users), Continue)
  }

  /** The `while (keepSending)` loop, for at most `fuel` passes. */
  function AfterLoop(r: RunState, ctx: Context, fuel: nat): (RunState, Exit)
    decreases fuel
  {
    if !r.keepSending then (r, Finished)
    else if fuel == 0 then (r, StillRunning)
    else
      var (r1, next) := AfterIteration(r, ctx);
      match next
      case Return => (r1, Cancelled)
      case Break => (r1, Finished)
      case Continue => AfterLoop(r1, ctx, fuel - 1)
  }

  /** After the loop: the final report, which a cancelled run skips. */
  function Finish(result: (RunState, Exit), ctx: Context): (RunState, Exit) {
    if result.1 == Finished then (WithReport(result.0, ctx), Finished) else result
  }

  /** A whole call of sendMessageToUsers, starting from the store `data`. */
  function Broadcast(data: Data, ctx: Context, fuel: nat): (RunState, Exit) {
    Finish(AfterLoop(Load(data, ctx), ctx, fuel), ctx)
  }
}
