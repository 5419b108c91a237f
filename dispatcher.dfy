/**
 * One call of `sendMessageToUsers`, written as the source writes it: the
 * locals messages_sent, errors, last_user_id and keepSending become fields
 * that the methods update in place, and every write goes to the shared Redis
 * store. Each method is proved to do exactly what the matching function of
 * `Dispatch` describes. What those functions guarantee is proved in
 * `DispatchPage` and `DispatchRun`.
 */
module Dispatcher {
  import opened Wrappers
  import opened Store
  import opened Batching
  import opened Dispatch

  class Dispatcher {
    const redis: Redis
    const ctx: Context
    var messagesSent: int
    var errors: int
    var lastUserId: UserId
    var keepSending: bool
    /** Messages handed to the transport, with its answers. */
    var sends: seq<Send>
    /** Calls made to the recipient API. */
    var fetches: seq<Fetch>
    /** Pauses taken after batches, in milliseconds. */
    var pauses: seq<int>
    /** Progress reports emitted. */
    var reports: seq<Snapshot>

    ghost function State(): RunState
      reads this, redis
    {
      RunState(redis.data, messagesSent, errors, lastUserId, keepSending, sends, fetches, pauses, reports)
    }

    /** Loads the durable counters and cursor (0 when absent), then emits the first report. */
    constructor (redis: Redis, ctx: Context)
      ensures this.redis == redis && this.ctx == ctx
      ensures State() == Load(redis.data, ctx)
    {
      this.redis := redis;
      this.ctx := ctx;
      var sent := redis.Get(Key(ctx.jobId, MessagesSentField));
      var errs := redis.Get(Key(ctx.jobId, ErrorsField));
      var last := redis.Get(Key(ctx.jobId, LastUserIdField));
      messagesSent := if sent.Some? then sent.value else 0;
      errors := if errs.Some? then errs.value else 0;
      lastUserId := if last.Some? then last.value else 0;
      keepSending := true;
      sends, fetches, pauses, reports := [], [], [], [];
      new;
      SendOrUpdateReport();
    }

    /** A snapshot of the counters goes to the webhook and/or the report chat, when either is set. */
    method SendOrUpdateReport()
      modifies this
      ensures State() == WithReport(old(State()), ctx)
    {
      if HasReportSink(ctx.job) {
        reports := reports + [Snapshot(messagesSent, errors)];
      }
    }

    /** One delivery attempt; the counter it moves is persisted at once. */
    method Attempt(u: User)
      modifies this, redis
      ensures State() == AfterAttempt(old(State()), ctx, u)
    {
      var ok := ctx.env.delivers(|sends|, u);
      sends := sends + [Send(u.userId, PayloadOf(ctx.job), ok)];
      if ok {
        messagesSent := messagesSent + 1;
        redis.Set(Key(ctx.jobId, MessagesSentField), messagesSent);
      } else {
        errors := errors + 1;
        redis.Set(Key(ctx.jobId, ErrorsField), errors);
      }
    }

    /**
     * One batch. The source issues its attempts concurrently and waits for
     * all of them; here they run one after another. It then persists the
     * batch's last userId as the cursor and pauses. The store's cancel flag
     * may be set during the batch by the cancel handler, which runs outside
     * this method; the write at the end of the method stands for that.
     */
    method SendBatch(batch: seq<User>)
      requires batch != []
      modifies this, redis
      ensures State() == AfterBatch(old(State()), ctx, batch)
    {
      var k := 0;
      while k < |batch|
        invariant 0 <= k <= |batch|
        invariant AfterAttempts(State(), ctx, batch[k..]) == AfterAttempts(old(State()), ctx, batch)
      {
        assert batch[k..][1..] == batch[k + 1..];
        Attempt(batch[k]);
        k := k + 1;
      }
      lastUserId := batch[|batch| - 1].userId;
      redis.Set(Key(ctx.jobId, LastUserIdField), lastUserId);
      pauses := pauses + [PauseMs(ctx.job.delay)];
      // Not a write of the dispatcher: this is the outside `/cancel-broadcast`
      // handler's write, when its request lands while this batch is in flight.
      if ctx.env.cancelDuring(|pauses| - 1) {
        redis.Set(Key(ctx.jobId, CancelledField), 1);
      }
    }

    /** `for (let i = 0; i < users.length; i += 30)` over `users.slice(i, i + 30)`. */
    method ProcessPage(users: seq<User>)
      modifies this, redis
      ensures State() == AfterPage(old(State()), ctx, users)
    {
      var i := 0;
      while i < |users|
        invariant 0 <= i
        invariant i <= |users| ==>
          AfterBatches(State(), ctx, Batches(users[i..])) == AfterPage(old(State()), ctx, users)
        invariant i > |users| ==> State() == AfterPage(old(State()), ctx, users)
        decreases |users| - i
      {
        var batch := users[i..Min(i + BatchSize, |users|)];
        BatchesFrom(users, i);
        SendBatch(batch);
        i := i + BatchSize;
        if i >= |users| {
          assert users[Min(i, |users|)..] == [];
        }
      }
    }

    /** One pass of the `while (keepSending)` body. */
    method Iterate() returns (next: Next)
      modifies this, redis
      ensures (State(), next) == AfterIteration(old(State()), ctx)
    {
      var isCancelled := redis.Get(Key(ctx.jobId, CancelledField));
      if isCancelled.Some? {
        return Return;
      }
      var users: seq<User>;
      if |ctx.job.testUsers| > 0 {
        users := ctx.job.testUsers;
        keepSending := false;
      } else {
        users := ctx.env.getUsers(|fetches|, lastUserId, PageSize);
        fetches := fetches + [Fetch(lastUserId, PageSize)];
        if |users| == 0 {
          keepSending := false;
          redis.Set(Key(ctx.jobId, CompletedField), 1);
          return Break;
        }
      }
      ProcessPage(users);
      next := Continue;
    }

    /**
     * The `while (keepSending)` loop for at most `fuel` passes, then the final
     * report unless the run was cancelled.
     */
    method Execute(fuel: nat) returns (exit: Exit)
      modifies this, redis
      ensures (State(), exit) == Finish(AfterLoop(old(State()), ctx, fuel), ctx)
    {
      var n: nat := fuel;
      while keepSending && n > 0
        invariant n <= fuel
        invariant AfterLoop(State(), ctx, n) == AfterLoop(old(State()), ctx, fuel)
        decreases n
      {
        ghost var before := State();
        var next := Iterate();
        if next == Return {
          assert AfterLoop(before, ctx, n) == (State(), Cancelled);
          return Cancelled;
        }
        if next == Break {
          assert AfterLoop(before, ctx, n) == (State(), Finished);
          assert AfterLoop(State(), ctx, n - 1) == (State(), Finished);
          n := n - 1;
          break;
        }
        n := n - 1;
      }
      if keepSending {
        return StillRunning;
      }
      if HasReportSink(ctx.job) {
        SendOrUpdateReport();
      }
      exit := Finished;
    }
  }
}
