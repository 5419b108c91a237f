/**
 * What one batch and one page of the dispatch loop do, stated against
 * reference definitions: one send per user in page order, counters that grow
 * by exactly the attempts made, the cursor left at the last user, and the
 * durable store touched only at the job's progress keys.
 */
module DispatchPage {
  import opened Store
  import opened Batching
  import opened Dispatch

  /** How many of the attempts the transport accepted. */
  function Delivered(sends: seq<Send>): (n: nat)
    ensures n <= |sends|
  {
    if sends == [] then 0
    else Delivered(sends[..|sends| - 1]) + (if sends[|sends| - 1].delivered then 1 else 0)
  }

  lemma {:induction false} DeliveredAppend(a: seq<Send>, b: seq<Send>)
    ensures Delivered(a + b) == Delivered(a) + Delivered(b)
    decreases |b|
  {
    if b == [] {
      assert a + b == a;
    } else {
      assert (a + b)[..|a + b| - 1] == a + b[..|b| - 1];
      DeliveredAppend(a, b[..|b| - 1]);
    }
  }

  /** One send per user, in order; the first is attempt number `base` of the run. */
  function SendsFor(ctx: Context, base: nat, users: seq<User>): (ss: seq<Send>)
    ensures |ss| == |users|
  {
    seq(|users|, k requires 0 <= k < |users| =>
      Send(users[k].userId, PayloadOf(ctx.job), ctx.env.delivers(base + k, users[k])))
  }

  lemma SendsForAppend(ctx: Context, base: nat, a: seq<User>, b: seq<User>)
    ensures SendsFor(ctx, base, a + b) == SendsFor(ctx, base, a) + SendsFor(ctx, base + |a|, b)
  {
    var lhs, rhs := SendsFor(ctx, base, a + b), SendsFor(ctx, base, a) + SendsFor(ctx, base + |a|, b);
    forall k | 0 <= k < |lhs| ensures lhs[k] == rhs[k] {
      if k >= |a| {
        assert (a + b)[k] == b[k - |a|];
      }
    }
  }

  function Ids(users: seq<User>): (ids: seq<UserId>)
    ensures |ids| == |users|
  {
    seq(|users|, k requires 0 <= k < |users| => users[k].userId)
  }

  function Targets(sends: seq<Send>): (ids: seq<UserId>)
    ensures |ids| == |sends|
  {
    seq(|sends|, k requires 0 <= k < |sends| => sends[k].chatId)
  }

  lemma TargetsOfSends(ctx: Context, base: nat, prefix: seq<Send>, users: seq<User>)
    ensures Targets(prefix + SendsFor(ctx, base, users)) == Targets(prefix) + Ids(users)
  {
    var lhs, rhs := Targets(prefix + SendsFor(ctx, base, users)), Targets(prefix) + Ids(users);
    forall k | 0 <= k < |lhs| ensures lhs[k] == rhs[k] {
      if k >= |prefix| {
        assert (prefix + SendsFor(ctx, base, users))[k] == SendsFor(ctx, base, users)[k - |prefix|];
      }
    }
  }

  /** The keys a page may write: the two counters, the cursor, and (from outside) the cancel flag. */
  function ProgressKeys(jobId: string): set<string> {
    {Key(jobId, MessagesSentField), Key(jobId, ErrorsField), Key(jobId, LastUserIdField), Key(jobId, CancelledField)}
  }

  /** The durable counters and cursor agree with the run's locals. */
  ghost predicate Persisted(r: RunState, jobId: string) {
    && GetOrZero(r.redis, Key(jobId, MessagesSentField)) == r.messagesSent
    && GetOrZero(r.redis, Key(jobId, ErrorsField)) == r.errors
    && GetOrZero(r.redis, Key(jobId, LastUserIdField)) == r.lastUserId
  }

  /** No two progress keys of one job coincide. */
  lemma ProgressKeysDistinct(jobId: string)
    ensures Key(jobId, MessagesSentField) != Key(jobId, ErrorsField)
    ensures Key(jobId, MessagesSentField) != Key(jobId, LastUserIdField)
    ensures Key(jobId, ErrorsField) != Key(jobId, LastUserIdField)
    ensures Key(jobId, CompletedField) !in ProgressKeys(jobId)
  {
    KeyFieldsDistinct(jobId, MessagesSentField, ErrorsField);
    KeyFieldsDistinct(jobId, MessagesSentField, LastUserIdField);
    KeyFieldsDistinct(jobId, ErrorsField, LastUserIdField);
    KeyFieldsDistinct(jobId, CompletedField, MessagesSentField);
    KeyFieldsDistinct(jobId, CompletedField, ErrorsField);
    KeyFieldsDistinct(jobId, CompletedField, LastUserIdField);
    assert CompletedField[1] != CancelledField[1];
    KeyFieldsDistinct(jobId, CompletedField, CancelledField);
    CancelKeyIsNoCounterKey(jobId, jobId);
  }

  /** Some outside cancel request lands during batch lo, lo + 1, ..., or hi - 1 of the run. */
  ghost predicate CancelLands(env: Env, lo: nat, hi: nat) {
    exists n :: lo <= n < hi && env.cancelDuring(n)
  }

  lemma CancelLandsSplit(env: Env, lo: nat, mid: nat, hi: nat)
    requires lo <= mid <= hi
    ensures CancelLands(env, lo, hi) <==> CancelLands(env, lo, mid) || CancelLands(env, mid, hi)
  {
    if CancelLands(env, lo, hi) {
      var n :| lo <= n < hi && env.cancelDuring(n);
      if n < mid { assert CancelLands(env, lo, mid); } else { assert CancelLands(env, mid, hi); }
    }
    if CancelLands(env, lo, mid) {
      var n :| lo <= n < mid && env.cancelDuring(n);
      assert lo <= n < hi;
    }
    if CancelLands(env, mid, hi) {
      var n :| mid <= n < hi && env.cancelDuring(n);
      assert lo <= n < hi;
    }
  }

  /** The pauses of n batches, `delay * 1000` milliseconds each. */
  function Pauses(ctx: Context, n: nat): (ps: seq<int>)
    ensures |ps| == n
  {
    seq(n, k => PauseMs(ctx.job.delay))
  }

  lemma PausesAppend(ctx: Context, m: nat, n: nat)
    ensures Pauses(ctx, m) + Pauses(ctx, n) == Pauses(ctx, m + n)
  {
  }

  /** Each user gets exactly one attempt, in order. */
  ghost predicate SentAll(r: RunState, r': RunState, ctx: Context, users: seq<User>) {
    r'.sends == r.sends + SendsFor(ctx, |r.sends|, users)
  }

  /** Each attempt moves exactly one counter: messages_sent on delivery, errors otherwise. */
  ghost predicate Counted(r: RunState, r': RunState, ctx: Context, users: seq<User>) {
    var added := SendsFor(ctx, |r.sends|, users);
    && r'.messagesSent == r.messagesSent + Delivered(added)
    && r'.errors == r.errors + |users| - Delivered(added)
  }

  /** The cursor, local and stored, is the last user's id. */
  ghost predicate Cursored(r: RunState, r': RunState, ctx: Context, users: seq<User>) {
    && r'.lastUserId == (if users == [] then r.lastUserId else users[|users| - 1].userId)
    && (users != [] ==> GetOrZero(r'.redis, Key(ctx.jobId, LastUserIdField)) == r'.lastUserId)
  }

  /**
   * There are n pauses. Only the progress keys change, and afterwards the
   * cancel flag is set exactly when it was set before or a request landed
   * during one of these n batches.
   */
  ghost predicate Framed(r: RunState, r': RunState, ctx: Context, n: nat) {
    var ck := Key(ctx.jobId, CancelledField);
    && r'.pauses == r.pauses + Pauses(ctx, n)
    && r'.keepSending == r.keepSending && r'.fetches == r.fetches && r'.reports == r.reports
    && SameExcept(r.redis, r'.redis, ProgressKeys(ctx.jobId))
    && (IsSet(r'.redis, ck) <==> IsSet(r.redis, ck) || CancelLands(ctx.env, |r.pauses|, |r.pauses| + n))
  }

  /** `r'` is what processing `users` in `n` batches makes of `r`. */
  ghost predicate Processed(r: RunState, r': RunState, ctx: Context, users: seq<User>, n: nat) {
    && SentAll(r, r', ctx, users)
    && Counted(r, r', ctx, users)
    && Cursored(r, r', ctx, users)
    && Framed(r, r', ctx, n)
    && (Persisted(r, ctx.jobId) ==> Persisted(r', ctx.jobId))
  }

  /** A single attempt: one send, one counter step, and only that counter's key written. */
  lemma AttemptEffect(r: RunState, ctx: Context, u: User)
    ensures var r' := AfterAttempt(r, ctx, u);
      && SentAll(r, r', ctx, [u]) && Counted(r, r', ctx, [u])
      && r'.lastUserId == r.lastUserId && r'.keepSending == r.keepSending
      && r'.fetches == r.fetches && r'.pauses == r.pauses && r'.reports == r.reports
      && SameExcept(r.redis, r'.redis, {Key(ctx.jobId, MessagesSentField), Key(ctx.jobId, ErrorsField)})
      && (Persisted(r, ctx.jobId) ==> Persisted(r', ctx.jobId))
    ensures var r' := AfterAttempt(r, ctx, u);
      var ok := ctx.env.delivers(|r.sends|, u);
      var k := Key(ctx.jobId, if ok then MessagesSentField else ErrorsField);
      && SameExcept(r.redis, r'.redis, {k})
      && k in r'.redis && r'.redis[k] == (if ok then r'.messagesSent else r'.errors)
      && (if ok then r'.errors == r.errors else r'.messagesSent == r.messagesSent)
  {
    ProgressKeysDistinct(ctx.jobId);
    var added := SendsFor(ctx, |r.sends|, [u]);
    assert added == [Send(u.userId, PayloadOf(ctx.job), ctx.env.delivers(|r.sends|, u))];
    assert Delivered(added) == if added[0].delivered then 1 else 0 by {
      assert added[..0] == [];
    }
  }

  lemma SentAllCompose(r: RunState, r1: RunState, r2: RunState, ctx: Context, u1: seq<User>, u2: seq<User>)
    requires SentAll(r, r1, ctx, u1) && SentAll(r1, r2, ctx, u2)
    ensures SentAll(r, r2, ctx, u1 + u2)
  {
    SendsForAppend(ctx, |r.sends|, u1, u2);
  }

  lemma CountedCompose(r: RunState, r1: RunState, r2: RunState, ctx: Context, u1: seq<User>, u2: seq<User>)
    requires SentAll(r, r1, ctx, u1)
    requires Counted(r, r1, ctx, u1) && Counted(r1, r2, ctx, u2)
    ensures Counted(r, r2, ctx, u1 + u2)
  {
    var a, b := SendsFor(ctx, |r.sends|, u1), SendsFor(ctx, |r.sends| + |u1|, u2);
    SendsForAppend(ctx, |r.sends|, u1, u2);
    DeliveredAppend(a, b);
    assert |r1.sends| == |r.sends| + |u1|;
    assert Delivered(SendsFor(ctx, |r.sends|, u1 + u2)) == Delivered(a) + Delivered(b);
  }

  lemma CursoredCompose(r: RunState, r1: RunState, r2: RunState, ctx: Context, u1: seq<User>, u2: seq<User>)
    requires u2 != []
    requires Cursored(r, r1, ctx, u1) && Cursored(r1, r2, ctx, u2)
    ensures Cursored(r, r2, ctx, u1 + u2)
  {
    assert (u1 + u2)[|u1 + u2| - 1] == u2[|u2| - 1];
  }

  lemma SameExceptTrans(m0: Data, m1: Data, m2: Data, keys: set<string>)
    requires SameExcept(m0, m1, keys) && SameExcept(m1, m2, keys)
    ensures SameExcept(m0, m2, keys)
  {
  }

  lemma FramedCompose(r: RunState, r1: RunState, r2: RunState, ctx: Context, n1: nat, n2: nat)
    requires Framed(r, r1, ctx, n1) && Framed(r1, r2, ctx, n2)
    ensures Framed(r, r2, ctx, n1 + n2)
  {
    PausesAppend(ctx, n1, n2);
    CancelLandsSplit(ctx.env, |r.pauses|, |r.pauses| + n1, |r.pauses| + n1 + n2);
    SameExceptTrans(r.redis, r1.redis, r2.redis, ProgressKeys(ctx.jobId));
  }

  lemma ProcessedCompose(r: RunState, r1: RunState, r2: RunState, ctx: Context,
                         u1: seq<User>, n1: nat, u2: seq<User>, n2: nat)
    requires u2 != []
    requires Processed(r, r1, ctx, u1, n1) && Processed(r1, r2, ctx, u2, n2)
    ensures Processed(r, r2, ctx, u1 + u2, n1 + n2)
  {
    SentAllCompose(r, r1, r2, ctx, u1, u2);
    CountedCompose(r, r1, r2, ctx, u1, u2);
    CursoredCompose(r, r1, r2, ctx, u1, u2);
    FramedCompose(r, r1, r2, ctx, n1, n2);
  }

  /** The attempts of a batch: one send per user in order, one counter step each, nothing else. */
  lemma {:induction false} AttemptsEffect(r: RunState, ctx: Context, users: seq<User>)
    ensures var r' := AfterAttempts(r, ctx, users);
      && SentAll(r, r', ctx, users) && Counted(r, r', ctx, users)
      && r'.lastUserId == r.lastUserId && r'.keepSending == r.keepSending
      && r'.fetches == r.fetches && r'.pauses == r.pauses && r'.reports == r.reports
      && SameExcept(r.redis, r'.redis, {Key(ctx.jobId, MessagesSentField), Key(ctx.jobId, ErrorsField)})
      && (Persisted(r, ctx.jobId) ==> Persisted(r', ctx.jobId))
    decreases |users|
  {
    if users == [] {
      assert r.sends + SendsFor(ctx, |r.sends|, users) == r.sends;
    } else {
      var r1 := AfterAttempt(r, ctx, users[0]);
      var r2 := AfterAttempts(r1, ctx, users[1..]);
      AttemptEffect(r, ctx, users[0]);
      AttemptsEffect(r1, ctx, users[1..]);
      assert [users[0]] + users[1..] == users;
      SentAllCompose(r, r1, r2, ctx, [users[0]], users[1..]);
      CountedCompose(r, r1, r2, ctx, [users[0]], users[1..]);
      SameExceptTrans(r.redis, r1.redis, r2.redis, {Key(ctx.jobId, MessagesSentField), Key(ctx.jobId, ErrorsField)});
    }
  }

  /** One batch: its attempts, then the cursor written as the batch's last userId. */
  lemma BatchEffect(r: RunState, ctx: Context, batch: seq<User>)
    requires batch != []
    ensures Processed(r, AfterBatch(r, ctx, batch), ctx, batch, 1)
  {
    AttemptsEffect(r, ctx, batch);
    ProgressKeysDistinct(ctx.jobId);
    CancelKeyIsNoCounterKey(ctx.jobId, ctx.jobId);
    assert CancelLands(ctx.env, |r.pauses|, |r.pauses| + 1) <==> ctx.env.cancelDuring(|r.pauses|);
  }

  lemma {:induction false} BatchesEffect(r: RunState, ctx: Context, bs: seq<seq<User>>)
    requires forall k :: 0 <= k < |bs| ==> bs[k] != []
    ensures Processed(r, AfterBatches(r, ctx, bs), ctx, Flatten(bs), |bs|)
    decreases |bs|
  {
    if bs == [] {
      assert Pauses(ctx, 0) == [];
      assert r.pauses + [] == r.pauses;
      assert r.sends + [] == r.sends;
    } else {
      var r1 := AfterBatch(r, ctx, bs[0]);
      BatchEffect(r, ctx, bs[0]);
      if |bs| == 1 {
        assert Flatten(bs) == bs[0] + Flatten(bs[1..]) == bs[0];
      } else {
        BatchesEffect(r1, ctx, bs[1..]);
        assert Flatten(bs[1..]) == bs[1] + Flatten(bs[2..]);
        ProcessedCompose(r, r1, AfterBatches(r1, ctx, bs[1..]), ctx, bs[0], 1, Flatten(bs[1..]), |bs| - 1);
      }
    }
  }

  /**
   * One page: every user of the page gets exactly one attempt, in page order;
   * messages_sent + errors grows by the page's length; the cursor ends at the
   * page's last userId; there is one pause per batch.
   */
  lemma PageEffect(r: RunState, ctx: Context, users: seq<User>)
    ensures Processed(r, AfterPage(r, ctx, users), ctx, users, |Batches(users)|)
  {
    BatchesEffect(r, ctx, Batches(users));
    BatchesPartition(users);
  }
}
