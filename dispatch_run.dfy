/**
 * What a whole run of the dispatch loop guarantees: counter accounting from
 * the stored values, the cursor chain of page requests, completion on an
 * empty page, a single pass in test mode, and cancellation observed only
 * before a page.
 */
module DispatchRun {
  import opened Wrappers
  import opened Store
  import opened Batching
  import opened Dispatch
  import opened DispatchPage

  /** The page returned by the i-th call to the recipient API. */
  function PageAt(env: Env, fs: seq<Fetch>, i: nat): seq<User>
    requires i < |fs|
  {
    env.getUsers(i, fs[i].lastId, fs[i].limit)
  }

  /** The cursor after the pages of `fs`: the last userId of the last non-empty page, or the start cursor. */
  function CursorAfter(env: Env, fs: seq<Fetch>, c0: UserId): UserId
    decreases |fs|
  {
    if fs == [] then c0
    else
      var p := PageAt(env, fs, |fs| - 1);
      if p == [] then CursorAfter(env, fs[..|fs| - 1], c0) else p[|p| - 1].userId
  }

  /** The ids of every user on every page requested, in order. */
  function AllFetched(env: Env, fs: seq<Fetch>): seq<UserId>
    decreases |fs|
  {
    if fs == [] then [] else AllFetched(env, fs[..|fs| - 1]) + Ids(PageAt(env, fs, |fs| - 1))
  }

  /** Each page request after the first uses the cursor the previous pages left, always with limit 500. */
  ghost predicate Chained(env: Env, fs: seq<Fetch>, c0: UserId) {
    forall i :: 0 <= i < |fs| ==> fs[i] == Fetch(CursorAfter(env, fs[..i], c0), PageSize)
  }

  ghost predicate PagesNonEmpty(env: Env, fs: seq<Fetch>, n: nat)
    requires n <= |fs|
  {
    forall i :: 0 <= i < n ==> PageAt(env, fs, i) != []
  }

  /** The counters are the stored starting values plus the attempts, and they are persisted as they move. */
  ghost predicate Accounted(r: RunState, ctx: Context, sent0: int, errors0: int) {
    && Persisted(r, ctx.jobId)
    && r.messagesSent == sent0 + Delivered(r.sends)
    && r.errors == errors0 + |r.sends| - Delivered(r.sends)
  }

  /**
   * Loop invariant of a run without test users that started from store `data0`
   * and cursor `c0`.
   */
  ghost predicate Paged(r: RunState, ctx: Context, data0: Data, c0: UserId) {
    var fs := r.fetches;
    var dk := Key(ctx.jobId, CompletedField);
    && Chained(ctx.env, fs, c0)
    && Targets(r.sends) == AllFetched(ctx.env, fs)
    && (r.keepSending ==>
          && r.lastUserId == CursorAfter(ctx.env, fs, c0)
          && SameAt(data0, r.redis, dk)
          && PagesNonEmpty(ctx.env, fs, |fs|))
    && (!r.keepSending ==>
          && |fs| > 0 && PageAt(ctx.env, fs, |fs| - 1) == []
          && PagesNonEmpty(ctx.env, fs, |fs| - 1)
          && dk in r.redis && r.redis[dk] == 1
          && !IsSet(r.redis, Key(ctx.jobId, CancelledField)))
  }

  lemma PageAccounted(r: RunState, ctx: Context, users: seq<User>, sent0: int, errors0: int)
    requires Accounted(r, ctx, sent0, errors0)
    ensures Accounted(AfterPage(r, ctx, users), ctx, sent0, errors0)
  {
    PageEffect(r, ctx, users);
    DeliveredAppend(r.sends, SendsFor(ctx, |r.sends|, users));
  }

  lemma IterationAccounted(r: RunState, ctx: Context, sent0: int, errors0: int)
    requires Accounted(r, ctx, sent0, errors0)
    ensures Accounted(AfterIteration(r, ctx).0, ctx, sent0, errors0)
    ensures AfterIteration(r, ctx).0.reports == r.reports
  {
    ProgressKeysDistinct(ctx.jobId);
    var ck := Key(ctx.jobId, CancelledField);
    if !IsSet(r.redis, ck) {
      if |ctx.job.testUsers| > 0 {
        PageAccounted(r.(keepSending := false), ctx, ctx.job.testUsers, sent0, errors0);
        PageEffect(r.(keepSending := false), ctx, ctx.job.testUsers);
      } else {
        var users := ctx.env.getUsers(|r.fetches|, r.lastUserId, PageSize);
        var r1 := r.(fetches := r.fetches + [Fetch(r.lastUserId, PageSize)]);
        if |users| > 0 {
          PageAccounted(r1, ctx, users, sent0, errors0);
          PageEffect(r1, ctx, users);
        }
      }
    }
  }

  lemma {:induction false} LoopAccounted(r: RunState, ctx: Context, fuel: nat, sent0: int, errors0: int)
    requires Accounted(r, ctx, sent0, errors0)
    ensures Accounted(AfterLoop(r, ctx, fuel).0, ctx, sent0, errors0)
    ensures AfterLoop(r, ctx, fuel).0.reports == r.reports
    decreases fuel
  {
    if r.keepSending && fuel > 0 {
      IterationAccounted(r, ctx, sent0, errors0);
      var (r1, next) := AfterIteration(r, ctx);
      if next == Continue {
        LoopAccounted(r1, ctx, fuel - 1, sent0, errors0);
      }
    }
  }

  /**
   * Counter accounting over a whole run. Counters start from the stored
   * values (0 when absent). Each attempt adds exactly one to messages_sent
   * (delivered) or to errors (failed). Both stay persisted. So
   * messages_sent + errors equals the stored sum plus the attempts, and
   * neither counter ever drops.
   */
  lemma CounterAccounting(data: Data, ctx: Context, fuel: nat)
    ensures var r := Broadcast(data, ctx, fuel).0;
      var sent0 := GetOrZero(data, Key(ctx.jobId, MessagesSentField));
      var errors0 := GetOrZero(data, Key(ctx.jobId, ErrorsField));
      && r.messagesSent == sent0 + Delivered(r.sends)
      && r.errors == errors0 + |r.sends| - Delivered(r.sends)
      && r.messagesSent + r.errors == sent0 + errors0 + |r.sends|
      && sent0 <= r.messagesSent && errors0 <= r.errors
      && Persisted(r, ctx.jobId)
  {
    var r0 := Load(data, ctx);
    LoopAccounted(r0, ctx, fuel, r0.messagesSent, r0.errors);
  }

  /**
   * Reports: one at the start, and one more at the end only when the loop
   * was left normally. A cancelled run (or one still running) sends no final
   * report. Each report goes out only when a chat or webhook sink is set.
   */
  lemma Reporting(data: Data, ctx: Context, fuel: nat)
    ensures var (r, e) := Broadcast(data, ctx, fuel);
      var first := Load(data, ctx).reports;
      && first == (if HasReportSink(ctx.job)
                   then [Snapshot(GetOrZero(data, Key(ctx.jobId, MessagesSentField)),
                                  GetOrZero(data, Key(ctx.jobId, ErrorsField)))]
                   else [])
      && r.reports == (if e == Finished && HasReportSink(ctx.job)
                       then first + [Snapshot(r.messagesSent, r.errors)]
                       else first)
  {
    var r0 := Load(data, ctx);
    LoopAccounted(r0, ctx, fuel, r0.messagesSent, r0.errors);
  }

  /** Appending a request leaves the earlier pages, cursors and fetched ids as they were. */
  lemma FetchAppended(env: Env, fs: seq<Fetch>, f: Fetch, c0: UserId)
    ensures (fs + [f])[..|fs|] == fs
    ensures forall i :: 0 <= i < |fs| ==> PageAt(env, fs + [f], i) == PageAt(env, fs, i)
    ensures CursorAfter(env, fs + [f], c0) ==
      (var p := PageAt(env, fs + [f], |fs|); if p == [] then CursorAfter(env, fs, c0) else p[|p| - 1].userId)
    ensures AllFetched(env, fs + [f]) == AllFetched(env, fs) + Ids(PageAt(env, fs + [f], |fs|))
  {
    assert (fs + [f])[..|fs|] == fs;
  }

  lemma ChainExtended(env: Env, fs: seq<Fetch>, c0: UserId)
    requires Chained(env, fs, c0)
    ensures Chained(env, fs + [Fetch(CursorAfter(env, fs, c0), PageSize)], c0)
  {
    var f := Fetch(CursorAfter(env, fs, c0), PageSize);
    var fs' := fs + [f];
    forall i | 0 <= i < |fs'| ensures fs'[i] == Fetch(CursorAfter(env, fs'[..i], c0), PageSize) {
      if i < |fs| {
        assert fs'[..i] == fs[..i];
      } else {
        assert fs'[..i] == fs;
      }
    }
  }

  /** The request that comes back empty: the loop stops and `completed` is set. */
  lemma EmptyPagePaged(r: RunState, ctx: Context, data0: Data, c0: UserId)
    requires ctx.job.testUsers == [] && r.keepSending
    requires Paged(r, ctx, data0, c0)
    requires !IsSet(r.redis, Key(ctx.jobId, CancelledField))
    requires ctx.env.getUsers(|r.fetches|, r.lastUserId, PageSize) == []
    ensures var r1 := r.(fetches := r.fetches + [Fetch(r.lastUserId, PageSize)]);
      Paged(r1.(keepSending := false, redis := r1.redis[Key(ctx.jobId, CompletedField) := 1]), ctx, data0, c0)
  {
    var f := Fetch(r.lastUserId, PageSize);
    FetchAppended(ctx.env, r.fetches, f, c0);
    ChainExtended(ctx.env, r.fetches, c0);
    KeyFieldsDistinct(ctx.jobId, CompletedField, CancelledField) by {
      assert CompletedField[1] != CancelledField[1];
    }
    assert Ids([]) == [];
    assert AllFetched(ctx.env, r.fetches + [f]) == AllFetched(ctx.env, r.fetches) + [];
  }

  /** A non-empty page: all its users are attempted and the cursor moves to its last user. */
  lemma FullPagePaged(r: RunState, ctx: Context, data0: Data, c0: UserId)
    requires ctx.job.testUsers == [] && r.keepSending
    requires Paged(r, ctx, data0, c0)
    requires ctx.env.getUsers(|r.fetches|, r.lastUserId, PageSize) != []
    ensures var r1 := r.(fetches := r.fetches + [Fetch(r.lastUserId, PageSize)]);
      var r2 := AfterPage(r1, ctx, ctx.env.getUsers(|r.fetches|, r.lastUserId, PageSize));
      Paged(r2, ctx, data0, c0) && r2.keepSending
  {
    var f := Fetch(r.lastUserId, PageSize);
    var users := ctx.env.getUsers(|r.fetches|, r.lastUserId, PageSize);
    var r1 := r.(fetches := r.fetches + [f]);
    FetchAppended(ctx.env, r.fetches, f, c0);
    ChainExtended(ctx.env, r.fetches, c0);
    assert PageAt(ctx.env, r1.fetches, |r.fetches|) == users;
    PageEffect(r1, ctx, users);
    ProgressKeysDistinct(ctx.jobId);
    TargetsOfSends(ctx, |r1.sends|, r1.sends, users);
  }

  lemma IterationPaged(r: RunState, ctx: Context, data0: Data, c0: UserId)
    requires ctx.job.testUsers == [] && r.keepSending
    requires Paged(r, ctx, data0, c0)
    ensures var (r', next) := AfterIteration(r, ctx);
      && Paged(r', ctx, data0, c0)
      && (next == Return ==> r' == r && IsSet(r.redis, Key(ctx.jobId, CancelledField)))
      && (next == Continue ==> r'.keepSending)
      && (next == Break ==> !r'.keepSending)
  {
    if !IsSet(r.redis, Key(ctx.jobId, CancelledField)) {
      if ctx.env.getUsers(|r.fetches|, r.lastUserId, PageSize) == [] {
        EmptyPagePaged(r, ctx, data0, c0);
      } else {
        FullPagePaged(r, ctx, data0, c0);
      }
    }
  }

  lemma {:induction false} LoopPaged(r: RunState, ctx: Context, fuel: nat, data0: Data, c0: UserId)
    requires ctx.job.testUsers == []
    requires Paged(r, ctx, data0, c0)
    ensures var (r', e) := AfterLoop(r, ctx, fuel);
      && Paged(r', ctx, data0, c0)
      && (e == Finished <==> !r'.keepSending)
      && (e == Cancelled ==> IsSet(r'.redis, Key(ctx.jobId, CancelledField)))
    decreases fuel
  {
    if r.keepSending && fuel > 0 {
      IterationPaged(r, ctx, data0, c0);
      var (r1, next) := AfterIteration(r, ctx);
      if next == Continue {
        LoopPaged(r1, ctx, fuel - 1, data0, c0);
      }
    }
  }

  /**
   * A run without test users. Each page request goes out with limit 500 and
   * the cursor the previous pages left: the first uses the stored
   * last_user_id (0 when absent), each later one the last userId of the page
   * before. The users attempted are exactly the users of the pages fetched, in
   * order. The run finishes exactly when a page comes back empty, and then
   * `completed` is 1 and no cancel flag was seen. A cancelled run or one still
   * running has every fetched page non-empty and has not touched `completed`.
   */
  lemma NormalRun(data: Data, ctx: Context, fuel: nat)
    requires ctx.job.testUsers == []
    ensures var (r, e) := Broadcast(data, ctx, fuel);
      var c0 := GetOrZero(data, Key(ctx.jobId, LastUserIdField));
      var fs := r.fetches;
      var dk := Key(ctx.jobId, CompletedField);
      && Chained(ctx.env, fs, c0)
      && Targets(r.sends) == AllFetched(ctx.env, fs)
      && (e == Finished <==> |fs| > 0 && PageAt(ctx.env, fs, |fs| - 1) == [])
      && (e == Finished ==>
            && PagesNonEmpty(ctx.env, fs, |fs| - 1)
            && dk in r.redis && r.redis[dk] == 1
            && !IsSet(r.redis, Key(ctx.jobId, CancelledField)))
      && (e != Finished ==>
            && PagesNonEmpty(ctx.env, fs, |fs|)
            && SameAt(data, r.redis, dk)
            && r.lastUserId == CursorAfter(ctx.env, fs, c0))
      && (e == Cancelled ==> IsSet(r.redis, Key(ctx.jobId, CancelledField)))
  {
    var r0 := Load(data, ctx);
    var c0 := GetOrZero(data, Key(ctx.jobId, LastUserIdField));
    assert Targets(r0.sends) == [] == AllFetched(ctx.env, []);
    LoopPaged(r0, ctx, fuel, data, c0);
  }

  /**
   * Test mode: with a non-empty test list the recipient API is never asked,
   * each test user is attempted exactly once and in order, and the loop ends
   * after that single pass whatever the fuel. The cursor is still written
   * (the last test user's id), `completed` is left alone, and the final
   * report follows.
   */
  lemma TestModeRun(data: Data, ctx: Context, fuel: nat)
    requires ctx.job.testUsers != [] && fuel >= 1
    requires !IsSet(data, Key(ctx.jobId, CancelledField))
    ensures var (r, e) := Broadcast(data, ctx, fuel);
      var t := ctx.job.testUsers;
      && e == Finished
      && Broadcast(data, ctx, fuel) == Broadcast(data, ctx, 1)
      && r.sends == SendsFor(ctx, 0, t)
      && Targets(r.sends) == Ids(t)
      && r.fetches == []
      && r.lastUserId == t[|t| - 1].userId
      && GetOrZero(r.redis, Key(ctx.jobId, LastUserIdField)) == t[|t| - 1].userId
      && SameAt(data, r.redis, Key(ctx.jobId, CompletedField))
  {
    var r0 := Load(data, ctx);
    var t := ctx.job.testUsers;
    var r1 := AfterPage(r0.(keepSending := false), ctx, t);
    PageEffect(r0.(keepSending := false), ctx, t);
    assert !r1.keepSending;
    assert AfterIteration(r0, ctx) == (r1, Continue);
    assert AfterLoop(r0, ctx, fuel) == (r1, Finished);
    assert AfterLoop(r0, ctx, 1) == (r1, Finished);
    ProgressKeysDistinct(ctx.jobId);
    TargetsOfSends(ctx, 0, [], t);
    assert [] + SendsFor(ctx, 0, t) == SendsFor(ctx, 0, t);
  }

  /** A flag already set when the run starts: no page request, no send, no store write, only the first report. */
  lemma CancelledBeforeStart(data: Data, ctx: Context, fuel: nat)
    requires IsSet(data, Key(ctx.jobId, CancelledField)) && fuel >= 1
    ensures var (r, e) := Broadcast(data, ctx, fuel);
      && e == Cancelled
      && r.sends == [] && r.fetches == [] && r.pauses == [] && r.redis == data
      && r.reports == Load(data, ctx).reports
  {
  }

  /**
   * The cancel flag is not consulted inside a page: two environments that
   * differ only in when cancel requests land produce the same sends,
   * counters, cursor and pauses for a page.
   */
  lemma PageIgnoresCancel(r: RunState, ctx: Context, other: nat -> bool, users: seq<User>)
    ensures var ctx' := ctx.(env := ctx.env.(cancelDuring := other));
      var a, b := AfterPage(r, ctx, users), AfterPage(r, ctx', users);
      && a.sends == b.sends && a.messagesSent == b.messagesSent && a.errors == b.errors
      && a.lastUserId == b.lastUserId && a.pauses == b.pauses
  {
    var ctx' := ctx.(env := ctx.env.(cancelDuring := other));
    PageEffect(r, ctx, users);
    PageEffect(r, ctx', users);
    assert SendsFor(ctx, |r.sends|, users) == SendsFor(ctx', |r.sends|, users);
    assert Pauses(ctx, |Batches(users)|) == Pauses(ctx', |Batches(users)|);
  }

  /**
   * A cancel request that lands while a page is in flight does not cut the
   * page short. Every user of the page is still attempted. The next check,
   * before any further page request, ends the run as cancelled.
   */
  lemma CancelMidPage(r: RunState, ctx: Context, fuel: nat)
    requires ctx.job.testUsers == [] && r.keepSending && fuel >= 2
    requires !IsSet(r.redis, Key(ctx.jobId, CancelledField))
    requires var users := ctx.env.getUsers(|r.fetches|, r.lastUserId, PageSize);
      users != [] && CancelLands(ctx.env, |r.pauses|, |r.pauses| + |Batches(users)|)
    ensures var users := ctx.env.getUsers(|r.fetches|, r.lastUserId, PageSize);
      var (r', e) := AfterLoop(r, ctx, fuel);
      && e == Cancelled
      && Targets(r'.sends) == Targets(r.sends) + Ids(users)
      && r'.fetches == r.fetches + [Fetch(r.lastUserId, PageSize)]
      && r'.pauses == r.pauses + Pauses(ctx, |Batches(users)|)
  {
    var users := ctx.env.getUsers(|r.fetches|, r.lastUserId, PageSize);
    var r1 := r.(fetches := r.fetches + [Fetch(r.lastUserId, PageSize)]);
    PageEffect(r1, ctx, users);
    TargetsOfSends(ctx, |r1.sends|, r1.sends, users);
  }

  /**
   * Resuming: a later run of the same job starts from what this run left in
   * the store. Its counters continue from this run's (no reset), and without
   * test users its first page request uses this run's cursor. So over both
   * runs, messages_sent + errors is the stored sum plus all attempts.
   */
  lemma ResumeContinues(data: Data, ctx: Context, fuel: nat, ctx2: Context, fuel2: nat)
    requires ctx2.jobId == ctx.jobId
    ensures var r := Broadcast(data, ctx, fuel).0;
      var r2 := Broadcast(r.redis, ctx2, fuel2).0;
      && Load(r.redis, ctx2).messagesSent == r.messagesSent
      && Load(r.redis, ctx2).errors == r.errors
      && Load(r.redis, ctx2).lastUserId == r.lastUserId
      && r2.messagesSent + r2.errors ==
           GetOrZero(data, Key(ctx.jobId, MessagesSentField)) + GetOrZero(data, Key(ctx.jobId, ErrorsField))
           + |r.sends| + |r2.sends|
      && (ctx2.job.testUsers == [] && |r2.fetches| > 0 ==> r2.fetches[0] == Fetch(r.lastUserId, PageSize))
  {
    var r := Broadcast(data, ctx, fuel).0;
    CounterAccounting(data, ctx, fuel);
    CounterAccounting(r.redis, ctx2, fuel2);
    if ctx2.job.testUsers == [] {
      NormalRun(r.redis, ctx2, fuel2);
    }
  }

  /** Every key a run of the job may write: its progress keys and its completion mark. */
  function RunKeys(jobId: string): set<string> {
    ProgressKeys(jobId) + {Key(jobId, CompletedField)}
  }

  lemma IterationFrame(r: RunState, ctx: Context)
    ensures SameExcept(r.redis, AfterIteration(r, ctx).0.redis, RunKeys(ctx.jobId))
  {
    if !IsSet(r.redis, Key(ctx.jobId, CancelledField)) {
      if |ctx.job.testUsers| > 0 {
        PageEffect(r.(keepSending := false), ctx, ctx.job.testUsers);
      } else {
        var users := ctx.env.getUsers(|r.fetches|, r.lastUserId, PageSize);
        var r1 := r.(fetches := r.fetches + [Fetch(r.lastUserId, PageSize)]);
        if |users| > 0 {
          PageEffect(r1, ctx, users);
        }
      }
    }
  }

  lemma {:induction false} LoopFrame(r: RunState, ctx: Context, fuel: nat)
    ensures SameExcept(r.redis, AfterLoop(r, ctx, fuel).0.redis, RunKeys(ctx.jobId))
    decreases fuel
  {
    if r.keepSending && fuel > 0 {
      IterationFrame(r, ctx);
      var (r1, next) := AfterIteration(r, ctx);
      if next == Continue {
        LoopFrame(r1, ctx, fuel - 1);
        SameExceptTrans(r.redis, r1.redis, AfterLoop(r1, ctx, fuel - 1).0.redis, RunKeys(ctx.jobId));
      }
    }
  }

  /**
   * A whole run writes only its own job's keys: messages_sent, errors,
   * last_user_id and completed (the cancel flag comes from outside). Every
   * other key of the store is as it was.
   */
  lemma RunFrame(data: Data, ctx: Context, fuel: nat)
    ensures SameExcept(data, Broadcast(data, ctx, fuel).0.redis, RunKeys(ctx.jobId))
  {
    LoopFrame(Load(data, ctx), ctx, fuel);
  }

  /** A key outside the job's own keys is left as it was by a whole run. */
  lemma RunLeavesKey(data: Data, ctx: Context, fuel: nat, k: string)
    requires k !in RunKeys(ctx.jobId)
    ensures SameAt(data, Broadcast(data, ctx, fuel).0.redis, k)
  {
    RunFrame(data, ctx, fuel);
  }
}
