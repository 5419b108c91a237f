/**
 * The service around the dispatcher: the queue worker, which runs one
 * dispatch per job, and the `/start-broadcast` and `/cancel-broadcast`
 * handlers, which write the queue and the store. The queue holds jobs ready
 * to run (`waiting`) apart from jobs with a positive delay (`delayed`),
 * and numbers its jobs 1, 2, 3, ...
 */
module Service {
  import opened Wrappers
  import opened Js
  import opened Store
  import opened Dispatch
  import opened Intake
  import opened DispatchPage
  import opened DispatchRun
  import Dispatcher

  datatype QueuedJob = QueuedJob(id: string, data: JobData, delayMs: Option<int>)

  /** The answer of `/start-broadcast`. A scheduled time of None means "immediately". */
  datatype StartResponse = Refused(status: int) | Queued(jobId: string, scheduledTime: Option<string>)

  /** The answer of `/cancel-broadcast`. */
  datatype CancelResponse = CancelRefused(status: int) | CancelledOne(jobId: string) | CancelledAll

  /** The sentinel job id of `/cancel-broadcast` that also empties the waiting queue. */
  const AllJobs: string := "all"

  function DigitChar(d: nat): (c: char)
    requires d < 10
    ensures '0' <= c <= '9' && c as int == '0' as int + d
  {
    ('0' as int + d) as char
  }

  /** The decimal text of a job number, as it appears in the job's store keys. */
  function IdText(n: nat): (s: string)
    ensures |s| >= 1 && forall i :: 0 <= i < |s| ==> '0' <= s[i] <= '9'
    ensures n >= 10 <==> |s| >= 2
  {
    if n < 10 then [DigitChar(n)] else IdText(n / 10) + [DigitChar(n % 10)]
  }

  /** Different job numbers give different ids, so different store keys. */
  lemma {:induction false} IdTextInjective(m: nat, n: nat)
    requires m != n
    ensures IdText(m) != IdText(n)
  {
    if m >= 10 && n >= 10 && IdText(m) == IdText(n) {
      var sm, sn := IdText(m), IdText(n);
      assert sm[|sm| - 1] == DigitChar(m % 10) && sn[|sn| - 1] == DigitChar(n % 10);
      assert sm[..|sm| - 1] == IdText(m / 10) && sn[..|sn| - 1] == IdText(n / 10);
      if m / 10 != n / 10 {
        IdTextInjective(m / 10, n / 10);
      }
      assert false;
    } else if m < 10 && n < 10 {
      assert IdText(m)[0] != IdText(n)[0];
    }
  }

  /**
   * Jobs with different numbers never share a store key, whatever the two
   * fields: each job's counters, cursor, completion mark and cancel flag are
   * its own.
   */
  lemma JobKeysDistinct(m: nat, n: nat, f: string, g: string)
    requires m != n
    ensures Key(IdText(m), f) != Key(IdText(n), g)
  {
    var a, b := IdText(m), IdText(n);
    var ka, kb := Key(a, f), Key(b, g);
    if |a| == |b| {
      IdTextInjective(m, n);
      assert ka[..|a|] == a && kb[..|b|] == b;
    } else if |a| < |b| {
      assert ka[|a|] == ':' && kb[|a|] == b[|a|];
    } else {
      assert kb[|b|] == ':' && ka[|b|] == a[|b|];
    }
  }

  /** No key of job n is one a run of job m may write. */
  lemma OtherJobKeyOutside(m: nat, n: nat, field: string)
    requires m != n
    ensures Key(IdText(n), field) !in RunKeys(IdText(m))
  {
    JobKeysDistinct(m, n, MessagesSentField, field);
    JobKeysDistinct(m, n, ErrorsField, field);
    JobKeysDistinct(m, n, LastUserIdField, field);
    JobKeysDistinct(m, n, CancelledField, field);
    JobKeysDistinct(m, n, CompletedField, field);
  }

  /** A run of one queued job leaves every key of every other queued job as it was. */
  lemma RunLeavesOtherJobs(data: Data, env: Env, job: JobData, fuel: nat, m: nat, n: nat, field: string)
    requires m != n
    ensures SameAt(data, Broadcast(data, Context(IdText(m), job, env), fuel).0.redis, Key(IdText(n), field))
  {
    OtherJobKeyOutside(m, n, field);
    RunLeavesKey(data, Context(IdText(m), job, env), fuel, Key(IdText(n), field));
  }

  /** No queued job has the id "all", so the flag written by a cancel-all stops no job. */
  lemma AllFlagStopsNoJob(n: nat)
    ensures IdText(n) != AllJobs && TruthyText(Some(IdText(n)))
    ensures Key(AllJobs, CancelledField) != Key(IdText(n), CancelledField)
  {
    assert IdText(n)[0] != AllJobs[0];
    KeyJobsDistinct(AllJobs, IdText(n), CancelledField);
  }

  /**
   * Setting the flag of job x changes no other job's flag and no job's
   * counters, cursor or completion mark.
   */
  lemma CancelFlagsOnlyItsJob(data: Data, x: string, y: string)
    ensures var data' := data[Key(x, CancelledField) := 1];
      && (IsSet(data', Key(y, CancelledField)) <==> IsSet(data, Key(y, CancelledField)) || x == y)
      && GetOrZero(data', Key(y, MessagesSentField)) == GetOrZero(data, Key(y, MessagesSentField))
      && GetOrZero(data', Key(y, ErrorsField)) == GetOrZero(data, Key(y, ErrorsField))
      && GetOrZero(data', Key(y, LastUserIdField)) == GetOrZero(data, Key(y, LastUserIdField))
      && GetOrZero(data', Key(y, CompletedField)) == GetOrZero(data, Key(y, CompletedField))
  {
    if x != y {
      KeyJobsDistinct(x, y, CancelledField);
    }
    CancelKeyIsNoCounterKey(x, y);
  }

  /** Where the queue puts a new job: jobs with a positive delay wait in the delayed list. */
  function Enqueue(waiting: seq<QueuedJob>, delayed: seq<QueuedJob>, job: QueuedJob): (q: (seq<QueuedJob>, seq<QueuedJob>))
    ensures q.0 + q.1 == (waiting + delayed) + [job] || q.0 + q.1 == waiting + [job] + delayed
  {
    if job.delayMs.Some? && job.delayMs.value > 0 then (waiting, delayed + [job]) else (waiting + [job], delayed)
  }

  /** What the queue keeps apart: delayed jobs have a positive delay, waiting jobs do not. */
  predicate Placed(waiting: seq<QueuedJob>, delayed: seq<QueuedJob>) {
    && (forall i :: 0 <= i < |waiting| ==> !(waiting[i].delayMs.Some? && waiting[i].delayMs.value > 0))
    && (forall i :: 0 <= i < |delayed| ==> delayed[i].delayMs.Some? && delayed[i].delayMs.value > 0)
  }

  /**
   * Queuing a job keeps every job already queued, adds exactly the new one,
   * keeps the order of each list, and keeps the two lists apart.
   */
  lemma EnqueuePlaced(waiting: seq<QueuedJob>, delayed: seq<QueuedJob>, job: QueuedJob)
    requires Placed(waiting, delayed)
    ensures var (w, d) := Enqueue(waiting, delayed, job);
      && Placed(w, d)
      && multiset(w + d) == multiset(waiting + delayed) + multiset{job}
      && w[..|waiting|] == waiting && d[..|delayed|] == delayed
      && |w| + |d| == |waiting| + |delayed| + 1
  {
    var (w, d) := Enqueue(waiting, delayed, job);
    if job.delayMs.Some? && job.delayMs.value > 0 {
      assert w + d == (waiting + delayed) + [job];
    } else {
      assert w + d == (waiting + delayed) + [job] || w + d == waiting + [job] + delayed;
      assert multiset(waiting + [job] + delayed) == multiset(waiting) + multiset{job} + multiset(delayed);
    }
  }

  class BroadcastService {
    const redis: Redis
    /** The configured API key. */
    const apiKey: string
    var waiting: seq<QueuedJob>
    var delayed: seq<QueuedJob>
    /** The number of jobs the queue has created so far. */
    var jobCount: nat

    /**
     * A service over the shared store. `jobCount` is the queue's id counter,
     * which the queue keeps in the same Redis, so ids already issued (whose
     * keys may still be present) are never issued again.
     */
    constructor (redis: Redis, apiKey: string, jobCount: nat)
      ensures this.redis == redis && this.apiKey == apiKey
      ensures waiting == [] && delayed == [] && this.jobCount == jobCount
    {
      this.redis := redis;
      this.apiKey := apiKey;
      waiting, delayed, this.jobCount := [], [], jobCount;
    }

    /** One run of the dispatcher for a job, against the shared store. */
    method SendMessageToUsers(jobId: string, data: JobData, env: Env, fuel: nat) returns (exit: Exit)
      modifies redis
      ensures var (r, e) := Broadcast(old(redis.data), Context(jobId, data, env), fuel);
        redis.data == r.redis && exit == e
    {
      var d := new Dispatcher.Dispatcher(redis, Context(jobId, data, env));
      exit := d.Execute(fuel);
    }

    /** The queue worker: takes the oldest waiting job, if any, and dispatches it. */
    method ProcessNext(env: Env, fuel: nat) returns (ran: Option<(string, Exit)>)
      modifies this, redis
      ensures delayed == old(delayed) && jobCount == old(jobCount)
      ensures Placed(old(waiting), old(delayed)) ==> Placed(waiting, delayed)
      ensures old(waiting) == [] ==> ran == None && waiting == [] && redis.data == old(redis.data)
      ensures old(waiting) != [] ==>
        var job := old(waiting)[0];
        var (r, e) := Broadcast(old(redis.data), Context(job.id, job.data, env), fuel);
        && waiting == old(waiting)[1..] && ran == Some((job.id, e)) && redis.data == r.redis
    {
      if waiting == [] {
        return None;
      }
      var job := waiting[0];
      waiting := waiting[1..];
      var exit := SendMessageToUsers(job.id, job.data, env, fuel);
      ran := Some((job.id, exit));
    }

    /**
     * `/start-broadcast`: checks the text, then the key, resolves the
     * defaults, checks the scheduled time, and queues exactly one job.
     */
    method StartBroadcast(req: StartRequest, givenKey: Option<string>, userCount: Option<int>, clock: Clock)
      returns (resp: StartResponse)
      modifies this
      ensures Placed(old(waiting), old(delayed)) ==> Placed(waiting, delayed)
      ensures var d := Decide(req, givenKey, apiKey, userCount, clock);
        && (d.Rejected? ==>
              && resp == Refused(Status(d.reason))
              && waiting == old(waiting) && delayed == old(delayed) && jobCount == old(jobCount))
        && (d.Accepted? ==>
              var job := QueuedJob(IdText(old(jobCount) + 1), d.data, d.delayMs);
              && jobCount == old(jobCount) + 1
              && (waiting, delayed) == Enqueue(old(waiting), old(delayed), job)
              && resp == Queued(job.id, if TruthyText(req.scheduledTime) then req.scheduledTime else None))
    {
      if !TruthyText(req.messageText) {
        return Refused(400);
      }
      if givenKey != Some(apiKey) {
        return Refused(403);
      }
      var data := Resolve(req, userCount);
      var delayMs: Option<int> := None;
      if TruthyText(req.scheduledTime) {
        if clock.scheduledAt < clock.checkedAt {
          return Refused(400);
        }
        delayMs := Some(clock.scheduledAt - clock.diffedAt);
      }
      jobCount := jobCount + 1;
      var job := QueuedJob(IdText(jobCount), data, delayMs);
      if Placed(waiting, delayed) {
        EnqueuePlaced(waiting, delayed, job);
      }
      if delayMs.Some? && delayMs.value > 0 {
        delayed := delayed + [job];
      } else {
        waiting := waiting + [job];
      }
      resp := Queued(job.id, if TruthyText(req.scheduledTime) then req.scheduledTime else None);
    }

    /**
     * `/cancel-broadcast`: a missing id is refused; otherwise the job's flag
     * is set, and the sentinel "all" also drops every waiting job. Delayed
     * jobs stay queued.
     */
    method CancelBroadcast(jobId: Option<string>) returns (resp: CancelResponse)
      modifies this, redis
      ensures delayed == old(delayed) && jobCount == old(jobCount)
      ensures Placed(old(waiting), old(delayed)) ==> Placed(waiting, delayed)
      ensures !TruthyText(jobId) ==>
        resp == CancelRefused(400) && redis.data == old(redis.data) && waiting == old(waiting)
      ensures TruthyText(jobId) ==>
        && redis.data == old(redis.data)[Key(jobId.value, CancelledField) := 1]
        && (jobId.value == AllJobs ==> resp == CancelledAll && waiting == [])
        && (jobId.value != AllJobs ==> resp == CancelledOne(jobId.value) && waiting == old(waiting))
    {
      if !TruthyText(jobId) {
        return CancelRefused(400);
      }
      redis.Set(Key(jobId.value, CancelledField), 1);
      if jobId.value == AllJobs {
        waiting := [];
        resp := CancelledAll;
      } else {
        resp := CancelledOne(jobId.value);
      }
    }
  }
}
