/**
  The queue gateway: the options every crawl job is added with, job removal
  with its cancel flag, the `cancel:<id>` flag itself, and the
  `result:<id>` copy of a job's return value that outlives the job record.
  The job records are kept as BullMQ would hand them back; BullMQ's own
  scheduling, retries and retention are not part of this model.
 */
module Queue {
  import opened Common
  import opened JsText
  import opened JsonValue
  import opened KeyedStore
  import Config

  // ---------------------------------------------------------------------
  // Keys

  function CancelKey(jobId: string): string {
    "cancel:" + jobId
  }

  function ResultKey(jobId: string): string {
    "result:" + jobId
  }

  /** The flag and the result of any two jobs live under different keys, and each key names one job. */
  lemma KeysSeparate(a: string, b: string)
    ensures CancelKey(a) != ResultKey(b)
    ensures CancelKey(a) == CancelKey(b) <==> a == b
    ensures ResultKey(a) == ResultKey(b) <==> a == b
  {
    assert CancelKey(a)[0] != ResultKey(b)[0];
    assert CancelKey(a)[7..] == a && CancelKey(b)[7..] == b;
    assert ResultKey(a)[7..] == a && ResultKey(b)[7..] == b;
  }

  /** Lifetime of a cancel flag: one hour. */
  const CancelTtlSeconds: int := 60 * 60

  /** Lifetime of a stored result when `RESULT_TTL_SECONDS` is not set: one day. */
  const DefaultResultTtlSeconds: int := 60 * 60 * 24

  /** `resultTtlSeconds`: `parseInt` of the variable, or of the default spelled out; NaN is `None`. */
  function ResultTtl(env: Config.Env): Option<int> {
    ParseInt(Config.EnvOr(env, "RESULT_TTL_SECONDS", IntToString(DefaultResultTtlSeconds)))
  }

  /** Without `RESULT_TTL_SECONDS` results are kept for 86400 seconds. */
  lemma ResultTtlDefault(env: Config.Env)
    requires !TruthyOpt(Config.Lookup(env, "RESULT_TTL_SECONDS"))
    ensures ResultTtl(env) == Some(86400)
  {
    ParseIntCanonical(86400);
  }

  // ---------------------------------------------------------------------
  // Cancellation flag

  /** `setCancelFlag(jobId)`: no-op for an empty id; a store failure is swallowed. */
  function SetCancelFlag(s: Store, up: bool, jobId: string, now: int): (r: Store)
    ensures jobId == "" || !up ==> r == s
    ensures forall k :: k in s && k != CancelKey(jobId) ==> k in r && r[k] == s[k]
    ensures r.Keys <= s.Keys + {CancelKey(jobId)}
    ensures jobId != "" && up ==> Get(r, CancelKey(jobId), now) == Some("1")
  {
    if jobId == "" then s
    else
      match SetEx(s, up, CancelKey(jobId), "1", Some(CancelTtlSeconds), now)
      case Ok(s') => s'
      case Rejected => s
  }

  /** `isCancelled(jobId)`: false for an empty id or a failed read, else whether the flag reads exactly "1". */
  function IsCancelled(s: Store, up: bool, jobId: string, now: int): (r: bool)
    ensures jobId == "" || !up ==> !r
    ensures jobId != "" && up ==> (r <==> Get(s, CancelKey(jobId), now) == Some("1"))
  {
    if jobId == "" then false
    else
      match Read(s, up, CancelKey(jobId), now)
      case Ok(v) => v == Some("1")
      case Rejected => false
  }

  /** A flag that was set reads as cancelled for exactly one hour. */
  lemma CancelFlagLifetime(s: Store, jobId: string, now: int, t: int)
    requires jobId != ""
    ensures IsCancelled(SetCancelFlag(s, true, jobId, now), true, jobId, t) <==> t < now + CancelTtlSeconds
  {
    GetAfterSetEx(s, CancelKey(jobId), "1", CancelTtlSeconds, now, t);
  }

  /** Flagging one job does not change whether any other job reads as cancelled. */
  lemma CancelFlagIsolated(s: Store, up: bool, jobId: string, other: string, now: int, t: int)
    requires other != jobId
    ensures IsCancelled(SetCancelFlag(s, up, jobId, now), up, other, t) == IsCancelled(s, up, other, t)
  {
    KeysSeparate(jobId, other);
  }

  // ---------------------------------------------------------------------
  // Job records

  /** How many finished jobs BullMQ keeps: all removed, or the most recent `count`. */
  datatype Retention = RemoveAll | KeepLast(count: nat)

  datatype Backoff = Backoff(kind: string, delayMs: int)

  datatype JobOptions = JobOptions(
    removeOnComplete: Retention,
    removeOnFail: Retention,
    attempts: Option<int>,
    backoff: Backoff)

  /** The states `job.getState()` reports. */
  datatype JobState = Waiting | Delayed | Prioritized | WaitingChildren | Active | Completed | Failed | Unknown

  datatype Job = Job(
    id: string,
    name: string,
    data: Json,
    opts: JobOptions,
    state: JobState,
    attemptsMade: nat,
    processedOn: Option<int>,
    finishedOn: Option<int>,
    returnValue: Json)

  /** The job records, the last id the queue handed out, and the keyspace the gateway writes to. */
  datatype QueueState = QueueState(jobs: map<string, Job>, lastId: nat, store: Store)

  /** The ids handed out so far: "1", "2", … up to `n`. */
  function IssuedIds(n: nat): set<string> {
    set k: nat | 1 <= k <= n :: NatToDecimal(k)
  }

  /** Every record is filed under its own id, which the queue handed out. */
  predicate WellFormed(q: QueueState) {
    forall id :: id in q.jobs ==> q.jobs[id].id == id && id in IssuedIds(q.lastId)
  }

  /** A queue with no jobs over the given keyspace. */
  function EmptyQueue(store: Store): (q: QueueState)
    ensures WellFormed(q) && q.jobs == map[]
  {
    QueueState(map[], 0, store)
  }

  /** The next id is none of the ids handed out before it. */
  lemma NextIdFresh(n: nat)
    ensures NatToDecimal(n + 1) !in IssuedIds(n)
  {
    forall k: nat | 1 <= k <= n
      ensures NatToDecimal(k) != NatToDecimal(n + 1)
    {
      assert DecimalValue(NatToDecimal(k)) == k;
    }
  }

  /** A handed-out id is never the empty string. */
  lemma IssuedIdNonEmpty(n: nat, id: string)
    requires id in IssuedIds(n)
    ensures id != ""
  {
  }

  /**
    The options `addJob` passes: `removeOnComplete` and `removeOnFail` are
    `true` only for the exact value "true" and keep the last 1000 jobs
    otherwise; `attempts` is `parseInt(JOB_ATTEMPTS || "3")`; exponential
    back-off from one second.
   */
  function AddJobOptions(env: Config.Env): (o: JobOptions)
    ensures o.removeOnComplete.RemoveAll? <==> Config.Lookup(env, "REMOVE_ON_COMPLETE") == Some("true")
    ensures o.removeOnFail.RemoveAll? <==> Config.Lookup(env, "REMOVE_ON_FAIL") == Some("true")
    ensures o.removeOnComplete.KeepLast? ==> o.removeOnComplete.count == 1000
    ensures o.removeOnFail.KeepLast? ==> o.removeOnFail.count == 1000
    ensures o.backoff == Backoff("exponential", 1000)
  {
    JobOptions(
      if Config.Lookup(env, "REMOVE_ON_COMPLETE") == Some("true") then RemoveAll else KeepLast(1000),
      if Config.Lookup(env, "REMOVE_ON_FAIL") == Some("true") then RemoveAll else KeepLast(1000),
      ParseInt(Config.EnvOr(env, "JOB_ATTEMPTS", "3")),
      Backoff("exponential", 1000))
  }

  /** A job is tried three times when `JOB_ATTEMPTS` is unset or empty, and otherwise as often as its value reads. */
  lemma AddJobAttempts(env: Config.Env)
    ensures !TruthyOpt(Config.Lookup(env, "JOB_ATTEMPTS")) ==> AddJobOptions(env).attempts == Some(3)
    ensures TruthyOpt(Config.Lookup(env, "JOB_ATTEMPTS")) ==> AddJobOptions(env).attempts == ParseInt(env["JOB_ATTEMPTS"])
  {
    ParseIntCanonical(3);
    assert NatToDecimal(3) == "3";
  }

  /** With nothing set, a job is tried three times and the last 1000 finished jobs are kept. */
  lemma AddJobOptionsDefaults(env: Config.Env)
    requires "REMOVE_ON_COMPLETE" !in env && "REMOVE_ON_FAIL" !in env && "JOB_ATTEMPTS" !in env
    ensures AddJobOptions(env) == JobOptions(KeepLast(1000), KeepLast(1000), Some(3), Backoff("exponential", 1000))
  {
    AddJobAttempts(env);
  }

  /** `addJob(name, data)`: one new waiting record under a fresh id. */
  function AddJob(q: QueueState, env: Config.Env, name: string, data: Json): (r: (Job, QueueState))
    requires WellFormed(q)
    ensures r.0.id != "" && r.0.id !in q.jobs
    ensures r.1.jobs == q.jobs[r.0.id := r.0]
    ensures r.0.name == name && r.0.data == data && r.0.opts == AddJobOptions(env)
    ensures r.0.state == Waiting && r.0.attemptsMade == 0
    ensures r.0.processedOn == None && r.0.finishedOn == None
    ensures r.1.store == q.store
    ensures WellFormed(r.1)
  {
    NextIdFresh(q.lastId);
    var id := NatToDecimal(q.lastId + 1);
    var job := Job(id, name, data, AddJobOptions(env), Waiting, 0, None, None, JNull);
    var q' := QueueState(q.jobs[id := job], q.lastId + 1, q.store);
    assert IssuedIds(q.lastId) <= IssuedIds(q.lastId + 1);
    (job, q')
  }

  /** `getJob(id)`. */
  function GetJob(q: QueueState, id: string): (r: Option<Job>)
    ensures r.Some? <==> id in q.jobs
    ensures r.Some? ==> r.value == q.jobs[id]
  {
    if id in q.jobs then Some(q.jobs[id]) else None
  }

  /** The answer of `removeJob` and the queue afterwards. */
  datatype Removal = Removal(removed: bool, queue: QueueState)

  /**
    `removeJob(id)`: false for an unknown id, touching nothing; otherwise the
    cancel flag is set first, then the record is removed if BullMQ lets it
    (`removeSucceeds`; a locked, running job cannot be removed).
   */
  function RemoveJob(q: QueueState, id: string, storeUp: bool, now: int, removeSucceeds: bool): (r: Removal)
    ensures id !in q.jobs ==> r == Removal(false, q)
    ensures id in q.jobs ==> r.removed == removeSucceeds
    ensures id in q.jobs ==> r.queue.store == SetCancelFlag(q.store, storeUp, id, now)
    ensures r.queue.jobs == if r.removed then q.jobs - {id} else q.jobs
    ensures r.queue.lastId == q.lastId
    ensures WellFormed(q) ==> WellFormed(r.queue)
  {
    if id !in q.jobs then Removal(false, q)
    else
      var flagged := q.(store := SetCancelFlag(q.store, storeUp, id, now));
      if removeSucceeds then Removal(true, flagged.(jobs := q.jobs - {id}))
      else Removal(false, flagged)
  }

  /** A known job reads as cancelled after `removeJob`, whether or not its record could be removed. */
  lemma RemoveJobLeavesFlag(q: QueueState, id: string, now: int, removeSucceeds: bool)
    requires WellFormed(q) && id in q.jobs
    ensures IsCancelled(RemoveJob(q, id, true, now, removeSucceeds).queue.store, true, id, now)
  {
    IssuedIdNonEmpty(q.lastId, id);
  }

  // ---------------------------------------------------------------------
  // Stored results

  /** `JSON.stringify` and `JSON.parse`; `decode` is `None` where parsing throws. */
  datatype Codec = Codec(encode: Json -> string, decode: string -> Option<Json>)

  /** The codec reads back what it writes, and never writes the empty string. */
  ghost predicate Lawful(c: Codec) {
    forall v :: c.encode(v) != "" && c.decode(c.encode(v)) == Some(v)
  }

  /** `storeJobResult(jobId, obj)`: `obj ?? null` encoded under `result:<id>`; failures are swallowed. */
  function StoreJobResult(s: Store, up: bool, env: Config.Env, jobId: string, v: Option<Json>, now: int, codec: Codec): (r: Store)
    ensures jobId == "" || !up ==> r == s
    ensures forall k :: k in s && k != ResultKey(jobId) ==> k in r && r[k] == s[k]
    ensures r.Keys <= s.Keys + {ResultKey(jobId)}
  {
    if jobId == "" then s
    else
      match SetEx(s, up, ResultKey(jobId), codec.encode(v.GetOr(JNull)), ResultTtl(env), now)
      case Ok(s') => s'
      case Rejected => s
  }

  /** `getStoredResult(jobId)`: `None` for an empty id, a failed read, a missing or empty value, or one that does not parse. */
  function GetStoredResult(s: Store, up: bool, jobId: string, now: int, codec: Codec): (r: Option<Json>)
    ensures jobId == "" || !up ==> r == None
    ensures r.Some? ==>
      Get(s, ResultKey(jobId), now).Some? && codec.decode(Get(s, ResultKey(jobId), now).value) == r
    ensures Get(s, ResultKey(jobId), now) == Some("") ==> r == None
    ensures jobId != "" && up && TruthyOpt(Get(s, ResultKey(jobId), now)) ==>
      r == codec.decode(Get(s, ResultKey(jobId), now).value)
  {
    if jobId == "" then None
    else
      match Read(s, up, ResultKey(jobId), now)
      case Rejected => None
      case Ok(raw) =>
        if !TruthyOpt(raw) then None else codec.decode(raw.value)
  }

  /** Before its lifetime ends, a stored result reads back as stored, with a missing value read as null. */
  lemma StoredResultRoundTrip(s: Store, env: Config.Env, jobId: string, v: Option<Json>, now: int, t: int, codec: Codec)
    requires Lawful(codec)
    requires jobId != ""
    requires ResultTtl(env).Some? && ResultTtl(env).value > 0
    requires t < now + ResultTtl(env).value
    ensures GetStoredResult(StoreJobResult(s, true, env, jobId, v, now, codec), true, jobId, t, codec)
         == Some(v.GetOr(JNull))
  {
    var payload := codec.encode(v.GetOr(JNull));
    GetAfterSetEx(s, ResultKey(jobId), payload, ResultTtl(env).value, now, t);
  }

  /** Once its lifetime has passed, a stored result reads as null. */
  lemma StoredResultExpires(s: Store, env: Config.Env, jobId: string, v: Option<Json>, now: int, t: int, codec: Codec)
    requires jobId != ""
    requires ResultTtl(env).Some? && ResultTtl(env).value > 0
    requires t >= now + ResultTtl(env).value
    ensures GetStoredResult(StoreJobResult(s, true, env, jobId, v, now, codec), true, jobId, t, codec) == None
  {
    var payload := codec.encode(v.GetOr(JNull));
    GetAfterSetEx(s, ResultKey(jobId), payload, ResultTtl(env).value, now, t);
  }

  /** With the default lifetime, a result reads back for one day. */
  lemma StoredResultDefaultDay(s: Store, env: Config.Env, jobId: string, v: Option<Json>, now: int, t: int, codec: Codec)
    requires Lawful(codec)
    requires jobId != "" && "RESULT_TTL_SECONDS" !in env
    requires t < now + 86400
    ensures GetStoredResult(StoreJobResult(s, true, env, jobId, v, now, codec), true, jobId, t, codec)
         == Some(v.GetOr(JNull))
  {
    ResultTtlDefault(env);
    StoredResultRoundTrip(s, env, jobId, v, now, t, codec);
  }

  /** A lifetime that is NaN or not positive makes the store reject the write, so nothing is stored. */
  lemma UnusableTtlStoresNothing(s: Store, up: bool, env: Config.Env, jobId: string, v: Option<Json>, now: int, codec: Codec)
    requires ResultTtl(env).None? || ResultTtl(env).value <= 0
    ensures StoreJobResult(s, up, env, jobId, v, now, codec) == s
  {
  }

  // ---------------------------------------------------------------------
  // Worker hooks

  /** What the worker reports about a job. */
  datatype WorkerEvent =
    | JobActive(id: string)
    | JobCompleted(id: string, returnValue: Option<Json>)
    | JobFailed(id: string, reason: string)
    | WorkerError(message: string)

  /** The hooks `createWorker` registers: only a completed job writes anything, its result under its id. */
  function OnWorkerEvent(s: Store, up: bool, env: Config.Env, ev: WorkerEvent, now: int, codec: Codec): (r: Store)
    ensures !ev.JobCompleted? ==> r == s
    ensures ev.JobCompleted? ==> forall k :: k in s && k != ResultKey(ev.id) ==> k in r && r[k] == s[k]
  {
    match ev
    case JobCompleted(id, v) => StoreJobResult(s, up, env, id, v, now, codec)
    case _ => s
  }

  /** A completed job's return value can be fetched under its id until the result expires. */
  lemma CompletedResultFetchable(s: Store, env: Config.Env, id: string, v: Option<Json>, now: int, t: int, codec: Codec)
    requires Lawful(codec) && id != ""
    requires ResultTtl(env).Some? && t < now + ResultTtl(env).value && ResultTtl(env).value > 0
    ensures GetStoredResult(OnWorkerEvent(s, true, env, JobCompleted(id, v), now, codec), true, id, t, codec)
         == Some(v.GetOr(JNull))
  {
    StoredResultRoundTrip(s, env, id, v, now, t, codec);
  }
}
