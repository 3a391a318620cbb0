/** Background jobs: their life cycle, with attempts and retries, and the idempotency index over them. */
module AgentJobs {
  import opened Prelude
  import opened Values

  type Time = int

  datatype JobStatus = Queued | Running | RetryScheduled | Succeeded | Failed | DeadLetter | Cancelled

  datatype JobState = JobState(
    status: JobStatus,
    attemptCount: nat,
    maxAttempts: nat,
    nextAttemptAt: Option<Time>,
    startedAt: Option<Time>,
    finishedAt: Option<Time>,
    errorCode: string,
    output: Option<Value>)

  const ORCHESTRATE: string := "prospect.orchestrate"
  const PROVIDER_FETCH: string := "prospect.provider.fetch"

  predicate IsBridge(jobType: string) { jobType == ORCHESTRATE || jobType == PROVIDER_FETCH }

  // ---------- The operations on one job ----------

  /** When a failed attempt should be repeated. */
  datatype RetryAt = NoRetry | At(time: Time) | InvalidTime

  function Clamp(low: int, high: int, x: int): int { if x > high then high else if x < low then low else x }

  function NewJob(maxAttempts: Option<int>, now: Time): JobState {
    JobState(Queued, 0, Clamp(1, 10, if maxAttempts.Some? then maxAttempts.value else 3), Some(now), None, None, "", None)
  }

  function Started(s: JobState, now: Time): Option<JobState> {
    if s.status != Queued && s.status != RetryScheduled then None
    else if s.status == RetryScheduled && (s.nextAttemptAt.None? || s.nextAttemptAt.value > now) then None
    else
      Some(s.(status := Running, attemptCount := s.attemptCount + 1, startedAt := Some(now), finishedAt := None,
              nextAttemptAt := None, errorCode := ""))
  }

  function Completed(s: JobState, output: Value, now: Time): Option<JobState> {
    if s.status != Running then None
    else Some(s.(output := Some(output), status := Succeeded, finishedAt := Some(now), errorCode := ""))
  }

  function ErrorCodeOf(code: string): string {
    var trimmed := Trim(code);
    var cut := if |trimmed| > 80 then trimmed[..80] else trimmed;
    if cut == "" then "AGENT_JOB_FAILED" else cut
  }

  function AfterFailure(s: JobState, code: string, retry: RetryAt, now: Time): Option<JobState> {
    if s.status != Running || retry.InvalidTime? then None
    else if retry.At? && s.attemptCount < s.maxAttempts then
      Some(s.(errorCode := ErrorCodeOf(code), status := RetryScheduled, nextAttemptAt := Some(retry.time), finishedAt := None))
    else
      Some(s.(errorCode := ErrorCodeOf(code), status := if s.attemptCount >= s.maxAttempts then DeadLetter else Failed,
              nextAttemptAt := None, finishedAt := Some(now)))
  }

  /** A retry asked for by hand; a dead letter gets one more attempt, up to ten. */
  function Requeued(s: JobState, now: Time): Option<JobState> {
    if s.status != Failed && s.status != DeadLetter then None
    else
      var most := if s.status == DeadLetter && s.attemptCount >= s.maxAttempts then Clamp(0, 10, s.attemptCount + 1) else s.maxAttempts;
      Some(s.(maxAttempts := most, status := Queued, nextAttemptAt := Some(now), finishedAt := None, errorCode := ""))
  }

  function AfterCancel(s: JobState, now: Time): Option<JobState> {
    if s.status != Queued && s.status != Running && s.status != RetryScheduled then None
    else Some(s.(status := Cancelled, nextAttemptAt := None, finishedAt := Some(now), errorCode := "CANCELLED_BY_USER"))
  }

  function Interrupted(s: JobState, now: Time): JobState {
    if s.status != Running then s
    else s.(status := Failed, nextAttemptAt := None, finishedAt := Some(now), errorCode := "EXECUTION_INTERRUPTED")
  }

  // ---------- Histories ----------

  datatype JobOp =
    | Start(now: Time)
    | Complete(output: Value, now: Time)
    | Fail(code: string, retry: RetryAt, now: Time)
    | Retry(now: Time)
    | Cancel(now: Time)
    | Crash(now: Time)

  function Try(s: JobState, op: JobOp): Option<JobState> {
    match op
    case Start(now) => Started(s, now)
    case Complete(output, now) => Completed(s, output, now)
    case Fail(code, retry, now) => AfterFailure(s, code, retry, now)
    case Retry(now) => Requeued(s, now)
    case Cancel(now) => AfterCancel(s, now)
    case Crash(now) => Some(Interrupted(s, now))
  }

  /** A refused operation leaves the job as it is. */
  function Do(s: JobState, op: JobOp): JobState {
    match Try(s, op)
    case None => s
    case Some(t) => t
  }

  function History(s: JobState, ops: seq<JobOp>): JobState {
    if ops == [] then s else Do(History(s, ops[..|ops| - 1]), ops[|ops| - 1])
  }

  /** How many of the retries by hand were accepted. */
  function Retries(s: JobState, ops: seq<JobOp>): nat {
    if ops == [] then 0
    else
      var before := ops[..|ops| - 1];
      Retries(s, before) + if ops[|ops| - 1].Retry? && Try(History(s, before), ops[|ops| - 1]).Some? then 1 else 0
  }

  /** Which times are set in which status. */
  predicate TimesOk(s: JobState) {
    && (s.nextAttemptAt.Some? <==> s.status in {Queued, RetryScheduled})
    && (s.finishedAt.Some? <==> s.status in {Succeeded, Failed, DeadLetter, Cancelled})
  }

  lemma {:induction false} TimesAlwaysOk(maxAttempts: Option<int>, created: Time, ops: seq<JobOp>)
    ensures TimesOk(History(NewJob(maxAttempts, created), ops))
    ensures 1 <= History(NewJob(maxAttempts, created), ops).maxAttempts <= 10
  {
    if ops != [] {
      TimesAlwaysOk(maxAttempts, created, ops[..|ops| - 1]);
    }
  }

  predicate WithinBudget(s: JobState, budget: nat) {
    && s.maxAttempts <= budget && s.attemptCount <= budget
    && (s.status == Queued ==> s.attemptCount < budget)
    && (s.status == RetryScheduled ==> s.attemptCount < s.maxAttempts)
  }

  /** Every accepted retry by hand allows at most one attempt more. */
  lemma {:induction false} AttemptsAreBounded(maxAttempts: Option<int>, created: Time, ops: seq<JobOp>)
    ensures var first := NewJob(maxAttempts, created);
      WithinBudget(History(first, ops), first.maxAttempts + Retries(first, ops))
  {
    if ops != [] {
      AttemptsAreBounded(maxAttempts, created, ops[..|ops| - 1]);
    }
  }

  /** Without one, a job is never attempted more often than its own limit says, which does not change. */
  lemma {:induction false} WithoutRetriesWithinLimit(maxAttempts: Option<int>, created: Time, ops: seq<JobOp>)
    ensures var first := NewJob(maxAttempts, created);
      Retries(first, ops) == 0 ==>
        var s := History(first, ops);
        s.maxAttempts == first.maxAttempts && s.attemptCount <= s.maxAttempts
        && (s.status in {Queued, RetryScheduled} ==> s.attemptCount < s.maxAttempts)
  {
    if ops != [] {
      WithoutRetriesWithinLimit(maxAttempts, created, ops[..|ops| - 1]);
    }
  }

  /** Finished jobs that can no longer change. */
  lemma {:induction false} Absorbing(s: JobState, ops: seq<JobOp>)
    requires s.status in {Succeeded, Cancelled}
    ensures History(s, ops) == s
  {
    if ops != [] {
      Absorbing(s, ops[..|ops| - 1]);
    }
  }

  /**
   A retry takes the attempts above the job's limit exactly when the job had used them up and either
   failed without becoming a dead letter, as an interrupted one does, or has been attempted ten times.
   */
  lemma RetryOvershootsIff(s: JobState, now: Time, later: Time)
    requires s.status in {Failed, DeadLetter} && (s.status == DeadLetter ==> s.attemptCount >= s.maxAttempts)
    ensures var r := Do(Do(s, Retry(now)), Start(later));
      r.status == Running
      && (r.attemptCount > r.maxAttempts
          <==> s.attemptCount >= s.maxAttempts && (s.status == Failed || s.attemptCount >= 10))
  {
  }

  /** Such a history: one attempt allowed, interrupted by a restart, retried by hand. */
  lemma InterruptedJobOvershoots(now: Time)
    ensures var ops := [Start(now), Crash(now), Retry(now), Start(now)];
      var s := History(NewJob(Some(1), now), ops);
      s.attemptCount == 2 && s.maxAttempts == 1
  {
    var first := NewJob(Some(1), now);
    var ops := [Start(now), Crash(now), Retry(now), Start(now)];
    assert ops[..3] == [Start(now), Crash(now), Retry(now)];
    assert ops[..3][..2] == [Start(now), Crash(now)];
    assert ops[..3][..2][..1] == [Start(now)];
    assert ops[..3][..2][..1][..0] == [];
    assert History(first, [Start(now)]) == Do(first, Start(now));
    assert History(first, [Start(now), Crash(now)]) == Do(Do(first, Start(now)), Crash(now));
  }

  // ---------- The idempotency index ----------

  /** The keyed digest of an idempotency key, taken as injective. */
  datatype Digest = Digest(key: string)

  datatype JobKey = JobKey(id: string, teamId: string, jobType: string, digest: Digest)

  datatype Alias = Alias(jobId: string, teamId: string, jobType: string, digest: Digest)

  datatype IndexKey = IndexKey(teamId: string, jobType: string, digest: Digest)

  predicate HasKey(j: JobKey, k: IndexKey) { j.teamId == k.teamId && j.jobType == k.jobType && j.digest == k.digest }

  predicate NamesKey(a: Alias, k: IndexKey) { a.teamId == k.teamId && a.jobType == k.jobType && a.digest == k.digest }

  function FindPrimary(jobs: seq<JobKey>, k: IndexKey): (i: int)
    ensures -1 <= i < |jobs| && (i >= 0 ==> HasKey(jobs[i], k))
    ensures i < 0 ==> forall j | j in jobs :: !HasKey(j, k)
  {
    if jobs == [] then -1
    else if HasKey(jobs[0], k) then 0
    else
      var i := FindPrimary(jobs[1..], k);
      if i < 0 then -1 else i + 1
  }

  function FindAlias(aliases: seq<Alias>, k: IndexKey): (i: int)
    ensures -1 <= i < |aliases| && (i >= 0 ==> NamesKey(aliases[i], k))
    ensures i < 0 ==> forall a | a in aliases :: !NamesKey(a, k)
  {
    if aliases == [] then -1
    else if NamesKey(aliases[0], k) then 0
    else
      var i := FindAlias(aliases[1..], k);
      if i < 0 then -1 else i + 1
  }

  /** The job of this team and type with this id. */
  function FindJob(jobs: seq<JobKey>, id: string, teamId: string, jobType: string): (i: int)
    ensures -1 <= i < |jobs| && (i >= 0 ==> jobs[i].id == id && jobs[i].teamId == teamId && jobs[i].jobType == jobType)
    ensures i < 0 ==> forall j | j in jobs :: !(j.id == id && j.teamId == teamId && j.jobType == jobType)
  {
    if jobs == [] then -1
    else if jobs[0].id == id && jobs[0].teamId == teamId && jobs[0].jobType == jobType then 0
    else
      var i := FindJob(jobs[1..], id, teamId, jobType);
      if i < 0 then -1 else i + 1
  }

  /** `findAgentJobByIdempotency` on trimmed arguments: primaries first, then aliases. */
  function Bound(jobs: seq<JobKey>, aliases: seq<Alias>, k: IndexKey): (i: int)
    ensures -1 <= i < |jobs|
  {
    if FindPrimary(jobs, k) >= 0 then FindPrimary(jobs, k)
    else if FindAlias(aliases, k) < 0 then -1
    else FindJob(jobs, aliases[FindAlias(aliases, k)].jobId, k.teamId, k.jobType)
  }

  /** Primaries and aliases together are one partial map from keys to jobs. */
  predicate IndexOk(jobs: seq<JobKey>, aliases: seq<Alias>) {
    && (forall i, j :: 0 <= i < j < |jobs| ==> jobs[i].id != jobs[j].id)
    && (forall i, j :: 0 <= i < j < |jobs| && !IsBridge(jobs[i].jobType) ==>
          !HasKey(jobs[j], IndexKey(jobs[i].teamId, jobs[i].jobType, jobs[i].digest)))
    && (forall i, j :: 0 <= i < j < |aliases| ==>
          !NamesKey(aliases[j], IndexKey(aliases[i].teamId, aliases[i].jobType, aliases[i].digest)))
    && (forall a, j | a in aliases && j in jobs :: !HasKey(j, IndexKey(a.teamId, a.jobType, a.digest)))
    && (forall a | a in aliases :: !IsBridge(a.jobType)
          && exists j | j in jobs :: j.id == a.jobId && j.teamId == a.teamId && j.jobType == a.jobType)
  }

  /** That map, read declaratively: the key belongs to the job, as its own or through an alias. */
  predicate Names(jobs: seq<JobKey>, aliases: seq<Alias>, k: IndexKey, id: string) {
    || (exists j | j in jobs :: HasKey(j, k) && j.id == id)
    || (exists a | a in aliases :: NamesKey(a, k) && a.jobId == id)
  }

  /** The lookup answers exactly what the map says, and the map is single-valued. */
  lemma LookupIsTheMap(jobs: seq<JobKey>, aliases: seq<Alias>, k: IndexKey, id: string)
    requires IndexOk(jobs, aliases) && !IsBridge(k.jobType)
    ensures Names(jobs, aliases, k, id) <==> Bound(jobs, aliases, k) >= 0 && jobs[Bound(jobs, aliases, k)].id == id
  {
    var i := Bound(jobs, aliases, k);
    if j :| j in jobs && HasKey(j, k) && j.id == id {
      PrimaryIsUnique(jobs, aliases, j, k);
    }
    if a :| a in aliases && NamesKey(a, k) && a.jobId == id {
      AliasIsUnique(jobs, aliases, a, k);
    }
    if i >= 0 && jobs[i].id == id {
      if FindPrimary(jobs, k) >= 0 {
        assert jobs[i] in jobs;
      } else {
        assert aliases[FindAlias(aliases, k)] in aliases;
      }
    }
  }

  lemma PrimaryIsUnique(jobs: seq<JobKey>, aliases: seq<Alias>, j: JobKey, k: IndexKey)
    requires IndexOk(jobs, aliases) && !IsBridge(k.jobType) && j in jobs && HasKey(j, k)
    ensures FindPrimary(jobs, k) >= 0 && jobs[FindPrimary(jobs, k)] == j
  {
  }

  lemma {:induction false} NoPrimary(jobs: seq<JobKey>, k: IndexKey)
    requires forall j | j in jobs :: !HasKey(j, k)
    ensures FindPrimary(jobs, k) < 0
  {
  }

  lemma AliasIsUnique(jobs: seq<JobKey>, aliases: seq<Alias>, a: Alias, k: IndexKey)
    requires IndexOk(jobs, aliases) && a in aliases && NamesKey(a, k)
    ensures FindPrimary(jobs, k) < 0 && FindAlias(aliases, k) >= 0 && aliases[FindAlias(aliases, k)] == a
    ensures Bound(jobs, aliases, k) >= 0 && jobs[Bound(jobs, aliases, k)].id == a.jobId
  {
    var n :| 0 <= n < |aliases| && aliases[n] == a;
    var i := FindAlias(aliases, k);
    assert !(i < n) && !(n < i);
    assert k == IndexKey(a.teamId, a.jobType, a.digest);
    NoPrimary(jobs, k);
  }

  // ---------- What the index operations do to the map ----------

  /** Enqueueing under an unbound key binds that key to the new job, and no other. */
  lemma EnqueueBindsOneKey(jobs: seq<JobKey>, aliases: seq<Alias>, job: JobKey)
    requires IndexOk(jobs, aliases) && !IsBridge(job.jobType) && (forall j | j in jobs :: j.id != job.id)
    requires Bound(jobs, aliases, IndexKey(job.teamId, job.jobType, job.digest)) < 0
    ensures IndexOk([job] + jobs, aliases)
    ensures forall k: IndexKey, id: string :: Names([job] + jobs, aliases, k, id) <==> Names(jobs, aliases, k, id) || (HasKey(job, k) && id == job.id)
  {
  }

  /** Attaching an alias for an unbound key binds that key to its job, and no other. */
  lemma AttachBindsOneKey(jobs: seq<JobKey>, aliases: seq<Alias>, a: Alias)
    requires IndexOk(jobs, aliases) && !IsBridge(a.jobType)
    requires exists j | j in jobs :: j.id == a.jobId && j.teamId == a.teamId && j.jobType == a.jobType
    requires FindPrimary(jobs, IndexKey(a.teamId, a.jobType, a.digest)) < 0
    requires FindAlias(aliases, IndexKey(a.teamId, a.jobType, a.digest)) < 0
    ensures IndexOk(jobs, [a] + aliases)
    ensures forall k: IndexKey, id: string :: Names(jobs, [a] + aliases, k, id) <==> Names(jobs, aliases, k, id) || (NamesKey(a, k) && id == a.jobId)
  {
  }

  /** A bridge job joins without touching the generic index. */
  lemma BridgeBindsNoKey(jobs: seq<JobKey>, aliases: seq<Alias>, job: JobKey)
    requires IndexOk(jobs, aliases) && IsBridge(job.jobType) && (forall j | j in jobs :: j.id != job.id)
    ensures IndexOk(jobs + [job], aliases)
    ensures forall k: IndexKey, id: string | !IsBridge(k.jobType) :: Names(jobs + [job], aliases, k, id) <==> Names(jobs, aliases, k, id)
  {
  }

  // ---------- Index histories ----------

  datatype Index = Index(jobs: seq<JobKey>, aliases: seq<Alias>)

  predicate MayEnqueue(x: Index, job: JobKey) {
    && !IsBridge(job.jobType) && (forall j | j in x.jobs :: j.id != job.id)
    && Bound(x.jobs, x.aliases, IndexKey(job.teamId, job.jobType, job.digest)) < 0
  }

  predicate MayAttach(x: Index, a: Alias) {
    && !IsBridge(a.jobType)
    && (exists j | j in x.jobs :: j.id == a.jobId && j.teamId == a.teamId && j.jobType == a.jobType)
    && FindPrimary(x.jobs, IndexKey(a.teamId, a.jobType, a.digest)) < 0
    && FindAlias(x.aliases, IndexKey(a.teamId, a.jobType, a.digest)) < 0
  }

  predicate MayRegister(x: Index, job: JobKey) { IsBridge(job.jobType) && forall j | j in x.jobs :: j.id != job.id }

  /** One operation on the index; jobs are never removed. */
  ghost predicate IndexStep(x: Index, y: Index) {
    || y == x
    || (exists job :: MayEnqueue(x, job) && y == Index([job] + x.jobs, x.aliases))
    || (exists a :: MayAttach(x, a) && y == Index(x.jobs, [a] + x.aliases))
    || (exists job :: MayRegister(x, job) && y == Index(x.jobs + [job], x.aliases))
  }

  ghost predicate IndexHistory(states: seq<Index>) {
    && states != [] && states[0] == Index([], [])
    && forall i | 0 < i < |states| :: IndexStep(states[i - 1], states[i])
  }

  lemma StepKeepsBindings(x: Index, y: Index)
    requires IndexOk(x.jobs, x.aliases) && IndexStep(x, y)
    ensures IndexOk(y.jobs, y.aliases)
    ensures forall k: IndexKey, id: string | !IsBridge(k.jobType) ::
      Names(x.jobs, x.aliases, k, id) ==> Names(y.jobs, y.aliases, k, id)
  {
    hide IndexOk, Names, Bound, FindPrimary, FindAlias;
    if job :| MayEnqueue(x, job) && y == Index([job] + x.jobs, x.aliases) {
      EnqueueBindsOneKey(x.jobs, x.aliases, job);
    } else if a :| MayAttach(x, a) && y == Index(x.jobs, [a] + x.aliases) {
      AttachBindsOneKey(x.jobs, x.aliases, a);
    } else if job :| MayRegister(x, job) && y == Index(x.jobs + [job], x.aliases) {
      BridgeBindsNoKey(x.jobs, x.aliases, job);
    }
  }

  lemma {:induction false} HistoryIsOk(states: seq<Index>, i: nat)
    requires IndexHistory(states) && i < |states|
    ensures IndexOk(states[i].jobs, states[i].aliases)
  {
    hide IndexStep;
    if i > 0 {
      HistoryIsOk(states, i - 1);
      StepKeepsBindings(states[i - 1], states[i]);
    }
  }

  /** A key that is bound once stays bound, and to the same job, through every later operation. */
  lemma {:induction false} BoundKeyNeverMoves(states: seq<Index>, i: nat, j: nat, k: IndexKey, id: string)
    requires IndexHistory(states) && i <= j < |states| && !IsBridge(k.jobType)
    requires Names(states[i].jobs, states[i].aliases, k, id)
    ensures var x := states[j]; var n := Bound(x.jobs, x.aliases, k); n >= 0 && x.jobs[n].id == id
    decreases j
  {
    hide IndexStep, Bound;
    if i < j {
      BoundKeyNeverMoves(states, i, j - 1, k, id);
      HistoryIsOk(states, j - 1);
      LookupIsTheMap(states[j - 1].jobs, states[j - 1].aliases, k, id);
      StepKeepsBindings(states[j - 1], states[j]);
    }
    HistoryIsOk(states, j);
    LookupIsTheMap(states[j].jobs, states[j].aliases, k, id);
  }
}
