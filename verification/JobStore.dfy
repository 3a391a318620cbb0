/** The job objects and the store arrays that `agent-jobs.ts` updates in place. */
module JobStore {
  import opened Prelude
  import opened Values
  import opened AgentJobs

  class AgentJob {
    const id: string
    const teamId: string
    const ownerId: string
    const jobType: string
    const parentJobId: string
    const digest: Digest
    var status: JobStatus
    var attemptCount: nat
    var maxAttempts: nat
    var nextAttemptAt: Option<Time>
    var startedAt: Option<Time>
    var finishedAt: Option<Time>
    var errorCode: string
    var output: Option<Value>

    function State(): JobState
      reads this
    {
      JobState(status, attemptCount, maxAttempts, nextAttemptAt, startedAt, finishedAt, errorCode, output)
    }

    function Key(): JobKey { JobKey(id, teamId, jobType, digest) }

    constructor (id: string, teamId: string, ownerId: string, jobType: string, parentJobId: string, digest: Digest,
                 maxAttempts: Option<int>, now: Time)
      ensures Key() == JobKey(id, teamId, jobType, digest) && this.ownerId == ownerId && this.parentJobId == parentJobId
      ensures State() == NewJob(maxAttempts, now)
    {
      this.id, this.teamId, this.ownerId, this.jobType, this.parentJobId, this.digest := id, teamId, ownerId, jobType, parentJobId, digest;
      status, attemptCount := Queued, 0;
      this.maxAttempts := Clamp(1, 10, if maxAttempts.Some? then maxAttempts.value else 3);
      nextAttemptAt, startedAt, finishedAt := Some(now), None, None;
      errorCode, output := "", None;
    }

    /** `startAgentJob` */
    method Start(now: Time) returns (ok: bool)
      modifies this
      ensures ok <==> !IsBridge(jobType) && Started(old(State()), now).Some?
      ensures State() == if ok then Started(old(State()), now).value else old(State())
    {
      if IsBridge(jobType) { return false; }
      if status != Queued && status != RetryScheduled { return false; }
      if status == RetryScheduled {
        if nextAttemptAt.None? { return false; }
        if nextAttemptAt.value > now { return false; }
      }
      status := Running;
      attemptCount := attemptCount + 1;
      startedAt, finishedAt, nextAttemptAt := Some(now), None, None;
      errorCode := "";
      return true;
    }

    /** `completeAgentJob` */
    method Complete(result: Value, now: Time) returns (ok: bool)
      modifies this
      ensures ok <==> !IsBridge(jobType) && Completed(old(State()), result, now).Some?
      ensures State() == if ok then Completed(old(State()), result, now).value else old(State())
    {
      if IsBridge(jobType) || status != Running { return false; }
      output, status, finishedAt, errorCode := Some(result), Succeeded, Some(now), "";
      return true;
    }

    /** `failAgentJob` */
    method Fail(code: string, retry: RetryAt, now: Time) returns (ok: bool)
      modifies this
      ensures ok <==> !IsBridge(jobType) && AfterFailure(old(State()), code, retry, now).Some?
      ensures State() == if ok then AfterFailure(old(State()), code, retry, now).value else old(State())
    {
      hide Trim, ErrorCodeOf;
      if IsBridge(jobType) || status != Running { return false; }
      if retry.InvalidTime? { return false; }
      errorCode := ErrorCodeOf(code);
      if retry.At? && attemptCount < maxAttempts {
        status, nextAttemptAt, finishedAt := RetryScheduled, Some(retry.time), None;
      } else {
        status := if attemptCount >= maxAttempts then DeadLetter else JobStatus.Failed;
        nextAttemptAt, finishedAt := None, Some(now);
      }
      return true;
    }

    /** `retryAgentJob` */
    method Retry(now: Time) returns (ok: bool)
      modifies this
      ensures ok <==> !IsBridge(jobType) && Requeued(old(State()), now).Some?
      ensures State() == if ok then Requeued(old(State()), now).value else old(State())
    {
      if IsBridge(jobType) || (status != JobStatus.Failed && status != DeadLetter) { return false; }
      if status == DeadLetter && attemptCount >= maxAttempts {
        maxAttempts := Clamp(0, 10, attemptCount + 1);
      }
      status, nextAttemptAt, finishedAt, errorCode := Queued, Some(now), None, "";
      return true;
    }

    /** `cancelAgentJob` */
    method Cancel(now: Time) returns (ok: bool)
      modifies this
      ensures ok <==> !IsBridge(jobType) && AfterCancel(old(State()), now).Some?
      ensures State() == if ok then AfterCancel(old(State()), now).value else old(State())
    {
      if IsBridge(jobType) || (status != Queued && status != Running && status != RetryScheduled) { return false; }
      status, nextAttemptAt, finishedAt, errorCode := Cancelled, None, Some(now), "CANCELLED_BY_USER";
      return true;
    }
  }

  function Keys(jobs: seq<AgentJob>): (keys: seq<JobKey>)
    ensures |keys| == |jobs| && forall i | 0 <= i < |keys| :: keys[i] == jobs[i].Key()
  {
    seq(|jobs|, i requires 0 <= i < |jobs| => jobs[i].Key())
  }

  datatype JobError = NotGeneric | NoSuchJob | NoKey | KeyTaken | NoOwner | BadType | BadOwner | BadParent

  datatype User = User(id: string, teamId: string, active: bool)

  datatype JobRequest = JobRequest(
    teamId: string, ownerId: string, jobType: string, parentJobId: string, idempotencyKey: string, maxAttempts: Option<int>)

  predicate IsTypeName(s: string) {
    && 3 <= |s| <= 80
    && forall c | c in s :: IsDigit(c) || 'a' <= c <= 'z' || 'A' <= c <= 'Z' || c == '.' || c == '_' || c == '-'
  }

  /** The index key a request asks for. */
  function RequestKey(r: JobRequest): IndexKey { IndexKey(Trim(r.teamId), Trim(r.jobType), Digest(Trim(r.idempotencyKey))) }

  predicate WellFormedRequest(r: JobRequest, users: seq<User>) {
    && Trim(r.teamId) != "" && Trim(r.ownerId) != "" && IsTypeName(Trim(r.jobType)) && !IsBridge(Trim(r.jobType))
    && Trim(r.idempotencyKey) != ""
    && OwnerOk(users, Trim(r.ownerId), Trim(r.teamId))
  }

  /** Why a request is turned down before any job is looked up, in the order of the checks. */
  function Refusal(r: JobRequest, users: seq<User>): (e: Option<JobError>)
    ensures e.None? <==> WellFormedRequest(r, users)
    ensures e.None? ==> RequestKey(r).teamId != "" && RequestKey(r).jobType != "" && RequestKey(r).digest.key != ""
    ensures e.None? ==> !IsBridge(RequestKey(r).jobType)
  {
    if Trim(r.teamId) == "" || Trim(r.ownerId) == "" then Some(NoOwner)
    else if !IsTypeName(Trim(r.jobType)) then Some(BadType)
    else if IsBridge(Trim(r.jobType)) then Some(NotGeneric)
    else if Trim(r.idempotencyKey) == "" then Some(NoKey)
    else if !OwnerOk(users, Trim(r.ownerId), Trim(r.teamId)) then Some(BadOwner)
    else None
  }

  /** The first active user with this id belongs to the team. */
  predicate OwnerOk(users: seq<User>, ownerId: string, teamId: string) {
    users != []
    && (if users[0].id == ownerId && users[0].active then users[0].teamId == teamId else OwnerOk(users[1..], ownerId, teamId))
  }

  function FirstById(jobs: seq<JobKey>, id: string): (i: int)
    ensures -1 <= i < |jobs|
  {
    if jobs == [] then -1
    else if jobs[0].id == id then 0
    else
      var i := FirstById(jobs[1..], id);
      if i < 0 then -1 else i + 1
  }

  predicate ParentOk(jobs: seq<JobKey>, parentJobId: string, teamId: string) {
    parentJobId == "" || (FirstById(jobs, parentJobId) >= 0 && jobs[FirstById(jobs, parentJobId)].teamId == teamId)
  }

  class JobStore {
    var users: seq<User>
    var jobs: seq<AgentJob>
    var aliases: seq<Alias>

    ghost predicate Valid()
      reads this
    {
      IndexOk(Keys(jobs), aliases)
    }

    constructor (users: seq<User>)
      ensures Valid() && jobs == [] && aliases == []
    {
      this.users, jobs, aliases := users, [], [];
    }

    /** `findAgentJobByIdempotency` */
    method FindByIdempotency(teamId: string, jobType: string, idempotencyKey: string) returns (r: AgentJob?)
      ensures var k := IndexKey(Trim(teamId), Trim(jobType), Digest(Trim(idempotencyKey)));
        if k.teamId == "" || k.jobType == "" || k.digest.key == "" || IsBridge(k.jobType) || Bound(Keys(jobs), aliases, k) < 0
        then r == null
        else r == jobs[Bound(Keys(jobs), aliases, k)]
    {
      var k := IndexKey(Trim(teamId), Trim(jobType), Digest(Trim(idempotencyKey)));
      if k.teamId == "" || k.jobType == "" || k.digest.key == "" { return null; }
      if IsBridge(k.jobType) { return null; }
      var primary := FindPrimary(Keys(jobs), k);
      if primary >= 0 { return jobs[primary]; }
      var i := FindAlias(aliases, k);
      if i < 0 { return null; }
      var j := FindJob(Keys(jobs), aliases[i].jobId, k.teamId, k.jobType);
      return if j < 0 then null else jobs[j];
    }

    /** `attachAgentJobIdempotencyAlias`; the answer says whether the key was bound to the job before. */
    method Attach(job: AgentJob, rawKey: string) returns (r: Result<bool, JobError>)
      requires Valid()
      modifies this`aliases
      ensures Valid()
      ensures var k := IndexKey(job.teamId, job.jobType, Digest(Trim(rawKey)));
        var known := FindJob(Keys(jobs), job.id, job.teamId, job.jobType) >= 0;
        var bound := Bound(Keys(jobs), old(aliases), k);
        r.Ok? <==> (!IsBridge(job.jobType) && known && Trim(rawKey) != ""
                    && (job.digest == k.digest || bound < 0 || Keys(jobs)[bound].id == job.id))
      ensures r == Ok(false) <==> aliases != old(aliases)
      ensures r == Ok(false) ==>
        aliases == [Alias(job.id, job.teamId, job.jobType, Digest(Trim(rawKey)))] + old(aliases)
      ensures r == Ok(false) ==> forall k: IndexKey, id: string ::
        Names(Keys(jobs), aliases, k, id)
        <==> Names(Keys(jobs), old(aliases), k, id)
             || (k == IndexKey(job.teamId, job.jobType, Digest(Trim(rawKey))) && id == job.id)
    {
      var keys := Keys(jobs);
      if IsBridge(job.jobType) { return Err(NotGeneric); }
      var known := FindJob(keys, job.id, job.teamId, job.jobType);
      if known < 0 { return Err(NoSuchJob); }
      var key := Trim(rawKey);
      if key == "" { return Err(NoKey); }
      var k := IndexKey(job.teamId, job.jobType, Digest(key));
      if job.digest == k.digest { return Ok(true); }
      var primary := FindPrimary(keys, k);
      if primary >= 0 {
        if keys[primary].id == job.id { return Ok(true); }
        return Err(KeyTaken);
      }
      var existing := FindAlias(aliases, k);
      if existing >= 0 {
        AliasIsUnique(keys, aliases, aliases[existing], k);
        if aliases[existing].jobId == job.id { return Ok(true); }
        return Err(KeyTaken);
      }
      var alias := Alias(job.id, job.teamId, job.jobType, k.digest);
      assert keys[known] in keys;
      AttachBindsOneKey(keys, aliases, alias);
      assert |[alias] + aliases| == |aliases| + 1;
      aliases := [alias] + aliases;
      return Ok(false);
    }

    /** The new job goes to the front of the list. */
    method Add(request: JobRequest, id: string, now: Time) returns (job: AgentJob)
      requires Valid() && (forall j | j in Keys(jobs) :: j.id != id)
      requires !IsBridge(Trim(request.jobType)) && Bound(Keys(jobs), aliases, RequestKey(request)) < 0
      modifies this`jobs
      ensures Valid() && fresh(job) && jobs == [job] + old(jobs)
      ensures job.State() == NewJob(request.maxAttempts, now) && job.id == id
      ensures forall k: IndexKey, i: string ::
        Names(Keys(jobs), aliases, k, i) <==> Names(old(Keys(jobs)), aliases, k, i) || (k == RequestKey(request) && i == id)
    {
      hide IndexOk, Names, Bound, Trim;
      var k := RequestKey(request);
      var keys := Keys(jobs);
      job := new AgentJob(id, k.teamId, Trim(request.ownerId), k.jobType, request.parentJobId, k.digest, request.maxAttempts, now);
      EnqueueBindsOneKey(keys, aliases, job.Key());
      jobs := [job] + jobs;
      assert Keys(jobs) == [job.Key()] + keys;
    }

    /** `enqueueAgentJob`; the answer holds the job and whether it was there before. */
    method Enqueue(request: JobRequest, id: string, now: Time) returns (r: Result<(AgentJob, bool), JobError>)
      requires Valid() && forall j | j in Keys(jobs) :: j.id != id
      modifies this`jobs
      ensures Valid()
      ensures r.Ok? <==> (WellFormedRequest(request, users)
                          && (Bound(old(Keys(jobs)), aliases, RequestKey(request)) >= 0
                              || ParentOk(old(Keys(jobs)), request.parentJobId, Trim(request.teamId))))
      ensures r.Err? ==> jobs == old(jobs)
      ensures r.Ok? ==> (r.value.1 <==> Bound(old(Keys(jobs)), aliases, RequestKey(request)) >= 0)
      ensures r.Ok? && r.value.1 ==>
        jobs == old(jobs) && r.value.0 == jobs[Bound(Keys(jobs), aliases, RequestKey(request))]
      ensures r.Ok? && !r.value.1 ==>
        && fresh(r.value.0) && jobs == [r.value.0] + old(jobs)
        && r.value.0.State() == NewJob(request.maxAttempts, now) && r.value.0.id == id
      ensures r.Ok? && !r.value.1 ==> forall k: IndexKey, i: string ::
        Names(Keys(jobs), aliases, k, i) <==> Names(old(Keys(jobs)), aliases, k, i) || (k == RequestKey(request) && i == id)
    {
      hide IndexOk, Names, Bound, Trim, ParentOk, WellFormedRequest, NewJob;
      var refusal := Refusal(request, users);
      if refusal.Some? { return Err(refusal.value); }
      TrimTwice(request.teamId);
      TrimTwice(request.jobType);
      TrimTwice(request.idempotencyKey);
      var existing := FindByIdempotency(Trim(request.teamId), Trim(request.jobType), Trim(request.idempotencyKey));
      if existing != null { return Ok((existing, true)); }
      if !ParentOk(Keys(jobs), request.parentJobId, Trim(request.teamId)) { return Err(BadParent); }
      var job := Add(request, id, now);
      return Ok((job, false));
    }

    /** `recoverInterruptedAgentJobs` */
    method RecoverInterrupted(jobType: string, now: Time) returns (recovered: int)
      requires Valid()
      modifies jobs
      ensures recovered < 0 <==> IsBridge(jobType)
      ensures jobs == old(jobs)
      ensures forall j | j in jobs ::
        j.State() == (if !IsBridge(jobType) && j.jobType == jobType then Interrupted(old(j.State()), now) else old(j.State()))
    {
      if IsBridge(jobType) { return -1; }
      recovered := 0;
      for i := 0 to |jobs|
        invariant recovered >= 0
        invariant forall n | 0 <= n < i ::
          jobs[n].State() == if jobs[n].jobType == jobType then Interrupted(old(jobs[n].State()), now) else old(jobs[n].State())
        invariant forall n | i <= n < |jobs| :: jobs[n].State() == old(jobs[n].State())
      {
        var job := jobs[i];
        OtherJobs(jobs, i);
        if job.jobType == jobType && job.status == Running {
          job.status, job.nextAttemptAt, job.finishedAt := JobStatus.Failed, None, Some(now);
          job.errorCode := "EXECUTION_INTERRUPTED";
          recovered := recovered + 1;
        }
      }
    }
  }

  lemma OtherJobs(jobs: seq<AgentJob>, i: nat)
    requires i < |jobs| && forall m, n :: 0 <= m < n < |jobs| ==> Keys(jobs)[m].id != Keys(jobs)[n].id
    ensures forall n | 0 <= n < |jobs| && n != i :: jobs[n] != jobs[i]
  {
    forall n | 0 <= n < |jobs| && n != i
      ensures jobs[n] != jobs[i]
    {
      assert Keys(jobs)[n].id != Keys(jobs)[i].id;
    }
  }

  /** Trimming what is trimmed changes nothing. */
  lemma TrimTwice(s: string)
    ensures Trim(Trim(s)) == Trim(s)
  {
  }
}
