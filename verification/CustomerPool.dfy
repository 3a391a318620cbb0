/** Customer ownership as a versioned state machine whose events tell the whole story. */
module CustomerPool {
  import opened Prelude
  import opened Values

  type Time = int

  datatype Pool = Owned | Public

  datatype Ownership = Ownership(
    ownerId: string,
    pool: Pool,
    version: nat,
    previousOwnerId: string,
    releasedBy: string,
    releasedAt: Option<Time>,
    releaseReason: string,
    claimedAt: Option<Time>)

  datatype Action = Release | Claim

  datatype Role = Sales | Manager | Admin | SuperAdmin

  datatype Authorization = Authorization(canRelease: bool, canClaim: bool)

  datatype Request = Request(
    action: Action,
    customerId: string,
    actorId: string,
    actorRole: Role,
    actorTeamId: string,
    reason: string,
    expectedVersion: Option<int>,
    occurredAt: Option<Time>,   // empty when the date cannot be read
    authorization: Option<Authorization>)

  datatype OwnershipEvent = OwnershipEvent(
    id: string,
    customerId: string,
    teamId: string,
    fromOwnerId: string,
    toOwnerId: string,
    action: Action,
    reason: string,
    operatorId: string,
    createdAt: Time)

  datatype PoolError =
    | CustomerNotFound | VersionConflict | AlreadyPublic | ReleaseForbidden | ActiveDeal | ReasonMissing
    | OtherTeam | ClaimForbidden | AlreadyClaimed | InvalidDate

  const CLAIM_REASON: string := "从团队公池领取"

  // ---------- One mutation ----------

  /** `canReleaseCustomer` */
  predicate CanRelease(c: Ownership, teamId: string, r: Request) {
    match r.authorization
    case Some(a) => a.canRelease
    case None =>
      match r.actorRole
      case Sales => c.ownerId == r.actorId && teamId == r.actorTeamId
      case Manager => teamId == r.actorTeamId
      case Admin => teamId == r.actorTeamId
      case SuperAdmin => false
  }

  /** `assertCustomerOwnershipMutation` on the customer found, and the date that is read afterwards. */
  function Refusal(c: Ownership, teamId: string, activeDeal: bool, r: Request): Option<PoolError> {
    if r.expectedVersion.Some? && c.version != r.expectedVersion.value then Some(VersionConflict)
    else if r.action.Release? then
      if c.pool.Public? then Some(AlreadyPublic)
      else if !CanRelease(c, teamId, r) then Some(ReleaseForbidden)
      else if activeDeal then Some(ActiveDeal)
      else if Trim(r.reason) == "" then Some(ReasonMissing)
      else DateError(r)
    else if teamId != r.actorTeamId then Some(OtherTeam)
    else if r.authorization.Some? && !r.authorization.value.canClaim then Some(ClaimForbidden)
    else if r.authorization.None? && r.actorRole.SuperAdmin? then Some(ClaimForbidden)
    else if c.pool.Owned? then Some(AlreadyClaimed)
    else DateError(r)
  }

  function DateError(r: Request): Option<PoolError> { if r.occurredAt.None? then Some(InvalidDate) else None }

  function EventOf(c: Ownership, teamId: string, r: Request, eventId: string): OwnershipEvent
    requires r.occurredAt.Some?
  {
    OwnershipEvent(eventId, r.customerId, teamId, c.ownerId,
                   if r.action.Claim? then r.actorId else "", r.action,
                   if r.action.Release? then Trim(r.reason) else CLAIM_REASON, r.actorId, r.occurredAt.value)
  }

  function Mutated(c: Ownership, r: Request): Ownership
    requires r.occurredAt.Some?
  {
    if r.action.Release? then
      Ownership("", Public, c.version + 1, c.ownerId, r.actorId, r.occurredAt, Trim(r.reason), None)
    else
      c.(ownerId := r.actorId, pool := Owned, claimedAt := r.occurredAt, version := c.version + 1)
  }

  // ---------- Histories ----------

  /** A customer together with its events, newest first. */
  datatype Story = Story(now: Ownership, events: seq<OwnershipEvent>)

  /** A request and what it meets: whether a deal is active, and the id of its event. */
  datatype Attempt = Attempt(request: Request, activeDeal: bool, eventId: string)

  function Try(s: Story, teamId: string, a: Attempt): (t: Story)
  {
    if Refusal(s.now, teamId, a.activeDeal, a.request).Some? then s
    else Story(Mutated(s.now, a.request), [EventOf(s.now, teamId, a.request, a.eventId)] + s.events)
  }

  function After(first: Ownership, teamId: string, attempts: seq<Attempt>): Story {
    if attempts == [] then Story(first, [])
    else Try(After(first, teamId, attempts[..|attempts| - 1]), teamId, attempts[|attempts| - 1])
  }

  predicate Succeeds(first: Ownership, teamId: string, attempts: seq<Attempt>, i: nat)
    requires i < |attempts|
  {
    Refusal(After(first, teamId, attempts[..i]).now, teamId, attempts[i].activeDeal, attempts[i].request).None?
  }

  /** Owner and pool status as the events tell them, oldest first. */
  function Told(first: Ownership, events: seq<OwnershipEvent>): (string, Pool) {
    if events == [] then (first.ownerId, first.pool)
    else
      var before := Told(first, events[1..]);
      var e := events[0];
      if e.action.Release? then ("", Public) else (e.toOwnerId, Owned)
  }

  /** The events' chain: each takes the customer from where the one before left it, by turns. */
  predicate Chained(first: Ownership, events: seq<OwnershipEvent>) {
    && (forall i | 0 <= i < |events| - 1 ::
          events[i].fromOwnerId == events[i + 1].toOwnerId && events[i].action != events[i + 1].action)
    && (events != [] ==>
          events[|events| - 1].fromOwnerId == first.ownerId
          && (events[|events| - 1].action.Release? <==> first.pool.Owned?))
    && forall e | e in events :: e.action.Release? ==> e.toOwnerId == ""
  }

  predicate StoryOk(first: Ownership, s: Story) {
    && Told(first, s.events) == (s.now.ownerId, s.now.pool)
    && s.now.version == first.version + |s.events|
    && Chained(first, s.events)
    && (s.events != [] ==> s.events[0].toOwnerId == s.now.ownerId && (s.events[0].action.Release? <==> s.now.pool.Public?))
  }

  /** One customer's events among those of all customers. */
  function OfCustomer(events: seq<OwnershipEvent>, id: string): seq<OwnershipEvent> {
    if events == [] then []
    else if events[0].customerId == id then [events[0]] + OfCustomer(events[1..], id)
    else OfCustomer(events[1..], id)
  }

  lemma TryKeepsStory(first: Ownership, s: Story, teamId: string, a: Attempt)
    requires StoryOk(first, s)
    ensures StoryOk(first, Try(s, teamId, a))
  {
  }

  /** The same among the events of all customers: one more event of this one, and of no other. */
  lemma OneMoreEvent(first: Ownership, now: Ownership, events: seq<OwnershipEvent>, teamId: string, a: Attempt)
    requires StoryOk(first, Story(now, OfCustomer(events, a.request.customerId)))
    requires Refusal(now, teamId, a.activeDeal, a.request).None? && a.request.occurredAt.Some?
    ensures var e := EventOf(now, teamId, a.request, a.eventId);
      && StoryOk(first, Story(Mutated(now, a.request), OfCustomer([e] + events, a.request.customerId)))
      && forall id | id != a.request.customerId :: OfCustomer([e] + events, id) == OfCustomer(events, id)
  {
    hide StoryOk, Refusal, Mutated;
    var e := EventOf(now, teamId, a.request, a.eventId);
    assert ([e] + events)[1..] == events;
    TryKeepsStory(first, Story(now, OfCustomer(events, a.request.customerId)), teamId, a);
  }

  /**
   In every history, replaying the events reproduces owner and pool status, each event starts where
   the one before ended, releases and claims alternate, and the version has grown by their number.
   */
  lemma {:induction false} EveryHistoryTellsTheState(first: Ownership, teamId: string, attempts: seq<Attempt>)
    ensures StoryOk(first, After(first, teamId, attempts))
  {
    if attempts != [] {
      EveryHistoryTellsTheState(first, teamId, attempts[..|attempts| - 1]);
      TryKeepsStory(first, After(first, teamId, attempts[..|attempts| - 1]), teamId, attempts[|attempts| - 1]);
    }
  }

  lemma {:induction false} VersionGrows(first: Ownership, teamId: string, attempts: seq<Attempt>, i: nat, j: nat)
    requires i <= j <= |attempts|
    ensures var before, after := After(first, teamId, attempts[..i]).now, After(first, teamId, attempts[..j]).now;
      after.version >= before.version + if i < j && Succeeds(first, teamId, attempts, i) then 1 else 0
    decreases j
  {
    if i < j {
      assert attempts[..j][..j - 1] == attempts[..j - 1];
      VersionGrows(first, teamId, attempts, i, j - 1);
    }
  }

  /** Of all attempts expecting the same version at most one succeeds. */
  lemma OneSuccessPerVersion(first: Ownership, teamId: string, attempts: seq<Attempt>, i: nat, j: nat)
    requires i < j < |attempts|
    requires attempts[i].request.expectedVersion.Some?
    requires attempts[j].request.expectedVersion == attempts[i].request.expectedVersion
    ensures !(Succeeds(first, teamId, attempts, i) && Succeeds(first, teamId, attempts, j))
  {
    VersionGrows(first, teamId, attempts, i, j);
  }
}
