/** The records that `customer-public-pool.ts` updates in place. */
module PoolStore {
  import opened Prelude
  import opened Values
  import opened CustomerPool

  class Customer {
    const id: string
    const teamId: string
    var ownerId: string
    var pool: Pool
    var version: nat
    var previousOwnerId: string
    var releasedBy: string
    var releasedAt: Option<Time>
    var releaseReason: string
    var claimedAt: Option<Time>

    function State(): Ownership
      reads this
    {
      Ownership(ownerId, pool, version, previousOwnerId, releasedBy, releasedAt, releaseReason, claimedAt)
    }

    constructor (id: string, teamId: string, first: Ownership)
      ensures State() == first && this.id == id && this.teamId == teamId
    {
      this.id, this.teamId := id, teamId;
      ownerId, pool, version, previousOwnerId := first.ownerId, first.pool, first.version, first.previousOwnerId;
      releasedBy, releasedAt, releaseReason, claimedAt := first.releasedBy, first.releasedAt, first.releaseReason, first.claimedAt;
    }
  }

  datatype TodoState = TodoState(done: bool, pending: bool, historyAt: Option<Time>, cancelledAt: Option<Time>, reason: string)

  class Todo {
    const id: string
    const customerId: string
    var done: bool
    var pending: bool
    var historyAt: Option<Time>
    var cancelledAt: Option<Time>
    var reason: string

    function State(): TodoState
      reads this
    {
      TodoState(done, pending, historyAt, cancelledAt, reason)
    }

    method Close(why: string, now: Time)
      requires IsOpen(State())
      modifies this
      ensures State() == ClosedTodo(old(State()), why, now)
    {
      done, pending, historyAt, cancelledAt := true, true, Some(now), Some(now);
      reason := RELEASED + why;
    }

    constructor (id: string, customerId: string)
      ensures State() == TodoState(false, true, None, None, "") && this.id == id && this.customerId == customerId
    {
      this.id, this.customerId := id, customerId;
      done, pending, historyAt, cancelledAt, reason := false, true, None, None, "";
    }
  }

  predicate IsOpen(t: TodoState) { !t.done && t.cancelledAt.None? }

  const RELEASED: string := "客户已释放到团队公池："

  /** What a release makes of a todo of the customer. */
  function ClosedTodo(t: TodoState, reason: string, now: Time): TodoState {
    if IsOpen(t) then TodoState(true, true, Some(now), Some(now), RELEASED + reason) else t
  }

  datatype Deal = Deal(customerId: string, archived: bool, won: bool, lost: bool)

  predicate HasActiveDeal(deals: seq<Deal>, customerId: string) {
    exists d | d in deals :: d.customerId == customerId && !d.archived && !d.won && !d.lost
  }

  ghost function StatesOf(customers: seq<Customer>): map<string, Ownership>
    reads customers
  {
    if customers == [] then map[] else StatesOf(customers[1..])[customers[0].id := customers[0].State()]
  }

  lemma {:induction false} StatesById(customers: seq<Customer>)
    requires forall i, j | 0 <= i < j < |customers| :: customers[i].id != customers[j].id
    ensures forall c | c in customers :: c.id in StatesOf(customers) && StatesOf(customers)[c.id] == c.State()
  {
    if customers != [] {
      var rest := customers[1..];
      assert forall i | 0 <= i < |rest| :: rest[i] == customers[i + 1];
      StatesById(rest);
    }
  }

  class PoolStore {
    var customers: seq<Customer>
    var deals: seq<Deal>
    var todos: seq<Todo>
    var events: seq<OwnershipEvent>
    ghost var firsts: map<string, Ownership>   // how each customer was when the store was opened

    predicate DistinctCustomers()
      reads this
    {
      forall i, j | 0 <= i < j < |customers| :: customers[i].id != customers[j].id
    }

    /** The events of each customer, picked from those of all, tell how it came to its present state. */
    ghost predicate Valid()
      reads this, customers
    {
      && DistinctCustomers()
      && forall c | c in customers :: c.id in firsts && StoryOk(firsts[c.id], Story(c.State(), OfCustomer(events, c.id)))
    }

    constructor (customers: seq<Customer>, deals: seq<Deal>, todos: seq<Todo>)
      ensures this.customers == customers && this.deals == deals && this.todos == todos && events == []
      ensures DistinctCustomers() ==> Valid()
      ensures DistinctCustomers() ==> forall c | c in customers :: c.id in firsts && firsts[c.id] == c.State()
    {
      this.customers, this.deals, this.todos, events := customers, deals, todos, [];
      firsts := StatesOf(customers);
      new;
      if DistinctCustomers() {
        StatesById(customers);
      }
    }

    method FindCustomer(id: string) returns (c: Customer?)
      ensures c == null <==> forall d | d in customers :: d.id != id
      ensures c != null ==> exists i ::
        0 <= i < |customers| && c == customers[i] && c.id == id && forall j | 0 <= j < i :: customers[j].id != id
    {
      for i := 0 to |customers|
        invariant forall j | 0 <= j < i :: customers[j].id != id
      {
        if customers[i].id == id { return customers[i]; }
      }
      return null;
    }

    /** The part of a release that closes the customer's open todos; the answer lists them in order. */
    method CloseTodos(customerId: string, reason: string, now: Time) returns (closed: seq<string>)
      modifies todos
      ensures forall t | t in todos ::
        t.State() == (if t.customerId == customerId then ClosedTodo(old(t.State()), reason, now) else old(t.State()))
      ensures forall t | t in todos && IsOpen(old(t.State())) && t.customerId == customerId :: t.id in closed
      ensures forall id | id in closed :: exists t | t in todos :: t.id == id && t.customerId == customerId
    {
      closed := [];
      for i := 0 to |todos|
        invariant forall t | t in todos && t !in todos[..i] :: t.State() == old(t.State())
        invariant forall t | t in todos[..i] ::
          t.State() == (if t.customerId == customerId then ClosedTodo(old(t.State()), reason, now) else old(t.State()))
        invariant forall t | t in todos[..i] && IsOpen(old(t.State())) && t.customerId == customerId :: t.id in closed
        invariant forall id | id in closed :: exists t | t in todos :: t.id == id && t.customerId == customerId
      {
        var todo := todos[i];
        assert todos[..i + 1] == todos[..i] + [todo];
        if todo.customerId == customerId && !todo.done && todo.cancelledAt.None? {
          todo.Close(reason, now);
          closed := closed + [todo.id];
        }
      }
      assert todos[..|todos|] == todos;
    }

    /** `mutateCustomerOwnershipMemory` on the customer found. */
    method Mutate(c: Customer, r: Request, eventId: string) returns (refusal: Option<PoolError>, closed: seq<string>)
      requires r.customerId == c.id
      modifies this`events, c, todos
      ensures refusal == Refusal(old(c.State()), c.teamId, HasActiveDeal(deals, c.id), r)
      ensures refusal.Some? ==> c.State() == old(c.State()) && events == old(events)
      ensures refusal.None? ==>
        && c.State() == Mutated(old(c.State()), r)
        && events == [EventOf(old(c.State()), c.teamId, r, eventId)] + old(events)
      ensures refusal.None? && r.action.Release? ==> forall t | t in todos && t.customerId == c.id :: !IsOpen(t.State())
      ensures refusal.None? && r.action.Release? ==> forall t | t in todos ::
        t.State() == (if t.customerId == c.id then ClosedTodo(old(t.State()), Trim(r.reason), r.occurredAt.value) else old(t.State()))
      ensures refusal.Some? || r.action.Claim? ==> closed == [] && forall t | t in todos :: t.State() == old(t.State())
    {
      hide Trim, HasActiveDeal;
      closed := [];
      refusal := Refusal(c.State(), c.teamId, HasActiveDeal(deals, c.id), r);
      if refusal.Some? { return; }
      var now := r.occurredAt.value;
      var formerOwnerId := c.ownerId;
      var event := EventOf(c.State(), c.teamId, r, eventId);
      if r.action.Release? {
        c.ownerId, c.pool, c.previousOwnerId, c.releasedBy := "", Public, formerOwnerId, r.actorId;
        c.releasedAt, c.releaseReason, c.claimedAt := Some(now), event.reason, None;
        closed := CloseTodos(c.id, event.reason, now);
      } else {
        c.ownerId, c.pool, c.claimedAt := r.actorId, Owned, Some(now);
      }
      c.version := c.version + 1;
      events := [event] + events;
    }

    /** `mutateCustomerOwnershipMemory`: every customer's events go on telling how it came to its state. */
    method MutateOwnership(r: Request, eventId: string) returns (refusal: Option<PoolError>, closed: seq<string>)
      modifies this`events, customers, todos
      ensures old(Valid()) ==> Valid()
      ensures firsts == old(firsts) && customers == old(customers)
      ensures refusal == Some(CustomerNotFound) <==> forall c | c in customers :: c.id != r.customerId
      ensures refusal.Some? ==> events == old(events) && forall c | c in customers :: c.State() == old(c.State())
      ensures refusal.None? ==> exists c | c in customers && c.id == r.customerId && r.occurredAt.Some? ::
        c.State() == Mutated(old(c.State()), r) && events == [EventOf(old(c.State()), c.teamId, r, eventId)] + old(events)
      ensures forall c | c in customers && c.id != r.customerId :: c.State() == old(c.State())
    {
      hide Refusal, Mutated, EventOf, StoryOk, OfCustomer, HasActiveDeal;
      var c := FindCustomer(r.customerId);
      if c == null { return Some(CustomerNotFound), []; }
      ghost var was, activeDeal := c.State(), HasActiveDeal(deals, c.id);
      ghost var valid, before := Valid(), events;
      refusal, closed := Mutate(c, r, eventId);
      KnownRefusal(was, c.teamId, activeDeal, r);
      if refusal.None? {
        if valid {
          OneMoreEvent(firsts[c.id], was, before, c.teamId, Attempt(r, activeDeal, eventId));
        }
      }
    }
  }

  lemma KnownRefusal(c: Ownership, teamId: string, activeDeal: bool, r: Request)
    ensures Refusal(c, teamId, activeDeal, r) != Some(CustomerNotFound)
    ensures Refusal(c, teamId, activeDeal, r).None? ==> r.occurredAt.Some?
  {
  }
}
