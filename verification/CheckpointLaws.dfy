/** What saving a run does to the checkpoints: the newest one holds the saved state, and the newest eighty stay. */
module CheckpointLaws {
  import opened Prelude
  import opened AgentTypes
  import opened Collections
  import opened Runs
  import opened RunStore

  function OwnOf(checkpoints: seq<Checkpoint>, runId: string): seq<Checkpoint> { Filter(CheckpointOfRun(runId), checkpoints) }

  predicate DistinctIds(checkpoints: seq<Checkpoint>) {
    forall i, j | 0 <= i < j < |checkpoints| :: checkpoints[i].id != checkpoints[j].id
  }

  function Ids(checkpoints: seq<Checkpoint>): set<string> { set c | c in checkpoints :: c.id }

  predicate IsNewest(c: Checkpoint, own: seq<Checkpoint>) {
    c in own && forall d | d in own :: d.createdAt <= c.createdAt
  }

  // ---------- Newest first ----------

  lemma FirstIsNewest(own: seq<Checkpoint>)
    requires own != []
    ensures IsNewest(SortBy(NewestFirst(), own)[0], own)
  {
    var sorted := SortBy(NewestFirst(), own);
    SortBySorts(NewestFirst(), own);
    assert sorted[0] in sorted;
    forall d | d in own
      ensures d.createdAt <= sorted[0].createdAt
    {
      var j :| 0 <= j < |sorted| && sorted[j] == d;
      assert NewestFirst()(sorted[0]) <= NewestFirst()(sorted[j]);
    }
  }

  lemma StrictlyNewestIsFirst(own: seq<Checkpoint>, c: Checkpoint)
    requires c in own && forall d | d in own && d != c :: d.createdAt < c.createdAt
    ensures SortBy(NewestFirst(), own)[0] == c
  {
    FirstIsNewest(own);
  }

  // ---------- The newest checkpoint holds the saved state ----------

  function HashOf(snapshot: Snapshot): StateHash { StateHash(snapshot.run, snapshot.steps, EventIds(snapshot.events)) }

  /** After every save the newest checkpoint of the run holds the state saved, be it an old or a new one. */
  lemma NewestHoldsTheState(checkpoints: seq<Checkpoint>, run: Run, snapshot: Snapshot, tick: Tick) returns (c: Checkpoint)
    ensures IsNewest(c, OwnOf(WithCheckpoint(checkpoints, run, snapshot, tick), run.id)) && c.stateHash == HashOf(snapshot)
  {
    hide KeepNewest;
    var own, after := OwnOf(checkpoints, run.id), WithCheckpoint(checkpoints, run, snapshot, tick);
    var sorted := SortBy(NewestFirst(), own);
    if sorted != [] && sorted[0].stateHash == HashOf(snapshot) {
      c := sorted[0];
      FirstIsNewest(own);
    } else {
      c := Added(checkpoints, run, snapshot, tick);
      AddedIsKept(checkpoints, c, run.id);
    }
  }

  /** The checkpoint a save adds when the newest one holds another state. */
  function Added(checkpoints: seq<Checkpoint>, run: Run, snapshot: Snapshot, tick: Tick): (c: Checkpoint)
    ensures c.runId == run.id && forall d | d in OwnOf(checkpoints, run.id) :: d.createdAt < c.createdAt
  {
    var latest := LatestTime(SortBy(NewestFirst(), OwnOf(checkpoints, run.id)));
    Checkpoint(tick.checkpointId, run.id, run.ownerId, run.teamId, HashOf(snapshot), snapshot,
               if tick.now > latest + 1 then tick.now else latest + 1)
  }

  lemma AddedIsKept(checkpoints: seq<Checkpoint>, c: Checkpoint, runId: string)
    requires c.runId == runId && forall d | d in OwnOf(checkpoints, runId) :: d.createdAt < c.createdAt
    ensures IsNewest(c, OwnOf(KeepNewest(checkpoints + [c], runId), runId))
  {
    var own := OwnOf(checkpoints + [c], runId);
    assert c in own && forall d | d in own && d != c :: d in OwnOf(checkpoints, runId);
    StrictlyNewestIsFirst(own, c);
    var retained := Take(SortBy(NewestFirst(), own), RETAINED_CHECKPOINTS);
    assert retained[0] == c;
  }

  // ---------- Other runs ----------

  /** Saving a run leaves the checkpoints of every other run alone, in number and order. */
  lemma OthersKeepTheirs(checkpoints: seq<Checkpoint>, run: Run, snapshot: Snapshot, tick: Tick, other: string)
    requires other != run.id
    ensures OwnOf(WithCheckpoint(checkpoints, run, snapshot, tick), other) == OwnOf(checkpoints, other)
  {
    hide SortBy, LatestTime;
    var c := Added(checkpoints, run, snapshot, tick);
    OthersStay(checkpoints + [c], run.id, other);
    FilterConcat(CheckpointOfRun(other), checkpoints, [c]);
    FilterNone(CheckpointOfRun(other), [c]);
    assert OwnOf(checkpoints, other) + [] == OwnOf(checkpoints, other);
  }

  lemma OthersStay(checkpoints: seq<Checkpoint>, runId: string, other: string)
    requires other != runId
    ensures OwnOf(KeepNewest(checkpoints, runId), other) == OwnOf(checkpoints, other)
  {
    var retained := Take(SortBy(NewestFirst(), OwnOf(checkpoints, runId)), RETAINED_CHECKPOINTS);
    FilterTwice(CheckpointOfRun(other), (c: Checkpoint) => c.runId != runId || exists k | k in retained :: k.id == c.id, checkpoints);
  }

  // ---------- The newest eighty ----------

  lemma {:induction false} AsManyAsIds(checkpoints: seq<Checkpoint>)
    ensures |Ids(checkpoints)| <= |checkpoints|
    ensures DistinctIds(checkpoints) ==> |Ids(checkpoints)| == |checkpoints|
  {
    if checkpoints != [] {
      var first, rest := checkpoints[0], checkpoints[1..];
      AsManyAsIds(rest);
      assert Ids(checkpoints) == {first.id} + Ids(rest);
      if DistinctIds(checkpoints) {
        assert forall i | 0 <= i < |rest| :: rest[i] == checkpoints[i + 1];
        assert first.id !in Ids(rest);
      }
    }
  }

  lemma {:induction false} FilterDistinct(keep: Checkpoint -> bool, checkpoints: seq<Checkpoint>)
    requires DistinctIds(checkpoints)
    ensures DistinctIds(Filter(keep, checkpoints))
  {
    if checkpoints != [] {
      var first, rest := checkpoints[0], checkpoints[1..];
      assert forall i | 0 <= i < |rest| :: rest[i] == checkpoints[i + 1];
      FilterDistinct(keep, rest);
      var kept := Filter(keep, rest);
      forall i | 0 <= i < |kept|
        ensures kept[i].id != first.id
      {
        assert kept[i] in rest;
      }
    }
  }

  lemma SameIdSameCheckpoint(checkpoints: seq<Checkpoint>, c: Checkpoint, d: Checkpoint)
    requires DistinctIds(checkpoints) && c in checkpoints && d in checkpoints && c.id == d.id
    ensures c == d
  {
  }

  /** A checkpoint of the run is kept exactly when it is among the first eighty, newest first. */
  lemma KeptIff(checkpoints: seq<Checkpoint>, runId: string, c: Checkpoint)
    requires DistinctIds(checkpoints) && c in OwnOf(checkpoints, runId)
    ensures c in KeepNewest(checkpoints, runId)
       <==> c in Take(SortBy(NewestFirst(), OwnOf(checkpoints, runId)), RETAINED_CHECKPOINTS)
  {
    var retained := Take(SortBy(NewestFirst(), OwnOf(checkpoints, runId)), RETAINED_CHECKPOINTS);
    if c in KeepNewest(checkpoints, runId) {
      var k :| k in retained && k.id == c.id;
      SameIdSameCheckpoint(checkpoints, c, k);
    }
  }

  /** At most eighty checkpoints of the run stay, and none that goes is newer than one that stays. */
  lemma NewestEightyStay(checkpoints: seq<Checkpoint>, runId: string)
    requires DistinctIds(checkpoints)
    ensures |OwnOf(KeepNewest(checkpoints, runId), runId)| <= RETAINED_CHECKPOINTS
    ensures forall c, d | c in OwnOf(checkpoints, runId) && c !in KeepNewest(checkpoints, runId) && d in OwnOf(KeepNewest(checkpoints, runId), runId) ::
      c.createdAt <= d.createdAt
  {
    hide KeepNewest;
    var own, kept := OwnOf(checkpoints, runId), OwnOf(KeepNewest(checkpoints, runId), runId);
    var sorted := SortBy(NewestFirst(), own);
    var retained := Take(sorted, RETAINED_CHECKPOINTS);
    KeptAreRetained(checkpoints, runId);
    AsManyAsIds(kept);
    AsManyAsIds(retained);
    SubsetSize(Ids(kept), Ids(retained));
    SortBySorts(NewestFirst(), own);
    forall c, d | c in own && c !in KeepNewest(checkpoints, runId) && d in kept
      ensures c.createdAt <= d.createdAt
    {
      KeptIff(checkpoints, runId, c);
      var i :| 0 <= i < |sorted| && sorted[i] == c;
      var j :| 0 <= j < |retained| && retained[j] == d;
      assert sorted[j] == d;
      InPrefix(sorted, RETAINED_CHECKPOINTS, i);
      assert NewestFirst()(sorted[j]) <= NewestFirst()(sorted[i]);
    }
  }

  lemma InPrefix(sorted: seq<Checkpoint>, n: nat, i: nat)
    ensures i < |sorted| && i < n ==> sorted[i] in Take(sorted, n)
  {
    if i < |sorted| && n < |sorted| && i < n {
      assert sorted[..n][i] == sorted[i];
    }
  }

  lemma KeptAreRetained(checkpoints: seq<Checkpoint>, runId: string)
    requires DistinctIds(checkpoints)
    ensures var kept := OwnOf(KeepNewest(checkpoints, runId), runId);
      var retained := Take(SortBy(NewestFirst(), OwnOf(checkpoints, runId)), RETAINED_CHECKPOINTS);
      DistinctIds(kept) && Ids(kept) <= Ids(retained) && forall d | d in kept :: d in retained
  {
    var retained := Take(SortBy(NewestFirst(), OwnOf(checkpoints, runId)), RETAINED_CHECKPOINTS);
    var keep := (c: Checkpoint) => c.runId != runId || exists k | k in retained :: k.id == c.id;
    FilterDistinct(keep, checkpoints);
    FilterDistinct(CheckpointOfRun(runId), KeepNewest(checkpoints, runId));
    forall d | d in OwnOf(KeepNewest(checkpoints, runId), runId)
      ensures d in retained
    {
      KeptIff(checkpoints, runId, d);
    }
  }

  lemma {:induction false} SubsetSize(a: set<string>, b: set<string>)
    requires a <= b
    ensures |a| <= |b|
  {
    if x :| x in a {
      SubsetSize(a - {x}, b - {x});
    }
  }
}
