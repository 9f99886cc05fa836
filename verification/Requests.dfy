/**
  Any number of loaders that recycle their nodes through one pool, and may share a store.  As
  long as none of them retries a load that used the remote, each one behaves as if it had the
  nodes for itself.
 */
module RequestLoaders {
  import opened Core
  import opened RemoteQueues
  import opened LoaderObjects
  import L = Loaders

  /** A loader that recycles through the pool, and has no node in use that is recycled. */
  ghost predicate Neat(r: ReconciledLoader, pool: NodePool)
    reads r.remoteQueue, r.remoteQueue.lastConsumed, pool
  {
    r.remoteQueue.pool == pool && r.remoteQueue.Last() != Requeued && pool.items !! r.remoteQueue.Used()
  }

  ghost predicate PoolOK(pool: NodePool)
    reads pool, pool.items
  {
    !pool.spoiled && forall n :: n in pool.items ==> n.block == None
  }

  lemma {:induction false} NeatIsClean(r: ReconciledLoader, pool: NodePool)
    requires r.remoteQueue.pool == pool
    ensures Neat(r, pool) && PoolOK(pool) <==> r.Clean()
  {
    r.remoteQueue.ApartIs();
  }

  ghost predicate Apart(a: ReconciledLoader, b: ReconciledLoader)
    reads a, a.traversalRecord, a.remoteQueue, b, b.traversalRecord, b.remoteQueue
  {
    a.Foot() !! b.Foot()
  }

  /** What a loader uses, with its store unless it is that of another one, too. */
  ghost function Own(b: ReconciledLoader, a: ReconciledLoader): set<object>
    reads b, b.traversalRecord, b.remoteQueue
  {
    b.Foot() + if b.lsys == a.lsys then {} else {b.lsys}
  }

  /** That is not what the other one can change. */
  lemma {:induction false} Elsewhere(a: ReconciledLoader, b: ReconciledLoader, pool: NodePool)
    requires Apart(a, b) && Neat(b, pool) && a.remoteQueue.pool == pool
    ensures (a.Foot() + a.Shared()) !! Own(b, a)
  {
  }

  /** What a loader has in use or recycled. */
  ghost function Reach(r: ReconciledLoader): set<object>
    reads r, r.traversalRecord, r.remoteQueue, r.remoteQueue.pool
  {
    r.Foot() + r.remoteQueue.pool.items
  }

  lemma {:induction false} ApartFromReach(a: ReconciledLoader, b: ReconciledLoader)
    requires Reach(a) !! b.Foot()
    ensures Apart(a, b) && Apart(b, a) && a.remoteQueue.pool.items !! b.remoteQueue.Used()
  {
  }

  /** A step of one loader keeps off what others use. */
  method PerformBeside(r: ReconciledLoader, e: L.Event, ghost others: set<object>)
    requires r.Valid() && r.Clean() && L.RetriesLocally(r.Abs(), e) && (r.Foot() + r.Shared()) !! others
    modifies r.Foot(), r.Shared()
    ensures r.Valid() && r.Clean() && r.Abs() == L.Step(old(r.Abs()), e)
    ensures fresh(Reach(r) - old(Reach(r))) && Reach(r) !! others && unchanged(others)
  {
    ghost var was := Reach(r);
    assert was !! others;
    r.Perform(e);
    ghost var now := Reach(r);
    assert fresh(now - was);
  }

  // ---------------------------------------------------------------- many loaders

  ghost predicate Member(rs: seq<ReconciledLoader>, pool: NodePool, i: nat)
    requires i < |rs|
    reads *
  {
    rs[i].Valid() && Neat(rs[i], pool)
  }

  ghost predicate ApartAt(rs: seq<ReconciledLoader>, i: nat, j: nat)
    requires i < |rs| && j < |rs|
    reads *
  {
    Apart(rs[i], rs[j])
  }

  /** Loaders with nothing in common but the pool and perhaps a store, and no node in use that is recycled. */
  ghost predicate Together(rs: seq<ReconciledLoader>, pool: NodePool)
    reads *
  {
    && PoolOK(pool)
    && (forall i {:trigger Member(rs, pool, i)} :: 0 <= i < |rs| ==> Member(rs, pool, i))
    && (forall i, j {:trigger ApartAt(rs, i, j)} :: 0 <= i < |rs| && 0 <= j < |rs| && i != j ==> ApartAt(rs, i, j))
  }

  /** What the others use. */
  ghost function Others(rs: seq<ReconciledLoader>, i: nat): set<object>
    requires i < |rs|
    reads *
  {
    set j, o | 0 <= j < |rs| && j != i && o in Own(rs[j], rs[i]) :: o
  }

  lemma {:induction false} OthersElsewhere(rs: seq<ReconciledLoader>, pool: NodePool, i: nat)
    requires Together(rs, pool) && i < |rs|
    ensures (rs[i].Foot() + rs[i].Shared()) !! Others(rs, i)
  {
    assert Member(rs, pool, i);
    forall j | 0 <= j < |rs| && j != i ensures (rs[i].Foot() + rs[i].Shared()) !! Own(rs[j], rs[i]) {
      assert Member(rs, pool, j) && ApartAt(rs, i, j);
      Elsewhere(rs[i], rs[j], pool);
    }
  }

  /** A loader that makes a step, and one that does not, with what it and others use. */
  datatype Pair = Pair(actor: ReconciledLoader, other: ReconciledLoader, foot: set<object>)

  /** The value of a loader beside one that made a step: it finds what was stored in a common store. */
  ghost function Beside(was: L.Loader, common: bool, actor: L.Loader): L.Loader {
    if common then was.(store := actor.store) else was
  }

  twostate lemma {:induction false} Bystander(p: Pair)
    requires old(p.other.Valid()) && old(Own(p.other, p.actor)) <= p.foot && unchanged(p.foot)
             && Reach(p.actor) !! p.foot
    ensures p.other.Valid() && p.other.Foot() == old(p.other.Foot()) && Apart(p.actor, p.other)
            && Apart(p.other, p.actor)
    ensures p.other.Abs() == Beside(old(p.other.Abs()), p.other.lsys == p.actor.lsys, p.actor.Abs())
    ensures p.other.remoteQueue.Last() == old(p.other.remoteQueue.Last())
    ensures p.actor.remoteQueue.pool.items !! p.other.remoteQueue.Used()
  {
    p.other.Undisturbed();
    ApartFromReach(p.actor, p.other);
  }

  /** What a step of loader i leaves of loader j. */
  twostate predicate Kept(rs: seq<ReconciledLoader>, pool: NodePool, i: nat, j: nat)
    requires i < |rs| && j < |rs|
    reads *
  {
    && Member(rs, pool, j) && Apart(rs[i], rs[j]) && Apart(rs[j], rs[i]) && rs[j].Foot() == old(rs[j].Foot())
    && rs[j].Abs() == Beside(old(rs[j].Abs()), rs[j].lsys == rs[i].lsys, rs[i].Abs())
  }

  /** A turn of loader i, with what the others use. */
  datatype Taken = Taken(rs: seq<ReconciledLoader>, pool: NodePool, i: nat, others: set<object>)

  twostate lemma {:induction false} Bystanders(t: Taken)
    requires t.i < |t.rs| && old(Together(t.rs, t.pool)) && t.others == old(Others(t.rs, t.i))
    requires t.rs[t.i].remoteQueue.pool == t.pool && unchanged(t.others) && Reach(t.rs[t.i]) !! t.others
    ensures forall j {:trigger Kept(t.rs, t.pool, t.i, j)} :: 0 <= j < |t.rs| && j != t.i ==> Kept(t.rs, t.pool, t.i, j)
  {
    forall j | 0 <= j < |t.rs| && j != t.i ensures Kept(t.rs, t.pool, t.i, j) {
      assert old(Member(t.rs, t.pool, j));
      Bystander(Pair(t.rs[t.i], t.rs[j], t.others));
    }
  }

  /** One loader makes a step, and the others are as they were, but for what they find in a common store. */
  method TakeTurn(rs: seq<ReconciledLoader>, pool: NodePool, i: nat, e: L.Event)
    requires Together(rs, pool) && i < |rs| && Member(rs, pool, i) && L.RetriesLocally(rs[i].Abs(), e)
    modifies rs[i].Foot(), rs[i].Shared()
    ensures Together(rs, pool) && rs[i].Abs() == L.Step(old(rs[i].Abs()), e)
    ensures forall j {:trigger Kept(rs, pool, i, j)} :: 0 <= j < |rs| && j != i ==> Kept(rs, pool, i, j)
    ensures fresh(Reach(rs[i]) - old(Reach(rs[i])))
  {
    NeatIsClean(rs[i], pool);
    OthersElsewhere(rs, pool, i);
    ghost var others := Others(rs, i);
    PerformBeside(rs[i], e, others);
    NeatIsClean(rs[i], pool);
    Bystanders(Taken(rs, pool, i, others));
    forall j | 0 <= j < |rs| ensures Member(rs, pool, j) {
      assert j != i ==> Kept(rs, pool, i, j);
    }
    forall j, k | 0 <= j < |rs| && 0 <= k < |rs| && j != k ensures ApartAt(rs, j, k) {
      assert old(ApartAt(rs, j, k));
      assert j != i ==> Kept(rs, pool, i, j);
      assert k != i ==> Kept(rs, pool, i, k);
    }
  }

  /** What all loaders use. */
  ghost function Feet(rs: seq<ReconciledLoader>): set<object>
    reads *
  {
    set j, o | 0 <= j < |rs| && o in rs[j].Foot() :: o
  }

  /** Loaders that nothing has happened to. */
  twostate lemma {:induction false} Idle(t: Taken)
    requires old(Together(t.rs, t.pool)) && unchanged(t.pool) && unchanged(old(t.pool.items))
    requires t.others == old(Feet(t.rs)) && unchanged(t.others)
    ensures Together(t.rs, t.pool) && Feet(t.rs) == t.others
  {
    forall i | 0 <= i < |t.rs| ensures Member(t.rs, t.pool, i) && t.rs[i].Foot() == old(t.rs[i].Foot()) {
      assert old(Member(t.rs, t.pool, i)) && old(t.rs[i].Foot()) <= t.others;
      t.rs[i].Undisturbed();
    }
    forall i, j | 0 <= i < |t.rs| && 0 <= j < |t.rs| && i != j ensures ApartAt(t.rs, i, j) {
      assert old(ApartAt(t.rs, i, j));
    }
  }

  lemma {:induction false} Join(rs: seq<ReconciledLoader>, pool: NodePool, r: ReconciledLoader)
    requires Together(rs, pool) && r.Valid() && Neat(r, pool) && r.Foot() !! Feet(rs)
    ensures Together(rs + [r], pool)
  {
    var all := rs + [r];
    forall i | 0 <= i < |all| ensures Member(all, pool, i) {
      assert i < |rs| ==> Member(rs, pool, i);
    }
    forall i | 0 <= i < |rs| ensures ApartAt(all, i, |rs|) && ApartAt(all, |rs|, i) {
      assert rs[i].Foot() <= Feet(rs);
    }
    forall i, j | 0 <= i < |all| && 0 <= j < |all| && i != j ensures ApartAt(all, i, j) {
      assert i < |rs| && j < |rs| ==> ApartAt(rs, i, j);
    }
  }

  /** A new request has nothing in common with the others but the pool, and perhaps the store. */
  method NewRequest(rs: seq<ReconciledLoader>, pool: NodePool, localStore: BlockStore) returns (r: ReconciledLoader)
    requires Together(rs, pool)
    ensures fresh(r) && Together(rs + [r], pool)
    ensures r.lsys == localStore
            && r.Abs() == L.NEW_LOADER.(store := localStore.blocks, unwritable := localStore.unwritable)
  {
    ghost var feet := Feet(rs);
    r := new ReconciledLoader(pool, localStore);
    NeatIsClean(r, pool);
    assert r.Foot() !! feet;
    Idle(Taken(rs, pool, 0, feet));
    Join(rs, pool, r);
  }

  // ------------------------------------------------------------------- whole runs

  ghost predicate StandsFor(rs: seq<ReconciledLoader>, ls: seq<L.Loader>, i: nat)
    requires i < |rs| && i < |ls|
    reads *
  {
    rs[i].Abs() == ls[i]
  }

  /** The loaders stand for these values. */
  ghost predicate Stand(rs: seq<ReconciledLoader>, ls: seq<L.Loader>)
    reads *
  {
    |ls| == |rs| && forall i {:trigger StandsFor(rs, ls, i)} :: 0 <= i < |rs| ==> StandsFor(rs, ls, i)
  }

  /** Loaders have the same number exactly if they have the same store. */
  predicate Numbered(rs: seq<ReconciledLoader>, stores: seq<nat>) {
    && |stores| == |rs|
    && forall i, j :: 0 <= i < |rs| && 0 <= j < |rs| ==> (stores[i] == stores[j] <==> rs[i].lsys == rs[j].lsys)
  }

  /** A turn on the objects is a turn on the values. */
  method TurnRefines(rs: seq<ReconciledLoader>, pool: NodePool, ghost ls: seq<L.Loader>, ghost stores: seq<nat>,
                     t: L.Turn)
    requires Together(rs, pool) && Stand(rs, ls) && Numbered(rs, stores) && L.AllValid(ls)
    requires t.who < |rs| && L.InRange(ls, stores, [t]) && L.RetriesLocally(ls[t.who], t.event)
    modifies rs[t.who].Foot(), rs[t.who].Shared()
    ensures Together(rs, pool) && Stand(rs, L.AfterTurn(ls, stores, t))
    ensures forall j {:trigger Kept(rs, pool, t.who, j)} :: 0 <= j < |rs| && j != t.who ==> Kept(rs, pool, t.who, j)
    ensures fresh(Reach(rs[t.who]) - old(Reach(rs[t.who])))
  {
    assert StandsFor(rs, ls, t.who) && Member(rs, pool, t.who);
    TakeTurn(rs, pool, t.who, t.event);
    ghost var ls' := L.AfterTurn(ls, stores, t);
    forall j | 0 <= j < |rs| ensures StandsFor(rs, ls', j) {
      assert old(StandsFor(rs, ls, j));
      assert j != t.who ==> Kept(rs, pool, t.who, j);
    }
  }

  /** What is left of a run ends in given values. */
  ghost predicate Runs(rs: seq<ReconciledLoader>, pool: NodePool, run: Remaining)
    reads *
  {
    && Together(rs, pool) && Stand(rs, run.ls) && Numbered(rs, run.stores)
    && L.AllValid(run.ls) && L.InRange(run.ls, run.stores, run.turns)
    && L.NoRemoteRetry(run.ls, run.stores, run.turns) && L.RunAll(run.ls, run.stores, run.turns) == run.end
  }

  /** The values of the loaders, their stores, the turns to come and the values in which they end. */
  datatype Remaining = Remaining(ls: seq<L.Loader>, stores: seq<nat>, turns: seq<L.Turn>, end: seq<L.Loader>)

  ghost predicate WithinAt(rs: seq<ReconciledLoader>, foot: set<object>, i: nat)
    requires i < |rs|
    reads *
  {
    rs[i].Foot() <= foot && rs[i].lsys in foot
  }

  /** Everything that the loaders can change. */
  ghost predicate Within(rs: seq<ReconciledLoader>, pool: NodePool, foot: set<object>)
    reads *
  {
    pool in foot && pool.items <= foot && forall i {:trigger WithinAt(rs, foot, i)} :: 0 <= i < |rs| ==>
      WithinAt(rs, foot, i)
  }

  function Next(run: Remaining): Remaining
    requires L.AllValid(run.ls) && run.turns != [] && L.InRange(run.ls, run.stores, run.turns)
  {
    assert run.turns[0] in run.turns;
    Remaining(L.AfterTurn(run.ls, run.stores, run.turns[0]), run.stores, run.turns[1..], run.end)
  }

  /** A turn, within what the loaders can change. */
  method TurnWithin(rs: seq<ReconciledLoader>, pool: NodePool, ghost ls: seq<L.Loader>, ghost stores: seq<nat>,
                    t: L.Turn, ghost foot: set<object>)
    returns (ghost foot': set<object>)
    requires Together(rs, pool) && Stand(rs, ls) && Numbered(rs, stores) && L.AllValid(ls) && Within(rs, pool, foot)
    requires t.who < |rs| && L.InRange(ls, stores, [t]) && L.RetriesLocally(ls[t.who], t.event)
    modifies foot
    ensures Together(rs, pool) && Stand(rs, L.AfterTurn(ls, stores, t)) && Within(rs, pool, foot')
            && fresh(foot' - foot)
  {
    assert Member(rs, pool, t.who) && WithinAt(rs, foot, t.who);
    TurnRefines(rs, pool, ls, stores, t);
    assert Member(rs, pool, t.who);
    foot' := foot + Reach(rs[t.who]);
    forall j | 0 <= j < |rs| ensures WithinAt(rs, foot', j) {
      assert old(WithinAt(rs, foot, j));
      assert j != t.who ==> Kept(rs, pool, t.who, j);
    }
  }

  method PerformFirst(rs: seq<ReconciledLoader>, pool: NodePool, turns: seq<L.Turn>, ghost run: Remaining,
                      ghost foot: set<object>)
    returns (ghost foot': set<object>)
    requires turns == run.turns != [] && Runs(rs, pool, run) && Within(rs, pool, foot)
    modifies foot
    ensures Runs(rs, pool, Next(run)) && Within(rs, pool, foot') && fresh(foot' - foot)
  {
    L.RunStep(run.ls, run.stores, run.turns);
    foot' := TurnWithin(rs, pool, run.ls, run.stores, turns[0], foot);
  }

  method PerformRest(rs: seq<ReconciledLoader>, pool: NodePool, turns: seq<L.Turn>, ghost run: Remaining,
                     ghost foot: set<object>)
    requires turns == run.turns && Runs(rs, pool, run) && Within(rs, pool, foot)
    modifies foot
    ensures Together(rs, pool) && Stand(rs, run.end)
    decreases |turns|
  {
    if turns != [] {
      ghost var foot' := PerformFirst(rs, pool, turns, run, foot);
      PerformRest(rs, pool, turns[1..], Next(run), foot');
    }
  }

  /**
    Any run of any number of loaders in which none retries a load that used the remote: records,
    verifiers and linked queues together end where the values end, and no node was ever recycled
    in use.
   */
  method PerformAll(rs: seq<ReconciledLoader>, pool: NodePool, turns: seq<L.Turn>, ghost ls: seq<L.Loader>,
                    ghost stores: seq<nat>, ghost foot: set<object>)
    requires Together(rs, pool) && Stand(rs, ls) && Numbered(rs, stores) && Within(rs, pool, foot)
    requires L.AllValid(ls) && L.InRange(ls, stores, turns) && L.NoRemoteRetry(ls, stores, turns)
    modifies foot
    ensures Together(rs, pool) && Stand(rs, L.RunAll(ls, stores, turns))
  {
    PerformRest(rs, pool, turns, Remaining(ls, stores, turns, L.RunAll(ls, stores, turns)), foot);
  }

  /** Then a block is stored only under a link that names it, whatever the remotes send. */
  method StoreNamedBlocks(rs: seq<ReconciledLoader>, pool: NodePool, turns: seq<L.Turn>, ghost ls: seq<L.Loader>,
                          ghost stores: seq<nat>,
                          ghost foot: set<object>, ghost names: (Cid, Bytes) -> bool)
    requires Together(rs, pool) && Stand(rs, ls) && Numbered(rs, stores) && Within(rs, pool, foot)
    requires L.AllValid(ls) && L.InRange(ls, stores, turns) && L.NoRemoteRetry(ls, stores, turns)
    requires L.AllAddressed(ls, names) && forall t :: t in turns ==> L.EventAddressed(t.event, names)
    modifies foot
    ensures Together(rs, pool)
    ensures forall i, c :: 0 <= i < |rs| && c in rs[i].lsys.blocks ==> names(c, rs[i].lsys.blocks[c])
  {
    L.StoreIsAddressed(ls, stores, turns, names);
    PerformAll(rs, pool, turns, ls, stores, foot);
    ghost var end := L.RunAll(ls, stores, turns);
    forall i | 0 <= i < |rs| ensures rs[i].lsys.blocks == end[i].store && L.Addressed(end[i], names) {
      assert StandsFor(rs, end, i);
    }
  }
}
