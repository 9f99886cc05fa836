/**
  The loader as the object that the request executor calls, with the record, the verifier
  that points into it and the linked queue as its parts.  A wait that would block returns
  Waiting, and calling again resumes it.
 */
module LoaderObjects {
  import opened Core
  import opened Trie
  import opened RemoteQueues
  import opened TraversalRecords
  import L = Loaders
  import V = Verifier

  /** Remembers where the remote stopped following. */
  class PathTracker {
    var lastUnfollowedRemotePath: Path

    constructor ()
      ensures lastUnfollowedRemotePath == []
    {
      lastUnfollowedRemotePath := [];
    }

    /**
      Without a remembered path, or on one that is not longer, the remote is taken to follow.
      Exactly on the paths that are longer it is not.
     */
    method StillOnUnfollowedRemotePath(newPath: Path) returns (r: bool)
      modifies this
      ensures r == L.StillOnUnfollowed(old(lastUnfollowedRemotePath), newPath)
      ensures lastUnfollowedRemotePath == L.AfterLookup(old(lastUnfollowedRemotePath), newPath)
      ensures !r ==> forall p :: !L.StillOnUnfollowed(lastUnfollowedRemotePath, p)
    {
      if |lastUnfollowedRemotePath| == 0 {
        return false;
      }
      if |newPath| <= |lastUnfollowedRemotePath| {
        lastUnfollowedRemotePath := [];
        return false;
      }
      return true;
    }

    /**
      After an unfollowed link everything longer is beneath it, until something is not; a
      followed link changes nothing.
     */
    method RecordRemoteLoadAttempt(path: Path, action: LinkAction)
      modifies this
      ensures lastUnfollowedRemotePath == L.AfterAttempt(old(lastUnfollowedRemotePath), path, action)
      ensures !action.DidFollowLink() && path != [] ==>
                forall p :: L.StillOnUnfollowed(lastUnfollowedRemotePath, p) <==> |p| > |path|
    {
      if !action.DidFollowLink() {
        lastUnfollowedRemotePath := path;
      }
    }
  }

  /** The local store; it refuses to write some blocks. */
  class BlockStore {
    var blocks: map<Cid, Bytes>
    const unwritable: set<Cid>

    constructor (blocks: map<Cid, Bytes>, unwritable: set<Cid>)
      ensures this.blocks == blocks && this.unwritable == unwritable
    {
      this.blocks, this.unwritable := blocks, unwritable;
    }
  }

  datatype Part = TheRecord | TheQueue | TheVerifier

  class ReconciledLoader {
    const traversalRecord: TraversalRecord
    const remoteQueue: RemoteQueue
    const pathTracker: PathTracker
    const lsys: BlockStore
    var mostRecentLoadAttempt: L.LoadAttempt
    var open: bool
    var verifier: ReplayVerifier?

    /** Each part is proper, and the verifier points into the record. */
    ghost predicate PartOK(p: Part)
      reads this`verifier, traversalRecord, traversalRecord.repr, verifier
      reads remoteQueue, remoteQueue.spine, remoteQueue.lastConsumed
    {
      match p
      case TheRecord => traversalRecord.Valid()
      case TheQueue => remoteQueue.Valid()
      case TheVerifier => verifier != null ==> verifier.root == traversalRecord && verifier.Valid()
    }

    ghost predicate Valid()
      reads this`verifier, traversalRecord, traversalRecord.repr, verifier
      reads remoteQueue, remoteQueue.spine, remoteQueue.lastConsumed
    {
      && (forall p {:trigger PartOK(p)} :: PartOK(p))
      && Recorded(traversalRecord.model) && (verifier != null ==> V.LiveIn(verifier.model, traversalRecord.model))
      && (remoteQueue.head == null <==> remoteQueue.contents == [])
      && (remoteQueue.head != null ==> remoteQueue.head in remoteQueue.Used())
    }

    /** A change of one part leaves the others proper. */
    twostate lemma {:induction false} QueueChanged()
      requires old(Valid()) && remoteQueue.Valid()
      requires unchanged(this`verifier) && unchanged(old(traversalRecord.repr)) && unchanged(traversalRecord)
      requires verifier != null ==> unchanged(verifier)
      ensures Valid()
    {
      assert old(PartOK(TheRecord)) && old(PartOK(TheVerifier));
      assert PartOK(TheRecord) && PartOK(TheQueue) && PartOK(TheVerifier);
    }

    twostate lemma {:induction false} VerifierChanged()
      requires old(Valid()) && unchanged(old(traversalRecord.repr)) && unchanged(traversalRecord)
      requires unchanged(remoteQueue) && unchanged(old(remoteQueue.Used()))
      requires verifier != null ==> verifier.root == traversalRecord && verifier.Valid()
      ensures Valid()
    {
      assert old(PartOK(TheRecord)) && old(PartOK(TheQueue));
      remoteQueue.Undisturbed();
      assert PartOK(TheRecord) && PartOK(TheQueue) && PartOK(TheVerifier);
    }

    /** Every recycled node is out of use, and so is every node that will be recycled. */
    ghost predicate Clean()
      reads remoteQueue, remoteQueue.pool, remoteQueue.pool.items, remoteQueue.lastConsumed
    {
      remoteQueue.PoolApart() && remoteQueue.Last() != Requeued
    }

    /** The loader as a value. */
    ghost function Abs(): L.Loader
      reads this, traversalRecord, verifier, remoteQueue, remoteQueue.lastConsumed, pathTracker, lsys
    {
      L.Loader(traversalRecord.model, mostRecentLoadAttempt, pathTracker.lastUnfollowedRemotePath, open,
               if verifier == null then None else Some(verifier.model),
               remoteQueue.contents, remoteQueue.Last(), remoteQueue.cutOff, lsys.blocks, lsys.unwritable)
    }

    /** A new loader has nothing in use; the pool and the store are shared. */
    constructor (pool: NodePool, localStore: BlockStore)
      ensures Valid() && remoteQueue.pool == pool && lsys == localStore && fresh(Foot())
      ensures !pool.spoiled && (forall n :: n in pool.items ==> n.block == None) ==> Clean()
      ensures Abs() == L.NEW_LOADER.(store := localStore.blocks, unwritable := localStore.unwritable)
    {
      traversalRecord := new TraversalRecord();
      remoteQueue := new RemoteQueue(pool);
      pathTracker := new PathTracker();
      lsys := localStore;
      mostRecentLoadAttempt, open, verifier := L.NoAttempt, false, null;
    }

    /** A request that goes online is verified against the record from its first link on. */
    method SetRemoteOnline(online: bool)
      requires Valid()
      modifies this`open, this`verifier
      ensures Valid() && Abs() == L.SetRemoteOnline(old(Abs()), online)
      ensures verifier == old(verifier) || fresh(verifier)
    {
      var wasOpen := open;
      SetOpen(online);
      if online && !wasOpen {
        StartVerifying();
      }
    }

    method SetOpen(online: bool)
      requires Valid()
      modifies this`open
      ensures Valid() && Abs() == old(Abs()).(open := online)
    {
      open := online;
    }

    method StartVerifying()
      requires Valid()
      modifies this`verifier
      ensures Valid() && Abs() == old(Abs()).(verifier := Some(V.New(old(Abs()).record))) && fresh(verifier)
    {
      assert PartOK(TheRecord);
      verifier := new ReplayVerifier(traversalRecord);
      VerifierChanged();
    }

    /** The items are queued in order, each block with the first entry that announces it; dropped while offline. */
    method IngestResponse(md: seq<Metadatum>, blocks: map<Cid, Bytes>)
      requires remoteQueue.head != null ==> remoteQueue.tail != null
      modifies remoteQueue, remoteQueue.pool`items, remoteQueue.End()`next, remoteQueue.pool.items
      ensures old(Valid() && remoteQueue.PoolApart()) ==>
                Valid() && remoteQueue.PoolApart() && Abs() == L.Ingest(old(Abs()), md, blocks)
      ensures old(Valid() && Clean()) ==> Clean()
      ensures old(Valid() && remoteQueue.PoolApart()) ==> fresh(remoteQueue.Repr() - old(remoteQueue.Repr()))
    {
      ghost var ok := Valid() && remoteQueue.PoolApart();
      assert ok ==> PartOK(TheQueue);
      L.IngestIs(Abs(), md, blocks);
      remoteQueue.Ingest(md, blocks, open);
      if ok {
        QueueChanged();
      }
    }

    /** Every node of the list goes back to the pool, if the list ends. */
    method Cleanup(ghost chain: seq<RemotedLinkedItem>)
      requires ChainFrom(remoteQueue.head, chain)
      modifies remoteQueue, remoteQueue.pool, chain`block
      ensures remoteQueue.head == null && remoteQueue.lastConsumed == null
      ensures old(Valid()) ==> Valid() && Abs() == L.Cleanup(old(Abs())) && Shrunk()
    {
      ghost var ok := Valid();
      assert ok ==> PartOK(TheQueue);
      remoteQueue.Clear(chain);
      if ok {
        QueueChanged();
      }
    }

    method TakeItem() returns (head: RemoteItem)
      requires Valid() && remoteQueue.head != null
      modifies remoteQueue, remoteQueue.pool, remoteQueue.head`block
      ensures Valid() && Abs() == L.Consume(old(Abs())) && head == old(remoteQueue.contents)[0]
      ensures Shrunk()
    {
      assert PartOK(TheQueue);
      var first := remoteQueue.First();
      head := first.value;
      DropItem();
    }

    method DropItem()
      requires Valid() && remoteQueue.head != null
      modifies remoteQueue, remoteQueue.pool, remoteQueue.head`block
      ensures Valid() && Shrunk() && Abs() == L.Consume(old(Abs()))
    {
      assert PartOK(TheQueue);
      var _ := remoteQueue.Consume();
      QueueChanged();
    }

    /** Move the verifier past an item, if the record has it. */
    method CheckItem(head: RemoteItem) returns (err: Option<V.Refusal>)
      requires Valid() && verifier != null
      modifies verifier
      ensures Valid() && (Abs(), err) == L.Check(old(Abs()), head)
    {
      err := Advance(head);
    }

    method Advance(head: RemoteItem) returns (err: Option<V.Refusal>)
      requires Valid() && verifier != null
      modifies verifier
      ensures Valid()
      ensures var v := V.VerifyNext(old(verifier.model), V.Item(head.link, head.action.DidFollowLink()));
              if v.Accepted? then err == None && verifier.model == v.stack
              else err == Some(v.why) && verifier.model == old(verifier.model)
    {
      assert PartOK(TheVerifier);
      err := verifier.VerifyNext(head.link, head.action.DidFollowLink());
      VerifierChanged();
    }

    /** The verdict on an item that was taken off. */
    method Judge(path: Path, head: RemoteItem) returns (err: Option<V.Refusal>)
      requires Valid() && verifier != null
      modifies pathTracker, verifier
      ensures Valid() && (Abs(), err) == L.Judge(old(Abs()), path, head)
    {
      err := CheckItem(head);
      if err.None? {
        Track(path, head.action);
      }
    }

    method Track(path: Path, action: LinkAction)
      requires Valid()
      modifies pathTracker
      ensures Valid() && Abs() == old(Abs()).(unfollowed := L.AfterAttempt(old(Abs()).unfollowed, path, action))
    {
      pathTracker.RecordRemoteLoadAttempt(path, action);
    }

    method LookUp(path: Path) returns (onUnfollowed: bool)
      requires Valid()
      modifies pathTracker
      ensures Valid() && Abs() == old(Abs()).(unfollowed := L.AfterLookup(old(Abs()).unfollowed, path))
      ensures onUnfollowed == L.StillOnUnfollowed(old(Abs()).unfollowed, path)
    {
      onUnfollowed := pathTracker.StillOnUnfollowedRemotePath(path);
    }

    /** Check the first item against the record. */
    method VerifyItem() returns (err: Option<V.Refusal>)
      requires Valid() && remoteQueue.head != null && verifier != null && !V.Done(verifier.model)
      modifies pathTracker, verifier, remoteQueue, remoteQueue.pool, remoteQueue.head`block
      ensures Valid() && (Abs(), err) == L.VerifyHead(old(Abs()))
      ensures Shrunk()
    {
      var path := VerifierPath();
      err := VerifyItemAt(path);
    }

    method VerifierPath() returns (path: Path)
      requires Valid() && verifier != null
      ensures path == V.CurrentPath(Abs().verifier.value)
    {
      assert PartOK(TheVerifier);
      path := verifier.CurrentPath();
    }

    method VerifyItemAt(path: Path) returns (err: Option<V.Refusal>)
      requires Valid() && remoteQueue.head != null && verifier != null
      modifies pathTracker, verifier, remoteQueue, remoteQueue.pool, remoteQueue.head`block
      ensures Valid() && (Abs(), err) == L.Judge(L.Consume(old(Abs())), path, old(Abs()).queue[0])
      ensures Shrunk()
    {
      var head := TakeItem();
      ghost var used, clean := remoteQueue.Used(), Clean();
      err := Judge(path, head);
      assert remoteQueue.Used() == used && Clean() == clean;
    }

    /** One round of the wait; None to go on. */
    method WaitOnce() returns (r: Option<L.WaitResult>)
      requires Valid() && remoteQueue.head != null
      modifies this`verifier, pathTracker, verifier, remoteQueue, remoteQueue.pool, remoteQueue.head`block
      ensures Valid() && Shrunk() && (verifier == null || verifier == old(verifier))
      ensures r.Some? ==> (Abs(), r.value) == L.WaitRemote(old(Abs()))
      ensures r.None? ==> verifier == old(verifier) && L.WaitRemote(Abs()) == L.WaitRemote(old(Abs()))
                          && |remoteQueue.contents| < old(|remoteQueue.contents|)
    {
      var finished := VerifierDone();
      if finished {
        StopWaiting();
        r := Some(L.RemoteReady);
      } else {
        r := VerifyOne();
      }
    }

    /** There is nothing left to verify. */
    method StopWaiting()
      requires Valid() && remoteQueue.head != null && (verifier == null || V.Done(verifier.model))
      modifies this`verifier
      ensures Valid() && Shrunk() && verifier == null && (Abs(), L.RemoteReady) == L.WaitRemote(old(Abs()))
    {
      L.WaitUnfolds(Abs());
      StopVerifying();
    }

    method VerifyOne() returns (r: Option<L.WaitResult>)
      requires Valid() && remoteQueue.head != null && verifier != null && !V.Done(verifier.model)
      modifies pathTracker, verifier, remoteQueue, remoteQueue.pool, remoteQueue.head`block
      ensures Valid() && Shrunk() && |remoteQueue.contents| < old(|remoteQueue.contents|)
      ensures r.Some? ==> (Abs(), r.value) == L.WaitRemote(old(Abs()))
      ensures r.None? ==> L.WaitRemote(Abs()) == L.WaitRemote(old(Abs()))
    {
      L.WaitUnfolds(Abs());
      var err := VerifyItem();
      return if err.Some? then Some(L.Refused(err.value)) else None;
    }

    /** Verify items until the record is exhausted, or until there is nothing to wait for. */
    method WaitRemote() returns (r: L.WaitResult)
      requires Valid()
      modifies this`verifier, pathTracker, verifier, remoteQueue, remoteQueue.pool, remoteQueue.Used()`block
      ensures Valid() && (Abs(), r) == L.WaitRemote(old(Abs()))
      ensures Shrunk() && (verifier == null || verifier == old(verifier))
    {
      ghost var goal, v := L.WaitRemote(Abs()), verifier;
      while remoteQueue.head != null
        invariant Valid() && L.WaitRemote(Abs()) == goal && verifier == v && Shrunk()
        decreases |remoteQueue.contents|
      {
        var once := WaitOnce();
        if once.Some? {
          return once.value;
        }
      }
      return if open then L.Blocked else L.Offline;
    }

    /** No new nodes, and no node recycled in use. */
    twostate predicate Shrunk()
      reads remoteQueue, remoteQueue.pool, remoteQueue.pool.items, remoteQueue.lastConsumed
    {
      remoteQueue.Shrinks() && (old(Clean()) ==> Clean())
    }

    method StopVerifying()
      requires Valid()
      modifies this`verifier
      ensures Valid() && Abs() == old(Abs()).(verifier := None) && verifier == null
    {
      verifier := null;
      VerifierChanged();
    }

    method VerifierDone() returns (finished: bool)
      requires Valid()
      ensures finished == (verifier == null || V.Done(verifier.model))
    {
      if verifier == null {
        return true;
      }
      assert PartOK(TheVerifier);
      finished := verifier.Done();
    }

    method LoadLocal(path: Path, link: Cid) returns (r: L.LoadResult)
      ensures r == L.LoadLocal(Abs(), path, link)
    {
      if link !in lsys.blocks {
        return L.MissingBlock(link, path);
      }
      return L.Data(lsys.blocks[link], true);
    }

    /** An item answers a load only if it is for its link, and its block is stored only under that link. */
    method Settle(head: RemoteItem, path: Path, link: Cid) returns (r: Option<L.LoadResult>)
      requires Valid()
      modifies pathTracker, lsys
      ensures Valid() && (Abs(), r) == L.Settle(old(Abs()), head, path, link)
    {
      if head.link != link {
        return Some(L.Incorrect(link, head.link, path));
      }
      Track(path, head.action);
      if head.block.None? {
        return None;
      }
      if link in lsys.unwritable {
        return Some(L.WriteFailed);
      }
      lsys.blocks := lsys.blocks[link := head.block.value];
      return Some(L.Data(head.block.value, false));
    }

    method LoadRemote(path: Path, link: Cid) returns (r: Option<L.LoadResult>)
      requires Valid() && remoteQueue.head != null
      modifies pathTracker, lsys, remoteQueue, remoteQueue.pool, remoteQueue.head`block
      ensures Valid() && (Abs(), r) == L.LoadRemote(old(Abs()), path, link)
      ensures Shrunk()
    {
      var head := TakeItem();
      r := Settle(head, path, link);
    }

    method LoadEither(path: Path, link: Cid) returns (result: L.LoadResult)
      requires Valid() && remoteQueue.head != null
      modifies pathTracker, lsys, remoteQueue, remoteQueue.pool, remoteQueue.head`block
      ensures Valid() && (Abs(), result) == L.LoadEither(old(Abs()), path, link)
      ensures Shrunk()
    {
      var r := LoadRemote(path, link);
      if r.Some? {
        result := r.value;
      } else {
        result := LoadLocal(path, link);
      }
    }

    /** The load once the remote has an item waiting. */
    method ReadRemote(path: Path, link: Cid) returns (result: L.LoadResult)
      requires Valid() && remoteQueue.head != null
      modifies pathTracker, lsys, remoteQueue, remoteQueue.pool, remoteQueue.head`block
      ensures Valid() && (Abs(), result) == L.ReadRemote(old(Abs()), path, link)
      ensures Shrunk()
    {
      var onUnfollowed := LookUp(path);
      if onUnfollowed {
        result := LoadLocal(path, link);
      } else {
        result := LoadEither(path, link);
      }
    }

    method BlockRead(path: Path, link: Cid) returns (usedRemote: bool, result: L.LoadResult)
      requires Valid()
      modifies this`verifier, pathTracker, lsys, verifier, remoteQueue, remoteQueue.pool, remoteQueue.Used()`block
      ensures Valid() && (Abs(), usedRemote, result) == L.BlockRead(old(Abs()), path, link)
      ensures Shrunk() && (verifier == null || verifier == old(verifier))
    {
      L.WaitKeeps(Abs());
      var w := WaitRemote();
      usedRemote, result := AfterWait(w, path, link);
    }

    /** The load, by how the wait ended. */
    method AfterWait(w: L.WaitResult, path: Path, link: Cid) returns (usedRemote: bool, result: L.LoadResult)
      requires Valid() && (w.RemoteReady? ==> Abs().queue != [])
      modifies pathTracker, lsys, remoteQueue, remoteQueue.pool, remoteQueue.Used()`block
      ensures Valid() && (Abs(), usedRemote, result) == L.AfterWait(old(Abs()), w, path, link)
      ensures Shrunk()
    {
      usedRemote := w.RemoteReady?;
      match w {
        case Blocked => result := L.Waiting;
        case Refused(why) => result := L.VerifyFailed(why);
        case Offline => result := LoadLocal(path, link);
        case RemoteReady => result := ReadRemote(path, link);
      }
    }

    /** Record the most recent load; a verifier of the record sees it too. */
    method FlushAttempt()
      requires Valid() && mostRecentLoadAttempt.Attempt?
      modifies this`mostRecentLoadAttempt, traversalRecord.repr, verifier
      ensures Valid() && Abs() == L.Flush(old(Abs())) && verifier == old(verifier)
      ensures fresh(traversalRecord.repr - old(traversalRecord.repr))
    {
      RecordStep(mostRecentLoadAttempt.path, mostRecentLoadAttempt.link, mostRecentLoadAttempt.successful);
      Remember(L.NoAttempt);
    }

    method RecordStep(path: Path, link: Cid, successful: bool)
      requires Valid()
      modifies traversalRecord.repr, verifier
      ensures Valid() && fresh(traversalRecord.repr - old(traversalRecord.repr))
      ensures Abs() == L.WithStep(old(Abs()), path, link, successful)
    {
      AddStep(path, link, successful);
    }

    method AddStep(path: Path, link: Cid, successful: bool)
      requires Valid()
      modifies traversalRecord.repr, verifier
      ensures Valid() && fresh(traversalRecord.repr - old(traversalRecord.repr))
      ensures traversalRecord.model == Insert(old(traversalRecord.model), path, link, successful)
      ensures verifier != null ==> verifier.model == V.Reread(old(verifier.model), traversalRecord.model)
    {
      assert PartOK(TheRecord) && PartOK(TheQueue) && PartOK(TheVerifier);
      if verifier == null {
        InsertKeepsShape(traversalRecord.model, path, link, successful);
        traversalRecord.RecordNextStep(path, link, successful);
      } else {
        RecordUnder(traversalRecord, verifier, path, link, successful);
      }
      assert PartOK(TheRecord) && PartOK(TheQueue) && PartOK(TheVerifier);
    }

    method Flush()
      requires Valid()
      modifies this`mostRecentLoadAttempt, traversalRecord.repr, verifier
      ensures Valid() && Abs() == L.Flush(old(Abs())) && verifier == old(verifier)
      ensures fresh(traversalRecord.repr - old(traversalRecord.repr))
    {
      if mostRecentLoadAttempt.Attempt? {
        FlushAttempt();
      }
    }

    method ReadAndRemember(path: Path, link: Cid) returns (result: L.LoadResult)
      requires Valid()
      modifies this`verifier, this`mostRecentLoadAttempt, verifier, pathTracker, lsys, remoteQueue, remoteQueue.pool,
               remoteQueue.Used()`block
      ensures Valid() && (Abs(), result) == L.ReadAndRemember(old(Abs()), path, link)
      ensures Shrunk() && (verifier == null || verifier == old(verifier))
    {
      var usedRemote;
      usedRemote, result := BlockRead(path, link);
      if !result.Waiting? {
        Remember(L.Attempt(path, link, result.Data?, usedRemote));
      }
    }

    /** Record the load before, wait for the remote, and load. */
    method BlockReadOpener(path: Path, link: Cid) returns (result: L.LoadResult)
      requires Valid()
      modifies this, traversalRecord.repr, verifier, pathTracker, lsys, remoteQueue, remoteQueue.pool,
               remoteQueue.Used()`block
      ensures Valid() && (Abs(), result) == L.BlockReadOpener(old(Abs()), path, link)
      ensures Shrunk() && fresh(traversalRecord.repr - old(traversalRecord.repr))
              && (verifier == null || verifier == old(verifier))
    {
      Flush();
      result := ReadAndRemember(path, link);
    }

    /** What the retried load used the remote for is put back first. */
    method PrepareRetry()
      requires Valid() && mostRecentLoadAttempt.Attempt?
      modifies this`mostRecentLoadAttempt, remoteQueue
      ensures Valid() && remoteQueue.Shrinks()
      ensures var l := old(Abs()).(recent := L.NoAttempt);
              Abs() == if old(mostRecentLoadAttempt).usedRemote then L.RetryQueue(l) else l
      ensures !old(mostRecentLoadAttempt).usedRemote ==> unchanged(remoteQueue)
    {
      var usedRemote := mostRecentLoadAttempt.usedRemote;
      Remember(L.NoAttempt);
      if usedRemote {
        Requeue();
      }
    }

    method Remember(attempt: L.LoadAttempt)
      requires Valid()
      modifies this`mostRecentLoadAttempt
      ensures Valid() && Abs() == old(Abs()).(recent := attempt)
    {
      mostRecentLoadAttempt := attempt;
    }

    method Requeue()
      requires Valid()
      modifies remoteQueue
      ensures Valid() && Abs() == L.RetryQueue(old(Abs())) && remoteQueue.Shrinks()
    {
      assert PartOK(TheQueue);
      remoteQueue.RetryLast();
      QueueChanged();
    }

    /** Retrying keeps every recycled node out of use unless the load had used the remote. */
    method RetryLastLoad() returns (result: L.LoadResult)
      requires Valid()
      modifies this, traversalRecord.repr, verifier, pathTracker, lsys, remoteQueue, remoteQueue.pool,
               remoteQueue.Used()`block
      ensures Valid() && (Abs(), result) == L.RetryLastLoad(old(Abs()))
      ensures remoteQueue.Shrinks()
      ensures L.RetriesLocally(old(Abs()), L.OnRetry) && old(Clean()) ==> Clean()
      ensures fresh(traversalRecord.repr - old(traversalRecord.repr)) && (verifier == null || verifier == old(verifier))
    {
      if mostRecentLoadAttempt.NoAttempt? {
        return L.NothingToRetry;
      }
      var retry := mostRecentLoadAttempt;
      PrepareRetry();
      result := BlockReadOpener(retry.path, retry.link);
    }

    /** What only this loader uses. */
    ghost function Foot(): set<object>
      reads this, traversalRecord, remoteQueue
    {
      {this, remoteQueue, pathTracker} + traversalRecord.repr + (if verifier == null then {} else {verifier})
        + remoteQueue.Used()
    }

    /** What it shares: the store, the pool and the nodes in it. */
    ghost function Shared(): set<object>
      reads remoteQueue, remoteQueue.pool
    {
      {lsys, remoteQueue.pool} + remoteQueue.pool.items
    }

    /** Whatever happens elsewhere does not matter to the loader, but for what is in its store. */
    twostate lemma {:induction false} Undisturbed()
      requires old(Valid()) && unchanged(old(Foot()))
      ensures Valid() && Foot() == old(Foot()) && Abs() == old(Abs()).(store := lsys.blocks)
      ensures remoteQueue.Last() == old(remoteQueue.Last()) && remoteQueue.Used() == old(remoteQueue.Used())
    {
      assert old(PartOK(TheRecord)) && old(PartOK(TheQueue)) && old(PartOK(TheVerifier));
      remoteQueue.Undisturbed();
      assert PartOK(TheRecord) && PartOK(TheQueue) && PartOK(TheVerifier);
    }

    /** One event, with no node recycled in use. */
    method Perform(e: L.Event)
      requires Valid() && Clean() && L.RetriesLocally(Abs(), e)
      modifies Foot(), Shared()
      ensures Valid() && Clean() && Abs() == L.Step(old(Abs()), e)
      ensures fresh(Foot() + remoteQueue.pool.items - old(Foot() + remoteQueue.pool.items))
    {
      match e {
        case OnIngest(md, blocks) =>
          assert PartOK(TheQueue);
          IngestResponse(md, blocks);
        case OnRemoteState(online) => SetRemoteOnline(online);
        case OnLoad(path, link) => Load(path, link);
        case OnRetry => Retry();
        case OnCleanup =>
          assert PartOK(TheQueue);
          Cleanup(remoteQueue.spine);
      }
    }

    method Load(path: Path, link: Cid)
      requires Valid() && Clean()
      modifies Foot(), Shared()
      ensures Valid() && Clean() && Abs() == L.Step(old(Abs()), L.OnLoad(path, link))
      ensures fresh(Foot() + remoteQueue.pool.items - old(Foot() + remoteQueue.pool.items))
    {
      var _ := BlockReadOpener(path, link);
    }

    method Retry()
      requires Valid() && Clean() && L.RetriesLocally(Abs(), L.OnRetry)
      modifies Foot(), Shared()
      ensures Valid() && Clean() && Abs() == L.Step(old(Abs()), L.OnRetry)
      ensures fresh(Foot() + remoteQueue.pool.items - old(Foot() + remoteQueue.pool.items))
    {
      var _ := RetryLastLoad();
    }
  }

  /** The item that a retry can leave behind makes a load store a block that is not its own. */
  method RetryStoresWrongBlock(s: Story, path: Path) returns (stored: map<Cid, Bytes>)
    ensures stored == map[s.z := s.blockY]
  {
    var item := RecycledNodeMixesItems(s);
    var (l, _) := L.Settle(L.NEW_LOADER, item.value, path, s.z);
    stored := l.store;
  }

  /** It does so in a request that retried nothing, too. */
  method OtherRequestStoresWrongBlock(s: Story, path: Path) returns (stored: map<Cid, Bytes>)
    ensures stored == map[s.z := s.blockY]
  {
    var item := RecycledNodeReachesOthers(s);
    var (l, _) := L.Settle(L.NEW_LOADER, item.value, path, s.z);
    stored := l.store;
  }
}
