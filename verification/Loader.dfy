/**
  The reconciled loader as a value: loads come from the remote's items while the remote is
  still following the traversal, and from the local store otherwise.  LoaderObject.dfy
  implements it with the record, the verifier and the linked queue as objects.
 */
module Loaders {
  import opened Core
  import opened Trie
  import opened RemoteQueues
  import V = Verifier

  datatype LoadAttempt = NoAttempt | Attempt(path: Path, link: Cid, successful: bool, usedRemote: bool)

  datatype Loader = Loader(
    record: Trie,
    recent: LoadAttempt,
    unfollowed: Path,              // lastUnfollowedRemotePath
    open: bool,
    verifier: Option<V.Stack>,
    queue: seq<RemoteItem>,
    last: LastConsumed,
    cutOff: bool,                  // the tail is not reachable from the head or the last consumed item
    store: map<Cid, Bytes>,
    unwritable: set<Cid>)          // links whose blocks the local store refuses

  datatype LoadResult =
    | Data(bytes: Bytes, fromLocal: bool)
    | MissingBlock(link: Cid, path: Path)
    | Incorrect(local: Cid, remote: Cid, path: Path)
    | VerifyFailed(why: V.Refusal)
    | WriteFailed
    | NothingToRetry
    | Waiting                      // blocked until the remote state changes

  datatype WaitResult = RemoteReady | Offline | Refused(why: V.Refusal) | Blocked

  const NEW_LOADER := Loader(EMPTY, NoAttempt, [], false, None, [], NoLast, false, map[], {})

  ghost predicate Valid(l: Loader) {
    Recorded(l.record) && (l.verifier.Some? ==> V.LiveIn(l.verifier.value, l.record))
  }

  // ------------------------------------------------------------- path tracker

  predicate StillOnUnfollowed(unfollowed: Path, newPath: Path) {
    |unfollowed| != 0 && |newPath| > |unfollowed|
  }

  function AfterLookup(unfollowed: Path, newPath: Path): Path {
    if |unfollowed| != 0 && |newPath| <= |unfollowed| then [] else unfollowed
  }

  function AfterAttempt(unfollowed: Path, path: Path, action: LinkAction): Path {
    if action.DidFollowLink() then unfollowed else path
  }

  // -------------------------------------------------------------------- queue

  function Consume(l: Loader): Loader
    requires l.queue != []
  {
    l.(queue := l.queue[1..], last := Attached(l.queue[0].(block := None)))
  }

  function Enqueue(l: Loader, items: seq<RemoteItem>): Loader {
    l.(queue := Enqueued(l.queue, l.cutOff, items), cutOff := StaysCutOff(l.queue, l.cutOff, items),
       last := LastAfter(l.last, l.queue, items))
  }

  function RetryQueue(l: Loader): Loader {
    match l.last
    case Attached(item) => l.(queue := [item] + l.queue, last := Requeued)
    case Detached(item) => l.(queue := [item], last := Requeued, cutOff := true)
    case _ => l
  }

  // --------------------------------------------------------------- operations

  function SetRemoteOnline(l: Loader, online: bool): Loader {
    if online && !l.open then l.(open := true, verifier := Some(V.New(l.record)))
    else l.(open := online)
  }

  function Ingest(l: Loader, md: seq<Metadatum>, blocks: map<Cid, Bytes>): Loader {
    if l.open then Enqueue(l, Ingested(md, blocks)) else l
  }

  lemma {:induction false} IngestIs(l: Loader, md: seq<Metadatum>, blocks: map<Cid, Bytes>)
    ensures Ingest(l, md, blocks) == Enqueue(l, if l.open then Ingested(md, blocks) else [])
  {
    assert l.queue + [] == l.queue;
  }

  function Cleanup(l: Loader): Loader {
    l.(queue := [], last := NoLast, cutOff := false)
  }

  /** Move the verifier past an item, if the record has it. */
  function Check(l: Loader, head: RemoteItem): (r: (Loader, Option<V.Refusal>))
    requires Valid(l) && l.verifier.Some?
    ensures Valid(r.0) && r.0.queue == l.queue
  {
    var s := l.verifier.value;
    var v := V.VerifyNext(s, V.Item(head.link, head.action.DidFollowLink()));
    if v.Refused? then (l, Some(v.why))
    else
      V.NextLive(s, l.record, head.action.DidFollowLink());
      (l.(verifier := Some(v.stack)), None)
  }

  /** The verdict on an item that the record says is at `path`. */
  function Judge(l: Loader, path: Path, head: RemoteItem): (r: (Loader, Option<V.Refusal>))
    requires Valid(l) && l.verifier.Some?
    ensures Valid(r.0) && r.0.queue == l.queue
  {
    var (l', err) := Check(l, head);
    if err.None? then (l'.(unfollowed := AfterAttempt(l'.unfollowed, path, head.action)), None) else (l', err)
  }

  /** Check the head of the queue against the record. */
  function VerifyHead(l: Loader): (r: (Loader, Option<V.Refusal>))
    requires Valid(l) && l.queue != [] && l.verifier.Some? && !V.Done(l.verifier.value)
    ensures Valid(r.0) && |r.0.queue| < |l.queue|
  {
    Judge(Consume(l), V.CurrentPath(l.verifier.value), l.queue[0])
  }

  /** Verify queued items against the record until the record is exhausted, or until there is nothing to wait for. */
  function WaitRemote(l: Loader): (r: (Loader, WaitResult))
    requires Valid(l)
    decreases |l.queue|
  {
    if l.queue != [] then
      if l.verifier.None? || V.Done(l.verifier.value) then (l.(verifier := None), RemoteReady)
      else
        var (l', err) := VerifyHead(l);
        if err.Some? then (l', Refused(err.value)) else WaitRemote(l')
    else (l, if l.open then Blocked else Offline)
  }

  function LoadLocal(l: Loader, path: Path, link: Cid): LoadResult {
    if link in l.store then Data(l.store[link], true) else MissingBlock(link, path)
  }

  /** What an item that was taken off means for a load; None means that the local store has to be tried. */
  function Settle(l: Loader, head: RemoteItem, path: Path, link: Cid): (Loader, Option<LoadResult>) {
    if head.link != link then (l, Some(Incorrect(link, head.link, path)))
    else
      var tracked := l.(unfollowed := AfterAttempt(l.unfollowed, path, head.action));
      if head.block.None? then (tracked, None)
      else if link in l.unwritable then (tracked, Some(WriteFailed))
      else (tracked.(store := l.store[link := head.block.value]), Some(Data(head.block.value, false)))
  }

  /** The load from the head of the queue. */
  function LoadRemote(l: Loader, path: Path, link: Cid): (Loader, Option<LoadResult>)
    requires l.queue != []
  {
    Settle(Consume(l), l.queue[0], path, link)
  }

  /** The load from the head of the queue, or else from the local store. */
  function LoadEither(l: Loader, path: Path, link: Cid): (Loader, LoadResult)
    requires l.queue != []
  {
    var (l', r) := LoadRemote(l, path, link);
    (l', if r.Some? then r.value else LoadLocal(l', path, link))
  }

  /** The load once the remote has an item waiting. */
  function ReadRemote(l: Loader, path: Path, link: Cid): (Loader, LoadResult)
    requires l.queue != []
  {
    var l' := l.(unfollowed := AfterLookup(l.unfollowed, path));
    if StillOnUnfollowed(l.unfollowed, path) then (l', LoadLocal(l', path, link)) else LoadEither(l', path, link)
  }

  /** The load, by how the wait ended. */
  function AfterWait(l: Loader, w: WaitResult, path: Path, link: Cid): (r: (Loader, bool, LoadResult))
    requires w.RemoteReady? ==> l.queue != []
  {
    match w
    case Blocked => (l, false, Waiting)
    case Refused(why) => (l, false, VerifyFailed(why))
    case Offline => (l, false, LoadLocal(l, path, link))
    case RemoteReady => (ReadRemote(l, path, link).0, true, ReadRemote(l, path, link).1)
  }

  function BlockRead(l: Loader, path: Path, link: Cid): (r: (Loader, bool, LoadResult))
    requires Valid(l)
  {
    WaitKeeps(l);
    AfterWait(WaitRemote(l).0, WaitRemote(l).1, path, link)
  }

  /** The record with one more step in it, which a verifier of the record sees too. */
  function WithStep(l: Loader, path: Path, link: Cid, successful: bool): Loader {
    var t := Insert(l.record, path, link, successful);
    l.(record := t, verifier := if l.verifier.Some? then Some(V.Reread(l.verifier.value, t)) else None)
  }

  /** The record with the most recent load in it. */
  function Flush(l: Loader): Loader {
    if l.recent.NoAttempt? then l
    else WithStep(l, l.recent.path, l.recent.link, l.recent.successful).(recent := NoAttempt)
  }

  /** A load that has to be recorded before the next one. */
  function ReadAndRemember(l: Loader, path: Path, link: Cid): (r: (Loader, LoadResult))
    requires Valid(l)
  {
    var (l', usedRemote, result) := BlockRead(l, path, link);
    if result.Waiting? then (l', result)
    else (l'.(recent := Attempt(path, link, result.Data?, usedRemote)), result)
  }

  function BlockReadOpener(l: Loader, path: Path, link: Cid): (r: (Loader, LoadResult))
    requires Valid(l)
  {
    FlushKeeps(l);
    ReadAndRemember(Flush(l), path, link)
  }

  function RetryLastLoad(l: Loader): (r: (Loader, LoadResult))
    requires Valid(l)
  {
    if l.recent.NoAttempt? then (l, NothingToRetry)
    else
      var l' := l.(recent := NoAttempt);
      BlockReadOpener(if l.recent.usedRemote then RetryQueue(l') else l', l.recent.path, l.recent.link)
  }

  lemma {:induction false} FlushKeeps(l: Loader)
    requires Valid(l)
    ensures Valid(Flush(l))
  {
    if l.recent.Attempt? {
      InsertKeepsShape(l.record, l.recent.path, l.recent.link, l.recent.successful);
      if l.verifier.Some? {
        V.RereadLive(l.verifier.value, l.record, l.recent.path, l.recent.link, l.recent.successful);
      }
    }
  }

  lemma {:induction false} WaitKeeps(l: Loader)
    requires Valid(l)
    ensures var (l', w) := WaitRemote(l);
            && Valid(l') && l'.record == l.record && l'.recent == l.recent && l'.open == l.open
            && l'.store == l.store && l'.unwritable == l.unwritable
            && (w.RemoteReady? ==> l'.queue != [] && l'.verifier == None)
            && (w.Offline? ==> l'.queue == [] && !l'.open)
            && (w.Blocked? ==> l'.queue == [] && l'.open)
    decreases |l.queue|
  {
    if l.queue != [] && l.verifier.Some? && !V.Done(l.verifier.value) {
      var (l', err) := VerifyHead(l);
      if err.None? {
        WaitKeeps(l');
      }
    }
  }

  lemma ReadRemoteKeeps(l: Loader, path: Path, link: Cid)
    requires l.queue != []
    ensures var l' := ReadRemote(l, path, link).0;
            && l'.record == l.record && l'.verifier == l.verifier
            && l'.recent == l.recent && l'.open == l.open && l'.unwritable == l.unwritable
  {
  }

  lemma {:induction false} ReadKeeps(l: Loader, path: Path, link: Cid)
    requires Valid(l)
    ensures var l' := BlockRead(l, path, link).0;
            && l'.record == l.record && (l'.verifier.Some? ==> V.LiveIn(l'.verifier.value, l'.record))
            && l'.recent == l.recent && l'.open == l.open && l'.unwritable == l.unwritable
  {
    WaitKeeps(l);
    if WaitRemote(l).1.RemoteReady? {
      ReadRemoteKeeps(WaitRemote(l).0, path, link);
    }
  }

  lemma {:induction false} LoadKeeps(l: Loader, path: Path, link: Cid)
    requires Valid(l)
    ensures Valid(BlockReadOpener(l, path, link).0)
  {
    FlushKeeps(l);
    ReadKeeps(Flush(l), path, link);
  }

  /** A finished load is what the record will hold next: nothing is forgotten and nothing recorded twice. */
  lemma {:induction false} LoadIsRecorded(l: Loader, path: Path, link: Cid)
    requires Valid(l)
    ensures var (l', r) := BlockReadOpener(l, path, link);
            Flush(l').record == if r.Waiting? then Flush(l).record
                                else Insert(Flush(l).record, path, link, r.Data?)
  {
    FlushKeeps(l);
    ReadKeeps(Flush(l), path, link);
  }

  // --------------------------------------------------------------- going online again

  ghost function Followed(items: seq<RemoteItem>): seq<V.Item> {
    seq(|items|, i requires 0 <= i < |items| => V.Item(items[i].link, items[i].action.DidFollowLink()))
  }

  /** The path of the last item that was not followed, or what was tracked before. */
  ghost function Tracked(unfollowed: Path, items: seq<RemoteItem>, w: seq<Visit>): Path
    requires |items| <= |w|
    decreases |items|
  {
    if items == [] then unfollowed
    else Tracked(AfterAttempt(unfollowed, w[0].path, items[0].action), items[1..], w[1..])
  }

  /** There is a verifier whose tip is the next link to verify. */
  ghost predicate Verifying(l: Loader) {
    l.verifier.Some? && V.Valid(l.verifier.value)
  }

  /** While the queued items match the walk that is left to verify, they are taken off and nothing else changes. */
  lemma {:induction false} WaitVerifies(l: Loader, n: nat, cut: set<Path>)
    requires Valid(l) && Verifying(l)
    requires n <= |l.queue| && V.Matches(Followed(l.queue[..n]), V.Remaining(l.verifier.value, cut), cut)
    ensures exists m :: Verified(l, m, n, cut) && WaitRemote(l) == WaitRemote(m)
    decreases n
  {
    if n == 0 {
      assert Verified(l, l, 0, cut) by {
        assert l.queue[0..] == l.queue;
      }
    } else {
      var l1 := VerifyOne(l, n, cut);
      WaitVerifies(l1, n - 1, cut);
      var l' :| Verified(l1, l', n - 1, cut) && WaitRemote(l1) == WaitRemote(l');
      VerifiedTrans(l, l1, l', n, cut);
    }
  }

  /** A head that matches the walk is taken off, and the verifier moves along the walk. */
  lemma {:induction false} VerifyHeadMatching(l: Loader, cut: set<Path>)
    requires Valid(l) && Verifying(l) && l.queue != [] && V.Remaining(l.verifier.value, cut) != []
    requires V.MatchesAt(V.Item(l.queue[0].link, l.queue[0].action.DidFollowLink()),
             V.Remaining(l.verifier.value, cut)[0], cut)
    ensures !V.Done(l.verifier.value) && VerifyHead(l).1 == None
    ensures var l', w := VerifyHead(l).0, V.Remaining(l.verifier.value, cut);
            && Verifying(l') && V.Remaining(l'.verifier.value, cut) == w[1..]
            && l'.queue == l.queue[1..] && l'.unfollowed == AfterAttempt(l.unfollowed, w[0].path, l.queue[0].action)
            && (l'.record, l'.recent, l'.open, l'.store, l'.unwritable) ==
              (l.record, l.recent, l.open, l.store, l.unwritable)
  {
    V.StepRemaining(l.verifier.value, V.Item(l.queue[0].link, l.queue[0].action.DidFollowLink()), cut);
  }

  lemma WaitUnfolds(l: Loader)
    requires Valid(l) && l.queue != []
    ensures l.verifier.None? || V.Done(l.verifier.value) ==> WaitRemote(l) == (l.(verifier := None), RemoteReady)
    ensures l.verifier.Some? && !V.Done(l.verifier.value) ==>
              var (l', err) := VerifyHead(l);
              WaitRemote(l) == if err.Some? then (l', Refused(err.value)) else WaitRemote(l')
  {
  }

  ghost predicate HeadMatches(l: Loader, cut: set<Path>) {
    && Valid(l) && Verifying(l) && l.queue != [] && V.Remaining(l.verifier.value, cut) != []
    && V.MatchesAt(V.Item(l.queue[0].link, l.queue[0].action.DidFollowLink()), V.Remaining(l.verifier.value, cut)[0],
      cut)
  }

  lemma {:induction false} HeadIsVerified(l: Loader, cut: set<Path>)
    requires HeadMatches(l, cut)
    ensures !V.Done(l.verifier.value) && VerifyHead(l).1 == None && Verified(l, VerifyHead(l).0, 1, cut)
  {
    VerifyHeadMatching(l, cut);
    var l1, w := VerifyHead(l).0, V.Remaining(l.verifier.value, cut);
    assert l.queue[..1][1..] == [];
    assert Tracked(l.unfollowed, l.queue[..1], w) == Tracked(l1.unfollowed, [], w[1..]) == l1.unfollowed;
  }

  lemma {:induction false} VerifyOne(l: Loader, n: nat, cut: set<Path>) returns (l1: Loader)
    requires Valid(l) && Verifying(l)
    requires 0 < n <= |l.queue| && V.Matches(Followed(l.queue[..n]), V.Remaining(l.verifier.value, cut), cut)
    ensures Valid(l1) && Verifying(l1) && Verified(l, l1, 1, cut) && WaitRemote(l) == WaitRemote(l1)
    ensures V.Matches(Followed(l1.queue[..n - 1]), V.Remaining(l1.verifier.value, cut), cut)
  {
    var items, w := Followed(l.queue[..n]), V.Remaining(l.verifier.value, cut);
    assert HeadMatches(l, cut) by {
      assert V.MatchesAt(items[0], w[0], cut);
    }
    HeadIsVerified(l, cut);
    WaitUnfolds(l);
    l1 := VerifyHead(l).0;
    assert Followed(l1.queue[..n - 1]) == items[1..];
    MatchesTail(items, w, cut);
  }

  lemma {:induction false} MatchesTail(items: seq<V.Item>, w: seq<Visit>, cut: set<Path>)
    requires items != [] && V.Matches(items, w, cut)
    ensures V.Matches(items[1..], w[1..], cut)
  {
    forall i | 0 <= i < |items| - 1 ensures V.MatchesAt(items[1..][i], w[1..][i], cut) {
      assert V.MatchesAt(items[i + 1], w[i + 1], cut);
    }
  }

  lemma {:induction false} VerifiedTrans(l: Loader, l1: Loader, l2: Loader, n: nat, cut: set<Path>)
    requires Valid(l) && Verifying(l) && 0 < n <= |l.queue|
    requires Verified(l, l1, 1, cut) && Verified(l1, l2, n - 1, cut)
    ensures Verified(l, l2, n, cut)
  {
    var w := V.Remaining(l.verifier.value, cut);
    assert w[1..][n - 1..] == w[n..];
    assert l1.queue[n - 1..] == l.queue[n..];
    assert l1.queue[..n - 1] == l.queue[..n][1..];
    assert l.queue[..1][1..] == [];
    var t := AfterAttempt(l.unfollowed, w[0].path, l.queue[0].action);
    assert Tracked(l.unfollowed, l.queue[..1], w) == Tracked(t, [], w[1..]) == t;
    assert Tracked(l.unfollowed, l.queue[..n], w) == Tracked(t, l.queue[..n][1..], w[1..]);
  }

  /** m is l with n queued items verified against the walk. */
  ghost predicate Verified(l: Loader, m: Loader, n: nat, cut: set<Path>)
    requires Valid(l) && Verifying(l) && n <= |l.queue|
  {
    && Valid(m) && Verifying(m)
    && n <= |V.Remaining(l.verifier.value, cut)|
    && V.Remaining(m.verifier.value, cut) == V.Remaining(l.verifier.value, cut)[n..]
    && m.queue == l.queue[n..]
    && m.unfollowed == Tracked(l.unfollowed, l.queue[..n], V.Remaining(l.verifier.value, cut))
    && (m.record, m.recent, m.open, m.store, m.unwritable) == (l.record, l.recent, l.open, l.store, l.unwritable)
  }

  /** The items begin with the walk of the record, with the subtrees under unfollowed ones cut. */
  ghost predicate StartWith(items: seq<RemoteItem>, t: Trie, n: nat, cut: set<Path>) {
    n <= |items| && n <= |Walk(t, [], cut)| && V.Matches(Followed(items[..n]), Walk(t, [], cut), cut)
  }

  /** A loader whose verifier has the walk of a record to verify. */
  ghost predicate Verifies(l: Loader, t: Trie, cut: set<Path>) {
    Valid(l) && Verifying(l) && V.Remaining(l.verifier.value, cut) == Walk(t, [], cut)
  }

  lemma {:induction false} WaitSkipsRecord(l: Loader, t: Trie, n: nat, cut: set<Path>)
    requires Verifies(l, t, cut) && n < |l.queue| && n == |Walk(t, [], cut)| && StartWith(l.queue, t, n, cut)
    ensures var (l', w) := WaitRemote(l);
            && w == RemoteReady && l'.queue == l.queue[n..] && l'.verifier == None
            && l'.record == l.record && l'.store == l.store
            && l'.unfollowed == Tracked(l.unfollowed, l.queue[..n], Walk(t, [], cut))
  {
    WaitVerifies(l, n, cut);
    var m :| Verified(l, m, n, cut) && WaitRemote(l) == WaitRemote(m);
    V.StepRemaining(m.verifier.value, V.Item(0, true), cut);
  }

  lemma {:induction false} WaitRefuses(l: Loader, t: Trie, n: nat, cut: set<Path>)
    requires Verifies(l, t, cut) && n < |l.queue| && n < |Walk(t, [], cut)| && StartWith(l.queue, t, n, cut)
    requires l.queue[n].link != Walk(t, [], cut)[n].link
    ensures var v := Walk(t, [], cut)[n];
            && WaitRemote(l).1 == Refused(V.IncorrectResponse(v.link, l.queue[n].link, v.path))
            && WaitRemote(l).0.queue == l.queue[n + 1..]
  {
    WaitVerifies(l, n, cut);
    var m :| Verified(l, m, n, cut) && WaitRemote(l) == WaitRemote(m);
    assert m.queue[0] == l.queue[n] && m.queue[1..] == l.queue[n + 1..];
    HeadRefused(m, cut);
  }

  lemma {:induction false} HeadRefused(l: Loader, cut: set<Path>)
    requires Valid(l) && Verifying(l) && l.queue != [] && V.Remaining(l.verifier.value, cut) != []
    requires l.queue[0].link != V.Remaining(l.verifier.value, cut)[0].link
    ensures var v := V.Remaining(l.verifier.value, cut)[0];
            && WaitRemote(l).1 == Refused(V.IncorrectResponse(v.link, l.queue[0].link, v.path))
            && WaitRemote(l).0.queue == l.queue[1..]
  {
    V.StepRemaining(l.verifier.value, V.Item(l.queue[0].link, l.queue[0].action.DidFollowLink()), cut);
  }

  /** A load that was made offline and is still to be recorded leaves the record's first link where it is. */
  predicate PendingStays(l: Loader) {
    l.recent.Attempt? ==> V.FirstStays(l.record, l.recent.path)
  }

  /** Online again, with the remote's items in behind those that were left over. */
  function Reconnected(l: Loader, items: seq<RemoteItem>): Loader {
    Enqueue(SetRemoteOnline(l, true), items)
  }

  lemma {:induction false} ReconnectedIsValid(l: Loader, items: seq<RemoteItem>)
    requires Valid(l) && !l.open
    ensures Valid(Reconnected(l, items)) && Valid(Flush(Reconnected(l, items)))
    ensures Reconnected(l, items).verifier == Some(V.New(l.record))
    ensures var f := Flush(Reconnected(l, items));
            && f.queue == Enqueued(l.queue, l.cutOff, items) && f.record == Flush(l).record && f.recent == NoAttempt
            && f.unfollowed == l.unfollowed && f.store == l.store
  {
    V.NewRemaining(l.record, {});
    FlushKeeps(Reconnected(l, items));
  }

  /**
    What is verified after going online: the pending load too, exactly if it leaves the first
    link of the record in place.
   */
  function ToVerify(l: Loader): Trie {
    if PendingStays(l) then Flush(l).record else l.record
  }

  /** The verifier of a load after going online has that to verify; a root without a link counts as done. */
  lemma {:induction false} ReconnectedVerifies(l: Loader, items: seq<RemoteItem>, cut: set<Path>)
    requires Valid(l) && !l.open
    ensures var f := Flush(Reconnected(l, items));
            && Valid(f) && f.verifier.Some?
            && if l.record == EMPTY && !PendingStays(l) then V.Done(f.verifier.value) else Verifies(f, ToVerify(l), cut)
  {
    ReconnectedIsValid(l, items);
    V.NewRemaining(l.record, cut);
    if l.recent.Attempt? && PendingStays(l) {
      V.LiveVerifierIsNew(l.record, l.recent.path, l.recent.link, l.recent.successful);
      V.NewRemaining(Flush(l).record, cut);
    } else if l.recent.Attempt? {
      V.LiveVerifierMissesStep(l.record, l.recent.path, l.recent.link, l.recent.successful, cut);
    }
  }

  /** That covers the whole of the record exactly when the pending load keeps the first link. */
  lemma {:induction false} ReconnectedIsAtStart(l: Loader, items: seq<RemoteItem>)
    requires Valid(l) && !l.open
    ensures var f := Flush(Reconnected(l, items));
            Valid(f) && (f.verifier == Some(V.New(f.record)) <==> PendingStays(l))
  {
    ReconnectedIsValid(l, items);
    if l.recent.Attempt? {
      V.LiveVerifierIsNew(l.record, l.recent.path, l.recent.link, l.recent.successful);
    }
  }

  /**
    Going online with a record, and perhaps a load that is not in it yet: when the items, left
    over and new, start with the walk of what is to be verified (unfollowed subtrees cut), the
    next load takes off exactly those and reads the item behind them.
   */
  lemma {:induction false} ReconnectSkipsRecord(l: Loader, items: seq<RemoteItem>, n: nat, cut: set<Path>, path: Path,
                                                link: Cid)
    requires Valid(l) && !l.open && n < |Reconnected(l, items).queue|
    requires n == |Walk(ToVerify(l), [], cut)| && StartWith(Reconnected(l, items).queue, ToVerify(l), n, cut)
    ensures Valid(Reconnected(l, items)) && Valid(Flush(Reconnected(l, items)))
    ensures var q, (l', w) := Reconnected(l, items).queue, WaitRemote(Flush(Reconnected(l, items)));
            && w == RemoteReady && l'.queue == q[n..] && l'.verifier == None
            && l'.record == Flush(l).record && l'.store == l.store
            && l'.unfollowed == Tracked(l.unfollowed, q[..n], Walk(ToVerify(l), [], cut))
            && BlockReadOpener(Reconnected(l, items), path, link).1 == ReadRemote(l', path, link).1
            && BlockReadOpener(Reconnected(l, items), path, link).0.queue == ReadRemote(l', path, link).0.queue
  {
    ReconnectedIsValid(l, items);
    ReconnectedVerifies(l, items, cut);
    var f := Flush(Reconnected(l, items));
    if l.record == EMPTY && !PendingStays(l) {
      WaitUnfolds(f);
      assert f.queue[0..] == f.queue;
    } else {
      WaitSkipsRecord(f, ToVerify(l), n, cut);
    }
    ReadNeverWaits(WaitRemote(f).0, path, link);
  }

  lemma ReadNeverWaits(l: Loader, path: Path, link: Cid)
    requires l.queue != []
    ensures !ReadRemote(l, path, link).1.Waiting?
  {
  }

  /**
    When item n is the first that differs from what is to be verified, the next load fails and
    says what was expected where.
   */
  lemma {:induction false} ReconnectRefuses(l: Loader, items: seq<RemoteItem>, n: nat, cut: set<Path>, path: Path,
                                            link: Cid)
    requires Valid(l) && !l.open && n < |Reconnected(l, items).queue|
    requires n < |Walk(ToVerify(l), [], cut)| && StartWith(Reconnected(l, items).queue, ToVerify(l), n, cut)
    requires Reconnected(l, items).queue[n].link != Walk(ToVerify(l), [], cut)[n].link
    ensures Valid(Reconnected(l, items))
    ensures var q, v := Reconnected(l, items).queue, Walk(ToVerify(l), [], cut)[n];
            && BlockReadOpener(Reconnected(l, items), path, link).1 ==
              VerifyFailed(V.IncorrectResponse(v.link, q[n].link, v.path))
            && BlockReadOpener(Reconnected(l, items), path, link).0.queue == q[n + 1..]
  {
    ReconnectedIsValid(l, items);
    ReconnectedVerifies(l, items, cut);
    WaitRefuses(Flush(Reconnected(l, items)), ToVerify(l), n, cut);
  }

  /** The loader in which the wait of a retried load begins, after going online. */
  function Retried(l: Loader, items: seq<RemoteItem>): Loader
    requires l.recent.Attempt?
  {
    var m := Reconnected(l, items).(recent := NoAttempt);
    if l.recent.usedRemote then RetryQueue(m) else m
  }

  lemma {:induction false} RetriedIs(l: Loader, items: seq<RemoteItem>)
    requires !l.open && l.recent.Attempt?
    ensures var m := Retried(l, items);
            m.record == l.record && m.recent == NoAttempt && m.verifier == Some(V.New(l.record))
  {
  }

  lemma {:induction false} RetriedVerifies(l: Loader, items: seq<RemoteItem>, cut: set<Path>)
    requires Valid(l) && !l.open && l.recent.Attempt?
    ensures Valid(Reconnected(l, items)) && Verifies(Retried(l, items), l.record, cut)
    ensures Retried(l, items).record == l.record && Flush(Retried(l, items)) == Retried(l, items)
    ensures RetryLastLoad(Reconnected(l, items)) == ReadAndRemember(Retried(l, items), l.recent.path, l.recent.link)
  {
    ReconnectedIsValid(l, items);
    RetriedIs(l, items);
    V.NewRemaining(l.record, cut);
    V.NewLive(l.record);
    var m := Retried(l, items);
    assert Valid(m) && Verifies(m, l.record, cut);
    assert RetryLastLoad(Reconnected(l, items)) == BlockReadOpener(m, l.recent.path, l.recent.link);
  }

  /** Retrying a load after going online verifies the record without it, and then reads the item behind. */
  lemma {:induction false} RetryAfterReconnect(l: Loader, items: seq<RemoteItem>, n: nat, cut: set<Path>)
    requires Valid(l) && !l.open && l.recent.Attempt? && n < |Retried(l, items).queue|
    requires n == |Walk(l.record, [], cut)| && StartWith(Retried(l, items).queue, l.record, n, cut)
    ensures Valid(Reconnected(l, items)) && Valid(Retried(l, items))
    ensures var (l', w) := WaitRemote(Retried(l, items));
            && w == RemoteReady && l'.queue == Retried(l, items).queue[n..] && l'.record == l.record
            && RetryLastLoad(Reconnected(l, items)).1 == ReadRemote(l', l.recent.path, l.recent.link).1
  {
    RetriedVerifies(l, items, cut);
    WaitSkipsRecord(Retried(l, items), l.record, n, cut);
    ReadNeverWaits(WaitRemote(Retried(l, items)).0, l.recent.path, l.recent.link);
  }

  /**
    The item that the retried load finds first, its own one if it had used the remote, is
    refused by the record's first visit.
   */
  predicate RefusedAtOnce(item: RemoteItem, v: Visit) {
    item.link != v.link || (item.action.DidFollowLink() && !v.successful)
  }

  /**
    Retrying a load that had used the remote, after going online with a record: the item that
    is put back comes first, so it is verified as if it were for the first link of the record.
    It is refused exactly if it does not match that, and then the load fails.
   */
  lemma {:induction false} RemoteRetryIsRefused(l: Loader, items: seq<RemoteItem>)
    requires Valid(l) && !l.open && l.recent.Attempt? && l.recent.usedRemote && l.record != EMPTY
    requires l.last.Attached? || l.last.Detached?
    ensures Valid(Reconnected(l, items)) && Walk(l.record, [], {}) != []
    ensures var v, item, r := Walk(l.record, [], {})[0], l.last.item, RetryLastLoad(Reconnected(l, items));
            && (RefusedAtOnce(item, v) <==> VerifyHead(Retried(l, items)).1.Some?)
            && (item.link != v.link ==> r.1 == VerifyFailed(V.IncorrectResponse(v.link, item.link, v.path)))
            && (item.link == v.link && RefusedAtOnce(item, v) ==> r.1 == VerifyFailed(V.AdditionalData))
            && (RefusedAtOnce(item, v) ==> r.0.queue == Retried(l, items).queue[1..])
  {
    var m, item := Retried(l, items), l.last.item;
    RetriedVerifies(l, items, {});
    assert m.queue[0] == item;
    V.StepRemaining(m.verifier.value, V.Item(item.link, item.action.DidFollowLink()), {});
    WaitUnfolds(m);
  }

  // -------------------------------------------------------- content addressing

  datatype Event =
    | OnIngest(md: seq<Metadatum>, blocks: map<Cid, Bytes>)
    | OnRemoteState(online: bool)
    | OnLoad(path: Path, link: Cid)
    | OnRetry
    | OnCleanup

  function Step(l: Loader, e: Event): Loader
    requires Valid(l)
  {
    match e
    case OnIngest(md, blocks) => Ingest(l, md, blocks)
    case OnRemoteState(online) => SetRemoteOnline(l, online)
    case OnLoad(path, link) => BlockReadOpener(l, path, link).0
    case OnRetry => RetryLastLoad(l).0
    case OnCleanup => Cleanup(l)
  }

  lemma {:induction false} StepKeeps(l: Loader, e: Event)
    requires Valid(l)
    ensures Valid(Step(l, e))
  {
    match e {
      case OnLoad(path, link) => LoadKeeps(l, path, link);
      case OnRetry => RetryKeeps(l);
      case OnRemoteState(_) => V.NewRemaining(l.record, {});
      case _ =>
    }
  }

  lemma {:induction false} RetryKeeps(l: Loader)
    requires Valid(l)
    ensures Valid(RetryLastLoad(l).0)
  {
    var l' := l.(recent := NoAttempt);
    assert Valid(l') && Valid(RetryQueue(l'));
    if l.recent.Attempt? {
      LoadKeeps(l', l.recent.path, l.recent.link);
      LoadKeeps(RetryQueue(l'), l.recent.path, l.recent.link);
    }
  }

  /** Every block in the store and in the queue is the one its link names. */
  ghost predicate Addressed(l: Loader, names: (Cid, Bytes) -> bool) {
    && (forall c :: c in l.store ==> names(c, l.store[c]))
    && (forall i :: 0 <= i < |l.queue| ==> ItemAddressed(l.queue[i], names))
    && (l.last.Attached? || l.last.Detached? ==> l.last.item.block == None)
  }

  ghost predicate ItemAddressed(item: RemoteItem, names: (Cid, Bytes) -> bool) {
    item.block.Some? ==> names(item.link, item.block.value)
  }

  lemma {:induction false} WaitAddressed(l: Loader, names: (Cid, Bytes) -> bool)
    requires Valid(l) && Addressed(l, names)
    ensures Addressed(WaitRemote(l).0, names)
    decreases |l.queue|
  {
    if l.queue != [] && l.verifier.Some? && !V.Done(l.verifier.value) {
      var (l', err) := VerifyHead(l);
      if err.None? {
        WaitAddressed(l', names);
      }
    }
  }

  lemma {:induction false} ReadRemoteAddressed(l: Loader, path: Path, link: Cid, names: (Cid, Bytes) -> bool)
    requires l.queue != [] && Addressed(l, names)
    ensures Addressed(ReadRemote(l, path, link).0, names)
  {
    assert ItemAddressed(l.queue[0], names);
  }

  lemma {:induction false} ReadAddressed(l: Loader, path: Path, link: Cid, names: (Cid, Bytes) -> bool)
    requires Valid(l) && Addressed(l, names)
    ensures Addressed(BlockRead(l, path, link).0, names)
  {
    WaitAddressed(l, names);
    WaitKeeps(l);
    if WaitRemote(l).1.RemoteReady? {
      ReadRemoteAddressed(WaitRemote(l).0, path, link, names);
    }
  }

  lemma {:induction false} LoadAddressed(l: Loader, path: Path, link: Cid, names: (Cid, Bytes) -> bool)
    requires Valid(l) && Addressed(l, names)
    ensures Addressed(BlockReadOpener(l, path, link).0, names)
  {
    FlushKeeps(l);
    ReadAddressed(Flush(l), path, link, names);
  }

  ghost predicate EventAddressed(e: Event, names: (Cid, Bytes) -> bool) {
    e.OnIngest? ==> forall c :: c in e.blocks ==> names(c, e.blocks[c])
  }

  lemma {:induction false} StepAddressed(l: Loader, e: Event, names: (Cid, Bytes) -> bool)
    requires Valid(l) && Addressed(l, names) && EventAddressed(e, names)
    ensures Addressed(Step(l, e), names)
  {
    match e {
      case OnLoad(path, link) => LoadAddressed(l, path, link, names);
      case OnRetry => RetryAddressed(l, names);
      case _ =>
    }
  }

  lemma {:induction false} RetryAddressed(l: Loader, names: (Cid, Bytes) -> bool)
    requires Valid(l) && Addressed(l, names)
    ensures Addressed(RetryLastLoad(l).0, names)
  {
    if l.recent.Attempt? {
      RetryQueueAddressed(l.(recent := NoAttempt), names);
      var l' := if l.recent.usedRemote then RetryQueue(l.(recent := NoAttempt)) else l.(recent := NoAttempt);
      LoadAddressed(l', l.recent.path, l.recent.link, names);
    }
  }

  lemma {:induction false} RetryQueueAddressed(l: Loader, names: (Cid, Bytes) -> bool)
    requires Valid(l) && Addressed(l, names)
    ensures Valid(RetryQueue(l)) && Addressed(RetryQueue(l), names)
  {
    if l.last.Attached? || l.last.Detached? {
      assert ItemAddressed(l.last.item, names);
    }
  }

  /** No load that used the remote is retried: the caller sees usedRemote in the attempt. */
  predicate RetriesLocally(l: Loader, e: Event) {
    e.OnRetry? && l.recent.Attempt? ==> !l.recent.usedRemote
  }

  // ------------------------------------------------------------ many requests

  /** An event of one of the requests. */
  datatype Turn = Turn(who: nat, event: Event)

  ghost predicate AllValid(ls: seq<Loader>) {
    forall i :: 0 <= i < |ls| ==> Valid(ls[i])
  }

  /** The turns are those of loaders that there are, and every loader has a store. */
  predicate InRange(ls: seq<Loader>, stores: seq<nat>, turns: seq<Turn>) {
    |stores| == |ls| && forall t :: t in turns ==> t.who < |ls|
  }

  /** One loader makes a step; the others that have the same store see what it stored. */
  function AfterTurn(ls: seq<Loader>, stores: seq<nat>, t: Turn): (r: seq<Loader>)
    requires AllValid(ls) && InRange(ls, stores, [t]) && t.who < |ls|
    ensures |r| == |ls|
  {
    var l := Step(ls[t.who], t.event);
    seq(|ls|, j requires 0 <= j < |ls| =>
      if j == t.who then l else if stores[j] == stores[t.who] then ls[j].(store := l.store) else ls[j])
  }

  lemma {:induction false} TurnKeeps(ls: seq<Loader>, stores: seq<nat>, t: Turn)
    requires AllValid(ls) && InRange(ls, stores, [t]) && t.who < |ls|
    ensures AllValid(AfterTurn(ls, stores, t))
  {
    StepKeeps(ls[t.who], t.event);
  }

  /** Any number of requests, in any order of their events. */
  function RunAll(ls: seq<Loader>, stores: seq<nat>, turns: seq<Turn>): (r: seq<Loader>)
    requires AllValid(ls) && InRange(ls, stores, turns)
    ensures |r| == |ls|
    decreases |turns|
  {
    if turns == [] then ls
    else
      TurnKeeps(ls, stores, turns[0]);
      RunAll(AfterTurn(ls, stores, turns[0]), stores, turns[1..])
  }

  /** None of the requests retries a load that used the remote. */
  ghost predicate NoRemoteRetry(ls: seq<Loader>, stores: seq<nat>, turns: seq<Turn>)
    requires AllValid(ls) && InRange(ls, stores, turns)
    decreases |turns|
  {
    turns == [] ||
    (TurnKeeps(ls, stores, turns[0]);
     RetriesLocally(ls[turns[0].who], turns[0].event)
     && NoRemoteRetry(AfterTurn(ls, stores, turns[0]), stores, turns[1..]))
  }

  lemma {:induction false} RunStep(ls: seq<Loader>, stores: seq<nat>, turns: seq<Turn>)
    requires AllValid(ls) && InRange(ls, stores, turns) && turns != [] && NoRemoteRetry(ls, stores, turns)
    ensures turns[0].who < |ls| && RetriesLocally(ls[turns[0].who], turns[0].event)
    ensures var ls' := AfterTurn(ls, stores, turns[0]);
            && AllValid(ls') && NoRemoteRetry(ls', stores, turns[1..])
            && RunAll(ls', stores, turns[1..]) == RunAll(ls, stores, turns)
  {
    assert turns[0] in turns;
    TurnKeeps(ls, stores, turns[0]);
  }

  ghost predicate AllAddressed(ls: seq<Loader>, names: (Cid, Bytes) -> bool) {
    forall i :: 0 <= i < |ls| ==> Addressed(ls[i], names)
  }

  /** Whatever the remotes announce, a block only ever enters a store under a link that names it. */
  lemma {:induction false} StoreIsAddressed(ls: seq<Loader>, stores: seq<nat>, turns: seq<Turn>,
                                            names: (Cid, Bytes) -> bool)
    requires AllValid(ls) && InRange(ls, stores, turns) && NoRemoteRetry(ls, stores, turns) && AllAddressed(ls, names)
    requires forall t :: t in turns ==> EventAddressed(t.event, names)
    ensures AllAddressed(RunAll(ls, stores, turns), names)
    decreases |turns|
  {
    if turns != [] {
      RunStep(ls, stores, turns);
      var t := turns[0];
      assert Addressed(ls[t.who], names) && EventAddressed(t.event, names);
      StepAddressed(ls[t.who], t.event, names);
      StoreIsAddressed(AfterTurn(ls, stores, t), stores, turns[1..], names);
    }
  }
}
