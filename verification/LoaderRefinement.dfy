/**
  The loader refines the plain walk: what a local pre-order traversal gets from the
  loader, and what each of its loads takes from the remote's stream, against a simple
  walk of the same tree that knows which links the remote followed.
 */
module LoaderRefinement {
  import opened Core
  import opened Trie
  import opened RemoteQueues
  import opened Loaders
  import V = Verifier

  /**
    A link as both sides see it: what the remote says about it if it gets there, and the
    links below it, each at its own non-negative distance in path segments.
   */
  datatype Tree = Tree(link: Cid, action: LinkAction, block: Option<Bytes>, hop: Path, children: seq<Tree>) {
    function Item(): RemoteItem {
      RemoteItem(link, action, block)
    }
  }

  // ------------------------------------------------------- the remote's stream

  /** The remote's metadata: pre-order, with the subtrees under unfollowed links cut out. */
  function Stream(t: Tree): seq<RemoteItem>
    decreases t, |t.children| + 1
  {
    [t.Item()] + if t.action.DidFollowLink() then StreamFrom(t, 0) else []
  }

  function StreamFrom(t: Tree, i: nat): seq<RemoteItem>
    requires i <= |t.children|
    decreases t, |t.children| - i
  {
    if i == |t.children| then [] else Stream(t.children[i]) + StreamFrom(t, i + 1)
  }

  // ---------------------------------------------------------------- plain walk

  /** One load: what was taken from the stream for it, if anything, and what it returned. */
  datatype Entry = Entry(path: Path, link: Cid, own: Option<RemoteItem>, result: LoadResult)

  type Store = map<Cid, Bytes>

  function FromStore(store: Store, path: Path, link: Cid): LoadResult {
    if link in store then Data(store[link], true) else MissingBlock(link, path)
  }

  /** The load of a link: `followed` tells whether the remote reached it. */
  function PlainEntry(t: Tree, path: Path, followed: bool, store: Store): Entry {
    Entry(path, t.link, if followed then Some(t.Item()) else None,
          if followed && t.block.Some? then Data(t.block.value, false) else FromStore(store, path, t.link))
  }

  function StoreAfter(e: Entry, store: Store): Store {
    if e.own.Some? && e.own.value.block.Some? then store[e.link := e.own.value.block.value] else store
  }

  function StoreAfterAll(w: seq<Entry>, store: Store): Store {
    if w == [] then store else StoreAfterAll(w[1..], StoreAfter(w[0], store))
  }

  /** The plain walk: children are visited when the load of their parent gave data. */
  function Plain(t: Tree, path: Path, followed: bool, store: Store): seq<Entry>
    decreases t, |t.children| + 1
  {
    var e := PlainEntry(t, path, followed, store);
    [e] + if e.result.Data? then PlainFrom(t, 0, path, followed && t.action.DidFollowLink(), StoreAfter(e, store))
      else []
  }

  function PlainFrom(t: Tree, i: nat, path: Path, followed: bool, store: Store): seq<Entry>
    requires i <= |t.children|
    decreases t, |t.children| - i
  {
    if i == |t.children| then []
    else
      var here := Plain(t.children[i], path + t.children[i].hop, followed, store);
      here + PlainFrom(t, i + 1, path, followed, StoreAfterAll(here, store))
  }

  /** Every link that the remote followed could be loaded, from its block or the local store. */
  ghost predicate Served(w: seq<Entry>) {
    forall e :: e in w && e.own.Some? && e.own.value.action.DidFollowLink() ==> e.result.Data?
  }

  // ----------------------------------------------------- traversal by the loader

  function LoadEntry(l: Loader, path: Path, link: Cid): (Loader, Entry)
    requires Valid(l)
  {
    var (l', r) := BlockReadOpener(l, path, link);
    (l', Entry(path, link, if |l'.queue| < |l.queue| then Some(l.queue[0]) else None, r))
  }

  /** A local pre-order traversal whose loads go through the loader. */
  function Traverse(t: Tree, path: Path, l: Loader): (r: (Loader, seq<Entry>))
    requires Valid(l)
    ensures Valid(r.0)
    decreases t, |t.children| + 1
  {
    LoadKeeps(l, path, t.link);
    var (l1, e) := LoadEntry(l, path, t.link);
    if e.result.Data? then
      var (l2, w) := TraverseFrom(t, 0, path, l1);
      (l2, [e] + w)
    else (l1, [e])
  }

  function TraverseFrom(t: Tree, i: nat, path: Path, l: Loader): (r: (Loader, seq<Entry>))
    requires Valid(l) && i <= |t.children|
    ensures Valid(r.0)
    decreases t, |t.children| - i
  {
    if i == |t.children| then (l, [])
    else
      var (l1, w1) := Traverse(t.children[i], path + t.children[i].hop, l);
      var (l2, w2) := TraverseFrom(t, i + 1, path, l1);
      (l2, w1 + w2)
  }

  // ------------------------------------------- the loads of a walk, one by one

  /** Asking the loader for the loads of w, in order, gives exactly w. */
  ghost predicate Gives(l: Loader, w: seq<Entry>)
    requires Valid(l)
    decreases |w|
  {
    w == [] ||
    (LoadKeeps(l, w[0].path, w[0].link);
     LoadEntry(l, w[0].path, w[0].link).1 == w[0] && Gives(LoadEntry(l, w[0].path, w[0].link).0, w[1..]))
  }

  function After(l: Loader, w: seq<Entry>): (r: Loader)
    requires Valid(l)
    ensures Valid(r)
    decreases |w|
  {
    if w == [] then l
    else
      LoadKeeps(l, w[0].path, w[0].link);
      After(LoadEntry(l, w[0].path, w[0].link).0, w[1..])
  }

  lemma {:induction false} GivesConcat(l: Loader, a: seq<Entry>, b: seq<Entry>)
    requires Valid(l)
    ensures After(l, a + b) == After(After(l, a), b)
    ensures Gives(l, a + b) <==> Gives(l, a) && Gives(After(l, a), b)
    decreases |a|
  {
    if a == [] {
      assert a + b == b;
    } else {
      LoadKeeps(l, a[0].path, a[0].link);
      assert (a + b)[1..] == a[1..] + b;
      GivesConcat(LoadEntry(l, a[0].path, a[0].link).0, a[1..], b);
    }
  }

  /** A traversal is the sequence of its own loads. */
  lemma {:induction false} TraverseIsLoads(t: Tree, path: Path, l: Loader)
    requires Valid(l)
    ensures var (l', w) := Traverse(t, path, l); Gives(l, w) && After(l, w) == l'
    decreases t, |t.children| + 1
  {
    LoadKeeps(l, path, t.link);
    var (l1, e) := LoadEntry(l, path, t.link);
    if e.result.Data? {
      TraverseFromIsLoads(t, 0, path, l1);
    }
  }

  lemma {:induction false} TraverseFromIsLoads(t: Tree, i: nat, path: Path, l: Loader)
    requires Valid(l) && i <= |t.children|
    ensures var (l', w) := TraverseFrom(t, i, path, l); Gives(l, w) && After(l, w) == l'
    decreases t, |t.children| - i
  {
    if i < |t.children| {
      var (l1, w1) := Traverse(t.children[i], path + t.children[i].hop, l);
      TraverseIsLoads(t.children[i], path + t.children[i].hop, l);
      TraverseFromIsLoads(t, i + 1, path, l1);
      GivesConcat(l, w1, TraverseFrom(t, i + 1, path, l1).1);
    }
  }

  /** If the loader gives the plain walk's loads, the traversal is the plain walk. */
  lemma {:induction false} GivenPlainIsTraversal(t: Tree, path: Path, followed: bool, store: Store, l: Loader)
    requires Valid(l) && Gives(l, Plain(t, path, followed, store))
    ensures Traverse(t, path, l).1 == Plain(t, path, followed, store)
    ensures Traverse(t, path, l).0 == After(l, Plain(t, path, followed, store))
    decreases t, |t.children| + 1
  {
    var w, e := Plain(t, path, followed, store), PlainEntry(t, path, followed, store);
    LoadKeeps(l, path, t.link);
    assert w[0] == e;
    if e.result.Data? {
      var f, s := followed && t.action.DidFollowLink(), StoreAfter(e, store);
      assert w[1..] == PlainFrom(t, 0, path, f, s);
      GivenPlainFromIsTraversal(t, 0, path, f, s, LoadEntry(l, path, t.link).0);
    }
  }

  lemma {:induction false} GivenPlainFromIsTraversal(t: Tree, i: nat, path: Path, followed: bool, store: Store,
                                                     l: Loader)
    requires Valid(l) && i <= |t.children| && Gives(l, PlainFrom(t, i, path, followed, store))
    ensures TraverseFrom(t, i, path, l).1 == PlainFrom(t, i, path, followed, store)
    ensures TraverseFrom(t, i, path, l).0 == After(l, PlainFrom(t, i, path, followed, store))
    decreases t, |t.children| - i
  {
    if i < |t.children| {
      var c, p := t.children[i], path + t.children[i].hop;
      var here := Plain(c, p, followed, store);
      var rest := PlainFrom(t, i + 1, path, followed, StoreAfterAll(here, store));
      GivesConcat(l, here, rest);
      GivenPlainIsTraversal(c, p, followed, store, l);
      GivenPlainFromIsTraversal(t, i + 1, path, followed, StoreAfterAll(here, store), After(l, here));
    }
  }

  // ------------------------------------------------- what a walk takes and tracks

  function OwnItems(w: seq<Entry>): seq<RemoteItem> {
    if w == [] then []
    else (if w[0].own.Some? then [w[0].own.value] else []) + OwnItems(w[1..])
  }

  /** The path the tracker should hold after a load: that of a link the remote did not follow. */
  function TrackedAfter(e: Entry, tracked: Path): Path {
    if e.own.None? then tracked else if e.own.value.action.DidFollowLink() then [] else e.path
  }

  function TrackedAfterAll(w: seq<Entry>, tracked: Path): Path {
    if w == [] then tracked else TrackedAfterAll(w[1..], TrackedAfter(w[0], tracked))
  }

  /**
    After a link that the remote did not follow, the next link that the remote reached is
    not deeper, counted in path segments.
   */
  ghost predicate Fits(w: seq<Entry>, tracked: Path) {
    w == [] || (FitsHead(w[0], tracked) && Fits(w[1..], TrackedAfter(w[0], tracked)))
  }

  predicate FitsHead(e: Entry, tracked: Path) {
    e.own.Some? ==> !StillOnUnfollowed(tracked, e.path)
  }

  /** The results are those of the stream's blocks and the local store. */
  ghost predicate Results(w: seq<Entry>, store: Store) {
    w == [] || (ResultOf(w[0], store) && Results(w[1..], StoreAfter(w[0], store)))
  }

  predicate ResultOf(e: Entry, store: Store) {
    && (e.own.Some? ==> e.own.value.link == e.link)
    && e.result == if e.own.Some? && e.own.value.block.Some? then Data(e.own.value.block.value, false)
                   else FromStore(store, e.path, e.link)
  }

  /** Loads that the remote did not reach lie below the link it did not follow, or after everything it reached. */
  ghost predicate Placed(w: seq<Entry>, tracked: Path) {
    w == [] || (PlacedHead(w, tracked) && Placed(w[1..], TrackedAfter(w[0], tracked)))
  }

  ghost predicate PlacedHead(w: seq<Entry>, tracked: Path)
    requires w != []
  {
    w[0].own.Some? || OwnItems(w) == [] || StillOnUnfollowed(tracked, w[0].path)
  }

  ghost predicate Writable(w: seq<Entry>, unwritable: set<Cid>) {
    forall e :: e in w && e.own.Some? && e.own.value.block.Some? ==> e.link !in unwritable
  }

  // ---------------------------------------------------- the loader along a walk

  /** The next load finds nothing left to verify, once it has recorded the one before it. */
  ghost predicate Idle(l: Loader) {
    Flush(l).verifier.None? || V.Done(Flush(l).verifier.value)
  }

  /** The loader is about to be asked for w; `future` is what the remote has still to send. */
  ghost predicate InSync(l: Loader, w: seq<Entry>, future: seq<RemoteItem>, tracked: Path, store: Store) {
    && Valid(l) && (l.queue + future != [] ==> Idle(l)) && !l.cutOff && l.unfollowed == tracked && l.store == store
    && l.queue + future == OwnItems(w) && (!l.open ==> future == [])
    && Results(w, store) && Placed(w, tracked) && Writable(w, l.unwritable)
  }

  /** A load that fits either waits for the remote or gives exactly its own entry. */
  lemma {:induction false} LoadInSync(l: Loader, w: seq<Entry>, future: seq<RemoteItem>, tracked: Path, store: Store)
    requires w != [] && InSync(l, w, future, tracked, store)
    ensures var (l', e) := LoadEntry(l, w[0].path, w[0].link);
            if e.result.Waiting? then l.queue == [] && l.open && InSync(l', w, future, tracked, store)
            else if FitsHead(w[0], tracked) then e == w[0]
              && InSync(l', w[1..], future, TrackedAfter(w[0], tracked), StoreAfter(w[0], store))
            else e.own == None
  {
    if l.queue == [] {
      LoadWithoutItem(l, w, future, tracked, store);
    } else {
      LoadWithItem(l, w, future, tracked, store);
    }
  }

  lemma {:induction false} LoadWithoutItem(l: Loader, w: seq<Entry>, future: seq<RemoteItem>, tracked: Path,
                                           store: Store)
    requires w != [] && InSync(l, w, future, tracked, store) && l.queue == []
    ensures var (l', e) := LoadEntry(l, w[0].path, w[0].link);
            if l.open then e.result.Waiting? && InSync(l', w, future, tracked, store)
            else e == w[0] && FitsHead(w[0], tracked) && InSync(l', w[1..], future, tracked, store)
                 && TrackedAfter(w[0], tracked) == tracked && StoreAfter(w[0], store) == store
  {
    FlushKeeps(l);
    LoadKeeps(l, w[0].path, w[0].link);
    var f := Flush(l);
    assert WaitRemote(f) == (f, if f.open then Blocked else Offline);
    TailInSync(w, tracked, store, l.unwritable);
  }

  /** What InSync says about the walk itself also holds of its tail. */
  lemma {:induction false} TailInSync(w: seq<Entry>, tracked: Path, store: Store, unwritable: set<Cid>)
    requires w != [] && Results(w, store) && Placed(w, tracked) && Writable(w, unwritable)
    ensures Results(w[1..], StoreAfter(w[0], store)) && Placed(w[1..], TrackedAfter(w[0], tracked))
            && Writable(w[1..], unwritable)
    ensures OwnItems(w) == (if w[0].own.Some? then [w[0].own.value] else []) + OwnItems(w[1..])
  {
  }

  lemma {:induction false} LoadWithItem(l: Loader, w: seq<Entry>, future: seq<RemoteItem>, tracked: Path, store: Store)
    requires w != [] && InSync(l, w, future, tracked, store) && l.queue != []
    ensures var (l', e) := LoadEntry(l, w[0].path, w[0].link);
            && !e.result.Waiting?
            && if FitsHead(w[0], tracked) then e == w[0]
              && InSync(l', w[1..], future, TrackedAfter(w[0], tracked), StoreAfter(w[0], store))
               else e.own == None
  {
    FlushKeeps(l);
    LoadKeeps(l, w[0].path, w[0].link);
    var f := Flush(l).(verifier := None);
    assert WaitRemote(Flush(l)) == (f, RemoteReady);
    HeadInSync(f, w, future, tracked, store);
    ReadRemoteKeeps(f, w[0].path, w[0].link);
    TailInSync(w, tracked, store, l.unwritable);
  }

  /** The load of the first entry when an item is waiting. */
  lemma {:induction false} HeadInSync(l: Loader, w: seq<Entry>, future: seq<RemoteItem>, tracked: Path, store: Store)
    requires w != [] && InSync(l, w, future, tracked, store) && l.queue != []
    ensures var (l', r) := ReadRemote(l, w[0].path, w[0].link);
            if FitsHead(w[0], tracked) then
              && r == w[0].result && !r.Waiting?
              && l'.queue == (if w[0].own.Some? then l.queue[1..] else l.queue)
              && l'.queue + future == OwnItems(w[1..])
              && (w[0].own.Some? ==> l.queue[0] == w[0].own.value)
              && l'.unfollowed == TrackedAfter(w[0], tracked) && l'.store == StoreAfter(w[0], store)
              && !l'.cutOff
            else !r.Waiting? && l'.queue == l.queue
  {
    assert l.queue[0] == OwnItems(w)[0];
    if w[0].own.Some? {
      assert w[0] in w;
      assert OwnItems(w)[1..] == OwnItems(w[1..]);
      assert (l.queue + future)[1..] == l.queue[1..] + future;
    } else {
      assert StillOnUnfollowed(tracked, w[0].path);
    }
  }

  // ---------------------------------------- every schedule of remote and loads

  /** What can happen between the remote and a traversal that asks for one load after the other. */
  datatype Happening = Arrive(items: seq<RemoteItem>) | CloseRemote | TryLoad

  /** The arrivals make up `future`, and the remote closes only after the last of them. */
  ghost predicate Complete(hs: seq<Happening>, future: seq<RemoteItem>, open: bool) {
    hs == [] ||
    match hs[0]
    case Arrive(items) => open && items <= future && Complete(hs[1..], future[|items|..], open)
    case CloseRemote => future == [] && Complete(hs[1..], future, false)
    case TryLoad => Complete(hs[1..], future, open)
  }

  /** Each attempt to load the next entry of w waits or gives exactly that entry. */
  ghost predicate Plays(l: Loader, w: seq<Entry>, hs: seq<Happening>)
    requires Valid(l)
    decreases |hs|
  {
    hs == [] ||
    match hs[0]
    case Arrive(items) => Plays(Enqueue(l, items), w, hs[1..])
    case CloseRemote => Plays(SetRemoteOnline(l, false), w, hs[1..])
    case TryLoad =>
      w == [] ||
      (LoadKeeps(l, w[0].path, w[0].link);
       var (l', e) := LoadEntry(l, w[0].path, w[0].link);
       if e.result.Waiting? then Plays(l', w, hs[1..]) else e == w[0] && Plays(l', w[1..], hs[1..]))
  }

  lemma {:induction false} InSyncPlays(l: Loader, w: seq<Entry>, future: seq<RemoteItem>, tracked: Path, store: Store,
                                       hs: seq<Happening>)
    requires InSync(l, w, future, tracked, store) && Fits(w, tracked) && Complete(hs, future, l.open)
    ensures Plays(l, w, hs)
    decreases |hs|
  {
    if hs != [] {
      match hs[0] {
        case Arrive(items) =>
          assert l.queue + items + future[|items|..] == l.queue + future;
          InSyncPlays(Enqueue(l, items), w, future[|items|..], tracked, store, hs[1..]);
        case CloseRemote =>
          InSyncPlays(SetRemoteOnline(l, false), w, future, tracked, store, hs[1..]);
        case TryLoad =>
          if w != [] {
            LoadInSync(l, w, future, tracked, store);
            LoadOpen(l, w[0].path, w[0].link);
            var (l', e) := LoadEntry(l, w[0].path, w[0].link);
            if e.result.Waiting? {
              InSyncPlays(l', w, future, tracked, store, hs[1..]);
            } else {
              InSyncPlays(l', w[1..], future, TrackedAfter(w[0], tracked), StoreAfter(w[0], store), hs[1..]);
            }
          }
      }
    }
  }

  lemma {:induction false} LoadOpen(l: Loader, path: Path, link: Cid)
    requires Valid(l)
    ensures BlockReadOpener(l, path, link).0.open == l.open
  {
    FlushKeeps(l);
    ReadKeeps(Flush(l), path, link);
  }

  /** With everything arrived and the remote closed, the loads give the walk if it fits, and only then. */
  lemma {:induction false} GivesIffFits(l: Loader, w: seq<Entry>, tracked: Path, store: Store)
    requires InSync(l, w, [], tracked, store) && !l.open
    ensures Gives(l, w) <==> Fits(w, tracked)
    ensures Fits(w, tracked) ==> After(l, w).queue == [] && After(l, w).store == StoreAfterAll(w, store)
    decreases |w|
  {
    if w != [] {
      LoadInSync(l, w, [], tracked, store);
      LoadOpen(l, w[0].path, w[0].link);
      if FitsHead(w[0], tracked) {
        GivesIffFits(LoadEntry(l, w[0].path, w[0].link).0, w[1..], TrackedAfter(w[0], tracked),
          StoreAfter(w[0], store));
      }
    }
  }

  // ------------------------------------------------------- facts about the plain walk

  lemma {:induction false} ConcatFacts(a: seq<Entry>, b: seq<Entry>, tracked: Path, store: Store)
    ensures OwnItems(a + b) == OwnItems(a) + OwnItems(b)
    ensures TrackedAfterAll(a + b, tracked) == TrackedAfterAll(b, TrackedAfterAll(a, tracked))
    ensures StoreAfterAll(a + b, store) == StoreAfterAll(b, StoreAfterAll(a, store))
    ensures Fits(a, tracked) && Fits(b, TrackedAfterAll(a, tracked)) ==> Fits(a + b, tracked)
    ensures Results(a, store) && Results(b, StoreAfterAll(a, store)) ==> Results(a + b, store)
    ensures Below(a, tracked) && Below(b, TrackedAfterAll(a, tracked)) ==> Below(a + b, tracked)
    decreases |a|
  {
    if a == [] {
      assert a + b == b;
    } else {
      assert (a + b)[1..] == a[1..] + b;
      ConcatFacts(a[1..], b, TrackedAfter(a[0], tracked), StoreAfter(a[0], store));
    }
  }

  /** Loads that the remote did not reach lie below the link it did not follow. */
  ghost predicate Below(w: seq<Entry>, tracked: Path) {
    w == [] || ((w[0].own.Some? || StillOnUnfollowed(tracked, w[0].path)) && Below(w[1..], TrackedAfter(w[0], tracked)))
  }

  lemma {:induction false} BelowIsPlaced(w: seq<Entry>, tracked: Path)
    requires Below(w, tracked)
    ensures Placed(w, tracked)
  {
    if w != [] {
      BelowIsPlaced(w[1..], TrackedAfter(w[0], tracked));
    }
  }

  lemma {:induction false} UnownedIsPlaced(w: seq<Entry>, tracked: Path)
    requires OwnItems(w) == []
    ensures Placed(w, tracked) && Fits(w, tracked)
  {
    if w != [] {
      UnownedIsPlaced(w[1..], TrackedAfter(w[0], tracked));
    }
  }

  lemma {:induction false} PlainResults(t: Tree, path: Path, followed: bool, store: Store)
    ensures Results(Plain(t, path, followed, store), store)
    decreases t, |t.children| + 1
  {
    var e := PlainEntry(t, path, followed, store);
    var w := Plain(t, path, followed, store);
    if e.result.Data? {
      var f, s := followed && t.action.DidFollowLink(), StoreAfter(e, store);
      assert w[1..] == PlainFrom(t, 0, path, f, s);
      PlainFromResults(t, 0, path, f, s);
    }
  }

  lemma {:induction false} PlainFromResults(t: Tree, i: nat, path: Path, followed: bool, store: Store)
    requires i <= |t.children|
    ensures Results(PlainFrom(t, i, path, followed, store), store)
    decreases t, |t.children| - i
  {
    if i < |t.children| {
      var here := Plain(t.children[i], path + t.children[i].hop, followed, store);
      PlainResults(t.children[i], path + t.children[i].hop, followed, store);
      PlainFromResults(t, i + 1, path, followed, StoreAfterAll(here, store));
      ConcatFacts(here, PlainFrom(t, i + 1, path, followed, StoreAfterAll(here, store)), [], store);
    }
  }

  /** Below a link that the remote did not follow nothing is taken from the stream. */
  lemma {:induction false} UnfollowedTakesNothing(t: Tree, path: Path, store: Store)
    ensures OwnItems(Plain(t, path, false, store)) == []
    decreases t, |t.children| + 1
  {
    var e := PlainEntry(t, path, false, store);
    var w := Plain(t, path, false, store);
    if e.result.Data? {
      assert w[1..] == PlainFrom(t, 0, path, false, store);
      UnfollowedFromTakesNothing(t, 0, path, store);
    }
  }

  lemma {:induction false} UnfollowedFromTakesNothing(t: Tree, i: nat, path: Path, store: Store)
    requires i <= |t.children|
    ensures OwnItems(PlainFrom(t, i, path, false, store)) == []
    decreases t, |t.children| - i
  {
    if i < |t.children| {
      var here := Plain(t.children[i], path + t.children[i].hop, false, store);
      UnfollowedTakesNothing(t.children[i], path + t.children[i].hop, store);
      UnfollowedFromTakesNothing(t, i + 1, path, StoreAfterAll(here, store));
      ConcatFacts(here, PlainFrom(t, i + 1, path, false, StoreAfterAll(here, store)), [], store);
    }
  }

  /** If every followed link could be loaded, the walk takes exactly the remote's stream. */
  lemma {:induction false} PlainTakesStream(t: Tree, path: Path, store: Store)
    requires Served(Plain(t, path, true, store))
    ensures OwnItems(Plain(t, path, true, store)) == Stream(t)
    decreases t, |t.children| + 1
  {
    var e := PlainEntry(t, path, true, store);
    var w := Plain(t, path, true, store);
    assert e == w[0] && e in w;
    if e.result.Data? {
      var s := StoreAfter(e, store);
      assert w[1..] == PlainFrom(t, 0, path, t.action.DidFollowLink(), s);
      if t.action.DidFollowLink() {
        PlainFromTakesStream(t, 0, path, s);
      } else {
        UnfollowedFromTakesNothing(t, 0, path, s);
      }
    }
  }

  lemma {:induction false} PlainFromTakesStream(t: Tree, i: nat, path: Path, store: Store)
    requires i <= |t.children| && Served(PlainFrom(t, i, path, true, store))
    ensures OwnItems(PlainFrom(t, i, path, true, store)) == StreamFrom(t, i)
    decreases t, |t.children| - i
  {
    if i < |t.children| {
      var here := Plain(t.children[i], path + t.children[i].hop, true, store);
      var rest := PlainFrom(t, i + 1, path, true, StoreAfterAll(here, store));
      assert PlainFrom(t, i, path, true, store) == here + rest;
      PlainTakesStream(t.children[i], path + t.children[i].hop, store);
      PlainFromTakesStream(t, i + 1, path, StoreAfterAll(here, store));
      ConcatFacts(here, rest, [], store);
    }
  }

  /** Every link lies at least one segment below the link above it. */
  ghost predicate Apart(t: Tree) {
    forall i :: 0 <= i < |t.children| ==> |t.children[i].hop| >= 1 && Apart(t.children[i])
  }

  lemma {:induction false} UnfollowedIsBelow(t: Tree, path: Path, store: Store, tracked: Path)
    requires Apart(t) && StillOnUnfollowed(tracked, path)
    ensures Below(Plain(t, path, false, store), tracked)
    ensures TrackedAfterAll(Plain(t, path, false, store), tracked) == tracked
    decreases t, |t.children| + 1
  {
    var w, e := Plain(t, path, false, store), PlainEntry(t, path, false, store);
    if e.result.Data? {
      assert w[1..] == PlainFrom(t, 0, path, false, store);
      UnfollowedFromIsBelow(t, 0, path, store, tracked);
    }
  }

  lemma {:induction false} UnfollowedFromIsBelow(t: Tree, i: nat, path: Path, store: Store, tracked: Path)
    requires Apart(t) && i <= |t.children| && 0 < |tracked| <= |path|
    ensures Below(PlainFrom(t, i, path, false, store), tracked)
    ensures TrackedAfterAll(PlainFrom(t, i, path, false, store), tracked) == tracked
    decreases t, |t.children| - i
  {
    if i < |t.children| {
      var here := Plain(t.children[i], path + t.children[i].hop, false, store);
      UnfollowedIsBelow(t.children[i], path + t.children[i].hop, store, tracked);
      UnfollowedFromIsBelow(t, i + 1, path, StoreAfterAll(here, store), tracked);
      ConcatFacts(here, PlainFrom(t, i + 1, path, false, StoreAfterAll(here, store)), tracked, store);
    }
  }

  lemma {:induction false} ReachedIsBelow(t: Tree, path: Path, store: Store, tracked: Path)
    requires Apart(t) && |path| > 0
    ensures Below(Plain(t, path, true, store), tracked)
    decreases t, |t.children| + 1
  {
    var w, e := Plain(t, path, true, store), PlainEntry(t, path, true, store);
    if e.result.Data? {
      var s := StoreAfter(e, store);
      assert w[1..] == PlainFrom(t, 0, path, t.action.DidFollowLink(), s);
      if t.action.DidFollowLink() {
        ReachedFromIsBelow(t, 0, path, s, []);
      } else {
        UnfollowedFromIsBelow(t, 0, path, s, path);
      }
    }
  }

  lemma {:induction false} ReachedFromIsBelow(t: Tree, i: nat, path: Path, store: Store, tracked: Path)
    requires Apart(t) && i <= |t.children|
    ensures Below(PlainFrom(t, i, path, true, store), tracked)
    decreases t, |t.children| - i
  {
    if i < |t.children| {
      var here := Plain(t.children[i], path + t.children[i].hop, true, store);
      ReachedIsBelow(t.children[i], path + t.children[i].hop, store, tracked);
      ReachedFromIsBelow(t, i + 1, path, StoreAfterAll(here, store), TrackedAfterAll(here, tracked));
      ConcatFacts(here, PlainFrom(t, i + 1, path, true, StoreAfterAll(here, store)), tracked, store);
    }
  }

  lemma {:induction false} PlainIsPlaced(t: Tree, store: Store)
    requires Apart(t)
    ensures Placed(Plain(t, [], true, store), [])
  {
    var w, e := Plain(t, [], true, store), PlainEntry(t, [], true, store);
    if e.result.Data? {
      var s := StoreAfter(e, store);
      assert w[1..] == PlainFrom(t, 0, [], t.action.DidFollowLink(), s);
      if t.action.DidFollowLink() {
        ReachedFromIsBelow(t, 0, [], s, []);
        BelowIsPlaced(w[1..], []);
      } else {
        UnfollowedFromTakesNothing(t, 0, [], s);
        UnownedIsPlaced(w[1..], []);
      }
    }
  }

  // -------------------------------------------------------------- main results

  /** Ready for a traversal of t: online before the first load, with t's stream all in, now or in the future. */
  ghost predicate Ready(l: Loader, t: Tree, future: seq<RemoteItem>) {
    && Valid(l) && Idle(l) && !l.cutOff && l.unfollowed == []
    && l.queue + future == Stream(t) && (!l.open ==> future == [])
    && Apart(t) && Served(Plain(t, [], true, l.store)) && Writable(Plain(t, [], true, l.store), l.unwritable)
  }

  lemma {:induction false} ReadyIsInSync(l: Loader, t: Tree, future: seq<RemoteItem>)
    requires Ready(l, t, future)
    ensures InSync(l, Plain(t, [], true, l.store), future, [], l.store)
  {
    PlainResults(t, [], true, l.store);
    PlainTakesStream(t, [], l.store);
    PlainIsPlaced(t, l.store);
  }

  /**
    With the stream fully in and the remote closed, a traversal through the loader is the
    plain walk - every load takes exactly its own item or none, no load finds another
    link's item - if the walk fits the tracker's path lengths, and only then.  The queue
    then ends empty and the store holds what the walk stored.
   */
  lemma {:induction false} LoaderRefinesPlainWalk(l: Loader, t: Tree)
    requires Ready(l, t, []) && !l.open
    ensures var w := Plain(t, [], true, l.store);
            && (Traverse(t, [], l).1 == w <==> Fits(w, []))
            && (Fits(w, []) ==>
                  Traverse(t, [], l).0.queue == [] && Traverse(t, [], l).0.store == StoreAfterAll(w, l.store))
  {
    var w := Plain(t, [], true, l.store);
    ReadyIsInSync(l, t, []);
    GivesIffFits(l, w, [], l.store);
    TraverseIsLoads(t, [], l);
    if Gives(l, w) {
      GivenPlainIsTraversal(t, [], true, l.store, l);
    }
  }

  /** However arrivals, the close and the loads interleave, each load waits or gives its own entry of the plain walk. */
  lemma {:induction false} EveryScheduleRefinesPlainWalk(l: Loader, t: Tree, future: seq<RemoteItem>,
                                                         hs: seq<Happening>)
    requires Ready(l, t, future) && Fits(Plain(t, [], true, l.store), []) && Complete(hs, future, l.open)
    ensures Plays(l, Plain(t, [], true, l.store), hs)
  {
    ReadyIsInSync(l, t, future);
    InSyncPlays(l, Plain(t, [], true, l.store), future, [], l.store, hs);
  }

  /** Every link lies k segments below the link above it. */
  ghost predicate Uniform(t: Tree, k: nat) {
    forall i :: 0 <= i < |t.children| ==> |t.children[i].hop| == k && Uniform(t.children[i], k)
  }

  predicate NotDeeper(tracked: Path, n: nat) {
    |tracked| == 0 || n <= |tracked|
  }

  lemma {:induction false} UniformFits(t: Tree, k: nat, path: Path, followed: bool, store: Store, tracked: Path)
    requires Uniform(t, k) && (followed ==> NotDeeper(tracked, |path|))
    ensures var w := Plain(t, path, followed, store);
            Fits(w, tracked)
            && (followed ==> NotDeeper(TrackedAfterAll(w, tracked), |path|))
            && (!followed ==> TrackedAfterAll(w, tracked) == tracked)
    decreases t, |t.children| + 1
  {
    var w, e := Plain(t, path, followed, store), PlainEntry(t, path, followed, store);
    if e.result.Data? {
      var f, s := followed && t.action.DidFollowLink(), StoreAfter(e, store);
      assert w[1..] == PlainFrom(t, 0, path, f, s);
      UniformFromFits(t, 0, k, path, f, s, TrackedAfter(e, tracked));
    }
  }

  lemma {:induction false} UniformFromFits(t: Tree, i: nat, k: nat, path: Path, followed: bool, store: Store,
                                           tracked: Path)
    requires Uniform(t, k) && i <= |t.children| && (followed ==> NotDeeper(tracked, |path| + k))
    ensures var w := PlainFrom(t, i, path, followed, store);
            Fits(w, tracked)
            && (followed ==> NotDeeper(TrackedAfterAll(w, tracked), |path| + k))
            && (!followed ==> TrackedAfterAll(w, tracked) == tracked)
    decreases t, |t.children| - i
  {
    if i < |t.children| {
      var here := Plain(t.children[i], path + t.children[i].hop, followed, store);
      UniformFits(t.children[i], k, path + t.children[i].hop, followed, store, tracked);
      UniformFromFits(t, i + 1, k, path, followed, StoreAfterAll(here, store), TrackedAfterAll(here, tracked));
      ConcatFacts(here, PlainFrom(t, i + 1, path, followed, StoreAfterAll(here, store)), tracked, store);
    }
  }

  lemma {:induction false} UniformIsApart(t: Tree, k: nat)
    requires k >= 1 && Uniform(t, k)
    ensures Apart(t)
    decreases t
  {
    forall i | 0 <= i < |t.children| ensures Apart(t.children[i]) {
      UniformIsApart(t.children[i], k);
    }
  }

  /**
    A loader that went online before its first load, took in the whole stream and was
    closed: if every edge adds the same positive number of path segments, the traversal is
    the plain walk, without a single mismatch, and uses up the queue.
   */
  lemma {:induction false} UniformTraversal(l: Loader, t: Tree, k: nat)
    requires Valid(l) && l.record == EMPTY && l.recent == NoAttempt && !l.open && l.queue == [] && l.last == NoLast
             && !l.cutOff && l.unfollowed == []
    requires k >= 1 && Uniform(t, k)
    requires Served(Plain(t, [], true, l.store)) && Writable(Plain(t, [], true, l.store), l.unwritable)
    ensures var l0 := SetRemoteOnline(Enqueue(SetRemoteOnline(l, true), Stream(t)), false);
            && Valid(l0)
            && var (l', w) := Traverse(t, [], l0);
               && w == Plain(t, [], true, l.store)
               && (forall e :: e in w ==> e.result.Data? || e.result.MissingBlock?)
               && OwnItems(w) == Stream(t)
               && l'.queue == []
  {
    var l0 := SetRemoteOnline(Enqueue(SetRemoteOnline(l, true), Stream(t)), false);
    V.NewRemaining(EMPTY, {});
    UniformIsApart(t, k);
    UniformFits(t, k, [], true, l.store, []);
    LoaderRefinesPlainWalk(l0, t);
    PlainTakesStream(t, [], l.store);
    PlainKinds(t, [], true, l.store);
  }

  lemma {:induction false} PlainKinds(t: Tree, path: Path, followed: bool, store: Store)
    ensures forall e :: e in Plain(t, path, followed, store) ==> e.result.Data? || e.result.MissingBlock?
    decreases t, |t.children| + 1
  {
    var e := PlainEntry(t, path, followed, store);
    if e.result.Data? {
      PlainFromKinds(t, 0, path, followed && t.action.DidFollowLink(), StoreAfter(e, store));
    }
  }

  lemma {:induction false} PlainFromKinds(t: Tree, i: nat, path: Path, followed: bool, store: Store)
    requires i <= |t.children|
    ensures forall e :: e in PlainFrom(t, i, path, followed, store) ==> e.result.Data? || e.result.MissingBlock?
    decreases t, |t.children| - i
  {
    if i < |t.children| {
      var here := Plain(t.children[i], path + t.children[i].hop, followed, store);
      PlainKinds(t.children[i], path + t.children[i].hop, followed, store);
      PlainFromKinds(t, i + 1, path, followed, StoreAfterAll(here, store));
    }
  }

  /**
    Uneven edges break it: after a missing link one segment down, a present link two
    segments down is taken for something below the missing one and its item is left in
    the queue.
   */
  lemma {:induction false} UnevenEdgesDoNotFit(root: Cid, a: Cid, b: Cid, block: Bytes)
    ensures var t := Tree(root, Present, Some(block), [],
            [Tree(a, Missing, None, [1], []), Tree(b, Present, Some(block), [2, 3], [])]);
            && Apart(t) && (a != root ==> Served(Plain(t, [], true, map[])) && !Fits(Plain(t, [], true, map[]), []))
  {
    var ta, tb := Tree(a, Missing, None, [1], []), Tree(b, Present, Some(block), [2, 3], []);
    var t := Tree(root, Present, Some(block), [], [ta, tb]);
    if a != root {
      var s := map[root := block];
      var ea, eb := PlainEntry(ta, [1], true, s), PlainEntry(tb, [2, 3], true, s);
      assert Plain(ta, [1], true, s) == [ea];
      assert StoreAfterAll([ea], s) == s by {
        assert [ea][1..] == [];
      }
      assert Plain(tb, [2, 3], true, s) == [eb] by {
        assert PlainFrom(tb, 0, [2, 3], true, StoreAfter(eb, s)) == [];
      }
      assert [] + ta.hop == [1] && [] + tb.hop == [2, 3];
      assert PlainFrom(t, 1, [], true, s) == [eb] + PlainFrom(t, 2, [], true, StoreAfterAll([eb], s));
      assert PlainFrom(t, 0, [], true, s) == [ea] + PlainFrom(t, 1, [], true, s);
      var w := Plain(t, [], true, map[]);
      assert w == [PlainEntry(t, [], true, map[]), ea, eb];
      assert w[1..] == [ea, eb] && w[1..][1..] == [eb];
      assert !Fits([eb], [1]);
      assert !Fits([ea, eb], []);
    }
  }
}
