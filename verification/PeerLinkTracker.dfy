/**
  Deduplication of the blocks sent to one peer. Requests are grouped by their deduplication
  key; within a group a block is sent only when no unfinished request holds its link.
 */
module PeerLinkTrackers {
  import opened Core
  import L = LinkTrackers

  type Tracker = L.Tracker

  datatype Group = Default | Keyed(key: string)

  /** sent: links traversed so far per request; skips: how many of those are not to be sent. */
  datatype Tracking = Tracking(
    main: Tracker,
    alts: map<string, Tracker>,
    keys: map<RequestId, string>,
    sent: map<RequestId, nat>,
    skips: map<RequestId, int>)

  const NEW_TRACKING := Tracking(L.NO_LINKS, map[], map[], map[], map[])

  function GroupOf(p: Tracking, id: RequestId): Group {
    if id in p.keys then Keyed(p.keys[id]) else Default
  }

  function TrackerOf(p: Tracking, g: Group): Tracker {
    match g
    case Default => p.main
    case Keyed(k) => if k in p.alts then p.alts[k] else L.NO_LINKS
  }

  function With(p: Tracking, g: Group, t: Tracker): Tracking {
    match g
    case Default => p.(main := t)
    case Keyed(k) => p.(alts := p.alts[k := t])
  }

  function Own(p: Tracking, id: RequestId): Tracker {
    TrackerOf(p, GroupOf(p, id))
  }

  datatype Step =
    | DedupKey(id: RequestId, key: string)
    | IgnoreBlocks(id: RequestId, links: seq<Cid>)
    | SkipFirstBlocks(id: RequestId, n: int)
    | FinishTracking(id: RequestId)
    | Traverse(id: RequestId, link: Cid, hasBlock: bool)

  function RecordAll(t: Tracker, id: RequestId, links: seq<Cid>): Tracker {
    if links == [] then t
    else L.Record(RecordAll(t, id, links[..|links| - 1]), id, links[|links| - 1], true)
  }

  function Sent(p: Tracking, id: RequestId): nat {
    if id in p.sent then p.sent[id] else 0
  }

  function Skips(p: Tracking, id: RequestId): int {
    if id in p.skips then p.skips[id] else 0
  }

  /** Whether the next link of a request is past the blocks it asked to be left out. */
  predicate PastWindow(p: Tracking, id: RequestId) {
    Skips(p, id) < Sent(p, id) + 1
  }

  predicate Sends(p: Tracking, step: Step) {
    step.Traverse? && step.hasBlock && PastWindow(p, step.id) && L.RefCount(Own(p, step.id), step.link) == 0
  }

  predicate KeyInUse(keys: map<RequestId, string>, key: string) {
    exists id :: id in keys && keys[id] == key
  }

  /** The request loses its key; the last member of a group takes the group's tracker with it. */
  function Left(p: Tracking, id: RequestId): Tracking {
    var keys := p.keys - {id};
    p.(keys := keys, alts := if id in p.keys && !KeyInUse(keys, p.keys[id]) then p.alts - {p.keys[id]} else p.alts)
  }

  function Finished(p: Tracking, id: RequestId): Tracking {
    Left(With(p, GroupOf(p, id), L.Finish(Own(p, id), id)), id).(sent := p.sent - {id}, skips := p.skips - {id})
  }

  function Next(p: Tracking, step: Step): Tracking {
    match step
    case DedupKey(id, key) =>
      p.(keys := p.keys[id := key], alts := p.alts[key := TrackerOf(p, Keyed(key))])
    case IgnoreBlocks(id, links) => With(p, GroupOf(p, id), RecordAll(Own(p, id), id, links))
    case SkipFirstBlocks(id, n) => p.(skips := p.skips[id := n])
    case FinishTracking(id) => Finished(p, id)
    case Traverse(id, link, hasBlock) =>
      With(p, GroupOf(p, id), L.Record(Own(p, id), id, link, hasBlock)).(sent := p.sent[id := Sent(p, id) + 1])
  }

  // ---------------------------------------------------------------- invariant

  /** Only members of a group have anything recorded in its tracker. */
  ghost predicate Sound(p: Tracking, g: Group) {
    && L.Inv(TrackerOf(p, g))
    && forall id :: L.Recorded(TrackerOf(p, g), id) ==> GroupOf(p, id) == g
  }

  ghost predicate Inv(p: Tracking) {
    && (forall g :: Sound(p, g))
    && (forall id :: id in p.keys ==> p.keys[id] in p.alts)
    && (forall k :: k in p.alts ==> KeyInUse(p.keys, k))
  }

  /** A request may change to a group while it has recorded nothing and leaves no group behind without members. */
  predicate MayKey(p: Tracking, id: RequestId, key: string) {
    || GroupOf(p, id) == Keyed(key)
    || (!L.Recorded(Own(p, id), id) && (id in p.keys ==> KeyInUse(p.keys - {id}, p.keys[id])))
  }

  predicate Allowed(p: Tracking, step: Step) {
    step.DedupKey? ==> MayKey(p, step.id, step.key)
  }

  lemma {:induction false} RecordAllInv(t: Tracker, id: RequestId, links: seq<Cid>)
    requires L.Inv(t)
    ensures L.Inv(RecordAll(t, id, links))
    ensures forall r :: r != id ==> L.Traversed(RecordAll(t, id, links), r) == L.Traversed(t, r)
    ensures forall r :: r != id && L.Recorded(RecordAll(t, id, links), r) ==> L.Recorded(t, r)
    ensures L.Traversed(RecordAll(t, id, links), id) == L.Traversed(t, id) + links
    decreases |links|
  {
    if links != [] {
      var init := links[..|links| - 1];
      RecordAllInv(t, id, init);
      L.RecordInv(RecordAll(t, id, init), id, links[|links| - 1], true);
      assert links == init + [links[|links| - 1]];
    }
  }

  /** Keying keeps the groups sound exactly when it is done before anything is recorded. */
  lemma {:induction false} KeyingKeepsExactly(p: Tracking, id: RequestId, key: string)
    requires Inv(p)
    ensures Inv(Next(p, DedupKey(id, key))) <==> MayKey(p, id, key)
  {
    var q := Next(p, DedupKey(id, key));
    assert forall g :: TrackerOf(q, g) == TrackerOf(p, g);
    assert Sound(p, GroupOf(p, id));
    if MayKey(p, id, key) {
      forall g ensures Sound(q, g) {
        assert Sound(p, g);
      }
      forall k | k in q.alts ensures KeyInUse(q.keys, k) {
        KeyStaysInUse(p, id, key, k);
      }
    } else if L.Recorded(Own(p, id), id) {
      assert !Sound(q, GroupOf(p, id));
    } else {
      InUseApart(p.keys, id, key, p.keys[id]);
    }
  }

  lemma {:induction false} InUseApart(keys: map<RequestId, string>, id: RequestId, key: string, k: string)
    ensures k != key && KeyInUse(keys[id := key], k) ==> KeyInUse(keys - {id}, k)
  {
    if k != key && KeyInUse(keys[id := key], k) {
      var x :| x in keys[id := key] && keys[id := key][x] == k;
      assert x in keys - {id} && (keys - {id})[x] == k;
    }
  }

  lemma {:induction false} KeyStaysInUse(p: Tracking, id: RequestId, key: string, k: string)
    requires Inv(p) && MayKey(p, id, key)
    requires k in p.alts || k == key
    ensures KeyInUse(p.keys[id := key], k)
  {
    var keys := p.keys[id := key];
    if k == key {
      assert keys[id] == k;
    } else if id in p.keys && p.keys[id] == k {
      var x :| x in p.keys - {id} && (p.keys - {id})[x] == k;
      assert x in keys && keys[x] == k;
    } else {
      var x :| x in p.keys && p.keys[x] == k;
      assert x in keys && keys[x] == k;
    }
  }

  lemma {:induction false} FinishedSound(p: Tracking, id: RequestId, g: Group)
    requires Inv(p)
    ensures Sound(Finished(p, id), g)
  {
    var q := Finished(p, id);
    assert Sound(p, g);
    L.FinishInv(TrackerOf(p, g), id);
    L.NoLinksInv();
    forall x | L.Recorded(TrackerOf(q, g), x) ensures GroupOf(q, x) == g {
      assert L.Recorded(TrackerOf(p, g), x) && x != id;
    }
  }

  lemma {:induction false} FinishedInv(p: Tracking, id: RequestId)
    requires Inv(p)
    ensures Inv(Finished(p, id))
  {
    var q := Finished(p, id);
    forall g ensures Sound(q, g) {
      FinishedSound(p, id, g);
    }
    forall k | k in q.alts ensures KeyInUse(q.keys, k) {
      if !(id in p.keys && p.keys[id] == k) {
        var x :| x in p.keys && p.keys[x] == k;
        assert x in q.keys && q.keys[x] == k;
      }
    }
    forall x | x in q.keys ensures q.keys[x] in q.alts {
      assert KeyInUse(q.keys, q.keys[x]);
    }
  }

  lemma {:induction false} RecordedInv(p: Tracking, id: RequestId, t: Tracker)
    requires Inv(p) && L.Inv(t)
    requires forall r :: r != id && L.Recorded(t, r) ==> L.Recorded(Own(p, id), r)
    ensures Inv(With(p, GroupOf(p, id), t))
  {
    var q := With(p, GroupOf(p, id), t);
    assert Sound(p, GroupOf(p, id));
    forall g ensures Sound(q, g) {
      assert Sound(p, g);
    }
    forall k | k in q.alts ensures KeyInUse(q.keys, k) {
      assert k in p.alts;
    }
  }

  /** Every step keeps the groups sound. */
  lemma {:induction false} NextInv(p: Tracking, step: Step)
    requires Inv(p) && Allowed(p, step)
    ensures Inv(Next(p, step))
  {
    assert Sound(p, GroupOf(p, step.id));
    match step
    case DedupKey(id, key) => KeyingKeepsExactly(p, id, key);
    case IgnoreBlocks(id, links) =>
      RecordAllInv(Own(p, id), id, links);
      RecordedInv(p, id, RecordAll(Own(p, id), id, links));
    case SkipFirstBlocks(id, n) =>
      SameGroups(p, Next(p, step));
    case FinishTracking(id) => FinishedInv(p, id);
    case Traverse(id, link, hasBlock) =>
      L.RecordInv(Own(p, id), id, link, hasBlock);
      RecordedInv(p, id, L.Record(Own(p, id), id, link, hasBlock));
      SameGroups(With(p, GroupOf(p, id), L.Record(Own(p, id), id, link, hasBlock)), Next(p, step));
  }

  lemma {:induction false} SameGroups(p: Tracking, q: Tracking)
    requires Inv(p) && p.main == q.main && p.alts == q.alts && p.keys == q.keys
    ensures Inv(q)
  {
    forall g ensures Sound(q, g) {
      assert Sound(p, g);
    }
  }

  // ---------------------------------------------------------------- what is sent

  predicate HeldIn(p: Tracking, g: Group, id: RequestId, link: Cid) {
    L.Holds(TrackerOf(p, g), id, link)
  }

  /**
    A block is sent exactly when the request is past its window and no unfinished member of its
    group holds the link.
   */
  lemma {:induction false} SendsExactlyUnheld(p: Tracking, id: RequestId, link: Cid, hasBlock: bool)
    requires Inv(p)
    ensures Sends(p, Traverse(id, link, hasBlock)) <==>
            hasBlock && PastWindow(p, id) && forall r :: !HeldIn(p, GroupOf(p, id), r, link)
  {
    var g := GroupOf(p, id);
    assert Sound(p, g);
    L.ZeroMeansUnheld(TrackerOf(p, g), link);
    if forall r :: !HeldIn(p, g, r, link) {
      forall r ensures !L.Holds(TrackerOf(p, g), r, link) {
        assert !HeldIn(p, g, r, link);
      }
    }
  }

  /** A group's tracker is dropped only with its last member, and is empty by then. */
  lemma {:induction false} DroppedGroupsAreEmpty(p: Tracking, step: Step, k: string)
    requires Inv(p) && k in p.alts && k !in Next(p, step).alts
    ensures step.FinishTracking? && GroupOf(p, step.id) == Keyed(k)
    ensures L.Empty(L.Finish(p.alts[k], step.id))
  {
    var t := L.Finish(p.alts[k], step.id);
    assert Sound(p, Keyed(k));
    L.FinishInv(p.alts[k], step.id);
    L.EmptyMeansNothingRecorded(t);
    forall id ensures !L.Recorded(t, id) {
      assert L.Recorded(p.alts[k], id) && id != step.id ==> id in p.keys - {step.id} && (p.keys - {step.id})[id] == k;
    }
  }

  // ---------------------------------------------------------------- runs

  function After(p: Tracking, steps: seq<Step>): Tracking {
    if steps == [] then p else Next(After(p, steps[..|steps| - 1]), steps[|steps| - 1])
  }

  predicate Proper(p: Tracking, steps: seq<Step>) {
    steps == [] || (Proper(p, steps[..|steps| - 1]) && Allowed(After(p, steps[..|steps| - 1]), steps[|steps| - 1]))
  }

  lemma {:induction false} RunInv(p: Tracking, steps: seq<Step>)
    requires Inv(p) && Proper(p, steps)
    ensures Inv(After(p, steps))
    decreases |steps|
  {
    if steps != [] {
      RunInv(p, steps[..|steps| - 1]);
      NextInv(After(p, steps[..|steps| - 1]), steps[|steps| - 1]);
    }
  }

  lemma {:induction false} StepReleases(p: Tracking, step: Step, g: Group, r: RequestId, link: Cid)
    requires Inv(p) && Allowed(p, step)
    requires HeldIn(p, g, r, link) && !HeldIn(Next(p, step), g, r, link)
    ensures step == FinishTracking(r)
  {
    assert Sound(p, g);
    match step
    case DedupKey(id, key) =>
    case IgnoreBlocks(id, links) => RecordAllInv(Own(p, id), id, links);
    case SkipFirstBlocks(id, n) =>
    case FinishTracking(id) =>
      FinishReleases(p, id, g, r, link);
    case Traverse(id, l, hasBlock) =>
  }

  lemma {:induction false} FinishReleases(p: Tracking, id: RequestId, g: Group, r: RequestId, link: Cid)
    requires Inv(p) && HeldIn(p, g, r, link)
    ensures r == id || HeldIn(Finished(p, id), g, r, link)
  {
    assert Sound(p, g);
    if r != id && id in p.keys && g == Keyed(p.keys[id]) {
      assert L.Recorded(TrackerOf(p, g), r);
      assert r in p.keys - {id} && (p.keys - {id})[r] == p.keys[id];
    }
  }

  /** A holder stops holding a link only by finishing. */
  lemma {:induction false} ReleasedByFinishing(p: Tracking, steps: seq<Step>, g: Group, r: RequestId, link: Cid)
    requires Inv(p) && Proper(p, steps)
    requires HeldIn(p, g, r, link) && !HeldIn(After(p, steps), g, r, link)
    ensures FinishTracking(r) in steps
    decreases |steps|
  {
    var init := steps[..|steps| - 1];
    if !HeldIn(After(p, init), g, r, link) {
      ReleasedByFinishing(p, init, g, r, link);
    } else {
      RunInv(p, init);
      StepReleases(After(p, init), steps[|steps| - 1], g, r, link);
    }
  }

  /**
    A link is sent twice in one group only when every request that held it after the first
    send has finished before the second.
   */
  lemma {:induction false} SentAgainOnlyAfterAllFinished(p: Tracking, first: Step, between: seq<Step>, second: Step,
                                                         r: RequestId)
    requires Inv(p) && Proper(Next(p, first), between) && Sends(p, first)
    requires var q := After(Next(p, first), between);
             Sends(q, second) && second.link == first.link && GroupOf(q, second.id) == GroupOf(p, first.id)
    requires HeldIn(Next(p, first), GroupOf(p, first.id), r, first.link)
    ensures FinishTracking(r) in between
  {
    var p1, g := Next(p, first), GroupOf(p, first.id);
    var q := After(p1, between);
    NextInv(p, first);
    RunInv(p1, between);
    SendsExactlyUnheld(q, second.id, second.link, second.hasBlock);
    assert !HeldIn(q, g, r, second.link);
    ReleasedByFinishing(p1, between, g, r, first.link);
  }

  /** The sender itself is one of those holders. */
  lemma {:induction false} SenderHolds(p: Tracking, step: Step)
    requires Sends(p, step)
    ensures HeldIn(Next(p, step), GroupOf(p, step.id), step.id, step.link)
  {
  }

  /** The step sends a link in a group, or the requestor asked in that group not to be sent it. */
  predicate Served(p: Tracking, step: Step, g: Group, link: Cid) {
    && GroupOf(p, step.id) == g
    && match step
       case Traverse(id, l, hasBlock) => l == link && (Sends(p, step) || (hasBlock && !PastWindow(p, id)))
       case IgnoreBlocks(id, links) => link in links
       case _ => false
  }

  predicate ServedAt(p: Tracking, steps: seq<Step>, i: nat, g: Group, link: Cid) {
    i < |steps| && Served(After(p, steps[..i]), steps[i], g, link)
  }

  lemma {:induction false} NewlyHeld(p: Tracking, step: Step, g: Group, r: RequestId, link: Cid)
    requires Inv(p) && Allowed(p, step)
    requires HeldIn(Next(p, step), g, r, link) && forall x :: !HeldIn(p, g, x, link)
    ensures Served(p, step, g, link)
  {
    assert Sound(p, g) && !HeldIn(p, g, r, link);
    match step
    case DedupKey(id, key) =>
    case IgnoreBlocks(id, links) => RecordAllInv(Own(p, id), id, links);
    case SkipFirstBlocks(id, n) =>
    case FinishTracking(id) =>
    case Traverse(id, l, hasBlock) => SendsExactlyUnheld(p, id, l, hasBlock);
  }

  /** Deduplication loses nothing: a held link was sent in its group, or the requestor asked not to be sent it. */
  lemma {:induction false} HeldMeansServed(steps: seq<Step>, g: Group, r: RequestId, link: Cid) returns (i: nat)
    requires Proper(NEW_TRACKING, steps)
    requires HeldIn(After(NEW_TRACKING, steps), g, r, link)
    ensures ServedAt(NEW_TRACKING, steps, i, g, link)
    decreases |steps|
  {
    var n := |steps| - 1;
    var init := steps[..n];
    var p := After(NEW_TRACKING, init);
    if x :| HeldIn(p, g, x, link) {
      i := HeldMeansServed(init, g, x, link);
      assert init[..i] == steps[..i];
    } else {
      NewInv();
      RunInv(NEW_TRACKING, init);
      NewlyHeld(p, steps[n], g, r, link);
      i := n;
    }
  }

  lemma {:induction false} NewInv()
    ensures Inv(NEW_TRACKING)
  {
  }

  /** Keying after recording leaves a count no request can release: the block is then never sent again. */
  lemma {:induction false} LateKeyLosesBlocks()
    ensures var p := After(NEW_TRACKING, [Traverse(1, 7, true), DedupKey(1, "k"), FinishTracking(1)]);
            && p.keys == map[] && !Sends(p, Traverse(2, 7, true)) && PastWindow(p, 2)
  {
    var a := Traverse(1, 7, true);
    var b := DedupKey(1, "k");
    var c := FinishTracking(1);
    assert [a, b, c][..2] == [a, b] && [a, b][..1] == [a] && [a][..0] == [];
    var p1 := Next(NEW_TRACKING, a);
    assert After(NEW_TRACKING, [a]) == p1;
    var p2 := Next(p1, b);
    assert After(NEW_TRACKING, [a, b]) == p2;
    assert After(NEW_TRACKING, [a, b, c]) == Next(p2, c);
    assert p2.keys - {1} == map[];
  }

  // ---------------------------------------------------------------- the tracker as it is kept in place

  class PeerLinkTracker {
    var linkTracker: L.LinkTracker
    var altTrackers: map<string, L.LinkTracker>
    var dedupKeys: map<RequestId, string>
    var blockSentCount: map<RequestId, nat>
    var skipFirstBlocks: map<RequestId, int>

    /** The trackers are separate objects, and every key in use has one. */
    ghost predicate Valid()
      reads this
    {
      && linkTracker !in altTrackers.Values
      && (forall j, k :: j in altTrackers && k in altTrackers && altTrackers[j] == altTrackers[k] ==> j == k)
      && (forall id :: id in dedupKeys ==> dedupKeys[id] in altTrackers)
    }

    ghost function Abs(): Tracking
      reads this, linkTracker, altTrackers.Values
    {
      Tracking(linkTracker.Abs(), map k | k in altTrackers :: altTrackers[k].Abs(),
               dedupKeys, blockSentCount, skipFirstBlocks)
    }

    constructor ()
      ensures Valid() && Abs() == NEW_TRACKING && fresh(linkTracker)
    {
      linkTracker := new L.LinkTracker();
      altTrackers, dedupKeys, blockSentCount, skipFirstBlocks := map[], map[], map[], map[];
    }

    function GetLinkTracker(id: RequestId): (t: L.LinkTracker)
      requires Valid()
      reads this, linkTracker, altTrackers.Values
      ensures t == linkTracker || t in altTrackers.Values
      ensures t.Abs() == Own(Abs(), id)
    {
      if id in dedupKeys then altTrackers[dedupKeys[id]] else linkTracker
    }

    method DedupKey(id: RequestId, key: string)
      requires Valid()
      modifies this`dedupKeys, this`altTrackers
      ensures Valid() && Abs() == Next(old(Abs()), Step.DedupKey(id, key))
      ensures fresh(altTrackers.Values - old(altTrackers.Values))
    {
      EnsureGroup(key);
      dedupKeys := dedupKeys[id := key];
    }

    method EnsureGroup(key: string)
      requires Valid()
      modifies this`altTrackers
      ensures Valid() && key in altTrackers
      ensures Abs() == old(Abs()).(alts := old(Abs()).alts[key := TrackerOf(old(Abs()), Keyed(key))])
      ensures fresh(altTrackers.Values - old(altTrackers.Values))
    {
      if key !in altTrackers {
        var t := new L.LinkTracker();
        altTrackers := altTrackers[key := t];
      }
    }

    method IgnoreBlocks(id: RequestId, links: seq<Cid>)
      requires Valid()
      modifies linkTracker, altTrackers.Values
      ensures Valid() && Abs() == Next(old(Abs()), Step.IgnoreBlocks(id, links))
    {
      var t := GetLinkTracker(id);
      RecordEach(t, id, links);
      assert Abs() == With(old(Abs()), GroupOf(old(Abs()), id), t.Abs());
    }

    static method RecordEach(t: L.LinkTracker, id: RequestId, links: seq<Cid>)
      modifies t
      ensures t.Abs() == RecordAll(old(t.Abs()), id, links)
    {
      for i := 0 to |links|
        invariant t.Abs() == RecordAll(old(t.Abs()), id, links[..i])
      {
        assert links[..i + 1][..i] == links[..i];
        t.RecordLinkTraversal(id, links[i], true);
      }
      assert links[..|links|] == links;
    }

    method SkipFirstBlocks(id: RequestId, n: int)
      requires Valid()
      modifies this`skipFirstBlocks
      ensures Valid() && Abs() == Next(old(Abs()), Step.SkipFirstBlocks(id, n))
    {
      skipFirstBlocks := skipFirstBlocks[id := n];
    }

    method RecordLinkTraversal(id: RequestId, link: Cid, hasBlock: bool) returns (send: bool, index: nat)
      requires Valid()
      modifies this`blockSentCount, linkTracker, altTrackers.Values
      ensures Valid() && Abs() == Next(old(Abs()), Traverse(id, link, hasBlock))
      ensures send == Sends(old(Abs()), Traverse(id, link, hasBlock))
      ensures index == Sent(old(Abs()), id) + 1
    {
      var notSkipped, isUnique;
      index, notSkipped := CountLink(id);
      isUnique := RecordInGroup(id, link, hasBlock);
      send := hasBlock && notSkipped && isUnique;
    }

    method CountLink(id: RequestId) returns (index: nat, notSkipped: bool)
      requires Valid()
      modifies this`blockSentCount
      ensures Valid() && Abs() == old(Abs()).(sent := old(Abs()).sent[id := index])
      ensures index == Sent(old(Abs()), id) + 1 && notSkipped == PastWindow(old(Abs()), id)
    {
      index := (if id in blockSentCount then blockSentCount[id] else 0) + 1;
      blockSentCount := blockSentCount[id := index];
      notSkipped := (if id in skipFirstBlocks then skipFirstBlocks[id] else 0) < index;
    }

    method RecordInGroup(id: RequestId, link: Cid, hasBlock: bool) returns (isUnique: bool)
      requires Valid()
      modifies linkTracker, altTrackers.Values
      ensures Abs() == With(old(Abs()), GroupOf(old(Abs()), id), L.Record(Own(old(Abs()), id), id, link, hasBlock))
      ensures isUnique == (L.RefCount(Own(old(Abs()), id), link) == 0)
    {
      var t := GetLinkTracker(id);
      isUnique := t.BlockRefCount(link) == 0;
      t.RecordLinkTraversal(id, link, hasBlock);
      assert Abs() == With(old(Abs()), GroupOf(old(Abs()), id), t.Abs());
    }

    /** The answer is whether every link the request traversed had its block. */
    method FinishTracking(id: RequestId) returns (allBlocks: bool)
      requires Valid()
      modifies this`altTrackers, this`dedupKeys, this`blockSentCount, this`skipFirstBlocks, linkTracker,
               altTrackers.Values
      ensures Valid() && Abs() == Next(old(Abs()), Step.FinishTracking(id))
      ensures allBlocks == (id !in Own(old(Abs()), id).missing)
      ensures altTrackers.Values <= old(altTrackers.Values)
    {
      allBlocks := FinishInGroup(id);
      LeaveGroup(id);
      ForgetCounts(id);
    }

    method ForgetCounts(id: RequestId)
      requires Valid()
      modifies this`blockSentCount, this`skipFirstBlocks
      ensures Valid() && Abs() == old(Abs()).(sent := old(Abs()).sent - {id}, skips := old(Abs()).skips - {id})
    {
      blockSentCount := blockSentCount - {id};
      skipFirstBlocks := skipFirstBlocks - {id};
    }

    method FinishInGroup(id: RequestId) returns (allBlocks: bool)
      requires Valid()
      modifies linkTracker, altTrackers.Values
      ensures Valid() && Abs() == With(old(Abs()), GroupOf(old(Abs()), id), L.Finish(Own(old(Abs()), id), id))
      ensures allBlocks == (id !in Own(old(Abs()), id).missing)
    {
      var t := GetLinkTracker(id);
      allBlocks := t.FinishRequest(id);
      assert Abs() == With(old(Abs()), GroupOf(old(Abs()), id), t.Abs());
    }

    method LeaveGroup(id: RequestId)
      requires Valid()
      modifies this`altTrackers, this`dedupKeys
      ensures Valid() && Abs() == Left(old(Abs()), id)
      ensures altTrackers.Values <= old(altTrackers.Values)
    {
      if id !in dedupKeys {
        assert dedupKeys - {id} == dedupKeys;
        return;
      }
      var key := dedupKeys[id];
      dedupKeys := dedupKeys - {id};
      assert Valid() && Abs() == old(Abs()).(keys := dedupKeys);
      var otherRequestsFound := FindKey(dedupKeys, key);
      if !otherRequestsFound {
        DropGroup(key);
      }
    }

    method DropGroup(key: string)
      requires Valid() && !KeyInUse(dedupKeys, key)
      modifies this`altTrackers
      ensures Valid() && Abs() == old(Abs()).(alts := old(Abs()).alts - {key})
      ensures altTrackers.Values <= old(altTrackers.Values)
    {
      altTrackers := altTrackers - {key};
    }

    static method FindKey(keys: map<RequestId, string>, key: string) returns (found: bool)
      ensures found == KeyInUse(keys, key)
    {
      found := false;
      var rest := keys.Keys;
      while rest != {}
        invariant rest <= keys.Keys && !found
        invariant forall id :: id in keys && id !in rest ==> keys[id] != key
      {
        var id :| id in rest;
        if keys[id] == key {
          return true;
        }
        rest := rest - {id};
      }
    }
  }
}
