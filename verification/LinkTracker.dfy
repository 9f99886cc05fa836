/**
  The link tracker: which links with blocks the unfinished requests have traversed, with
  reference counts that are proved to be exactly their occurrences.
 */
module LinkTrackers {
  import opened Core
  import opened Sums

  /** missing, traversed: per unfinished request; counts: the reference counts. */
  datatype Tracker = Tracker(
    missing: map<RequestId, set<Cid>>,
    traversed: map<RequestId, seq<Cid>>,
    counts: map<Cid, nat>)

  const NO_LINKS := Tracker(map[], map[], map[])

  function RefCount(t: Tracker, link: Cid): nat {
    if link in t.counts then t.counts[link] else 0
  }

  function Traversed(t: Tracker, id: RequestId): seq<Cid> {
    if id in t.traversed then t.traversed[id] else []
  }

  function Record(t: Tracker, id: RequestId, link: Cid, hasBlock: bool): Tracker {
    if hasBlock then
      t.(traversed := t.traversed[id := Traversed(t, id) + [link]], counts := t.counts[link := RefCount(t, link) + 1])
    else
      t.(missing := t.missing[id := (if id in t.missing then t.missing[id] else {}) + {link}])
  }

  function Release(counts: map<Cid, nat>, link: Cid): map<Cid, nat> {
    if link in counts && counts[link] > 1 then counts[link := counts[link] - 1] else counts - {link}
  }

  function ReleaseAll(counts: map<Cid, nat>, links: seq<Cid>): map<Cid, nat> {
    if links == [] then counts else Release(ReleaseAll(counts, links[..|links| - 1]), links[|links| - 1])
  }

  function Finish(t: Tracker, id: RequestId): Tracker {
    Tracker(t.missing - {id}, t.traversed - {id}, ReleaseAll(t.counts, Traversed(t, id)))
  }

  predicate Empty(t: Tracker) {
    t.missing == map[] && t.counts == map[]
  }

  // ---------------------------------------------------------------- invariant

  function Count(s: seq<Cid>, link: Cid): nat {
    multiset(s)[link]
  }

  lemma CountSnoc(s: seq<Cid>, x: Cid, link: Cid)
    ensures Count(s + [x], link) == Count(s, link) + if x == link then 1 else 0
  {
  }

  function Occurrences(link: Cid): seq<Cid> -> nat {
    (s: seq<Cid>) => Count(s, link)
  }

  /** The count of a link is its number of occurrences over all unfinished requests. */
  ghost predicate Counted(t: Tracker, link: Cid) {
    && RefCount(t, link) == Sum(t.traversed, Occurrences(link))
    && (link in t.counts ==> t.counts[link] > 0)
  }

  ghost predicate Inv(t: Tracker) {
    && (forall link :: Counted(t, link))
    && (forall id :: id in t.traversed ==> t.traversed[id] != [])
    && (forall id :: id in t.missing ==> t.missing[id] != {})
  }

  lemma NoLinksInv()
    ensures Inv(NO_LINKS)
  {
  }

  lemma {:induction false} RecordInv(t: Tracker, id: RequestId, link: Cid, hasBlock: bool)
    requires Inv(t)
    ensures Inv(Record(t, id, link, hasBlock))
  {
    var t' := Record(t, id, link, hasBlock);
    forall c ensures Counted(t', c) {
      assert Counted(t, c);
      if hasBlock {
        var s := Traversed(t, id);
        SumUpdate(t.traversed, id, s + [link], Occurrences(c));
        CountSnoc(s, link, c);
      }
    }
  }

  lemma {:induction false} ReleaseAllCounts(counts: map<Cid, nat>, links: seq<Cid>, c: Cid)
    requires forall x :: x in counts ==> counts[x] > 0
    requires Count(links, c) <= if c in counts then counts[c] else 0
    ensures var r := ReleaseAll(counts, links);
            && (forall x :: x in r ==> x in counts && r[x] > 0)
            && (if c in r then r[c] else 0) == (if c in counts then counts[c] else 0) - Count(links, c)
    decreases |links|
  {
    if links != [] {
      var init, l := links[..|links| - 1], links[|links| - 1];
      assert links == init + [l];
      CountSnoc(init, l, c);
      ReleaseAllCounts(counts, init, c);
    }
  }

  /** Finishing gives back exactly the request's own occurrences. */
  lemma {:induction false} FinishInv(t: Tracker, id: RequestId)
    requires Inv(t)
    ensures Inv(Finish(t, id))
    ensures forall c :: RefCount(Finish(t, id), c) == RefCount(t, c) - Count(Traversed(t, id), c)
  {
    var t' := Finish(t, id);
    forall c ensures Counted(t', c) && RefCount(t', c) == RefCount(t, c) - Count(Traversed(t, id), c) {
      assert Counted(t, c);
      if id in t.traversed {
        SumRemove(t.traversed, id, Occurrences(c));
      } else {
        assert t.traversed - {id} == t.traversed;
      }
      assert forall x :: x in t.counts ==> Counted(t, x);
      ReleaseAllCounts(t.counts, Traversed(t, id), c);
    }
  }

  /** A request holds a link while it is unfinished and has traversed it with a block. */
  predicate Holds(t: Tracker, id: RequestId, link: Cid) {
    link in Traversed(t, id)
  }

  predicate Recorded(t: Tracker, id: RequestId) {
    id in t.traversed || id in t.missing
  }

  lemma {:induction false} HeldCounts(t: Tracker, id: RequestId, link: Cid)
    requires Inv(t) && Holds(t, id, link)
    ensures RefCount(t, link) > 0 && link in t.counts
  {
    assert Counted(t, link);
    SumRemove(t.traversed, id, Occurrences(link));
  }

  lemma {:induction false} SumPositive(m: map<RequestId, seq<Cid>>, link: Cid) returns (id: RequestId)
    requires Sum(m, Occurrences(link)) > 0
    ensures id in m && link in m[id]
    decreases |m|
  {
    id :| id in m;
    SumRemove(m, id, Occurrences(link));
    if link !in m[id] {
      id := SumPositive(m - {id}, link);
    }
  }

  /** A link counts zero exactly when no unfinished request holds it. */
  lemma {:induction false} ZeroMeansUnheld(t: Tracker, link: Cid)
    requires Inv(t)
    ensures RefCount(t, link) == 0 <==> forall id :: !Holds(t, id, link)
  {
    assert Counted(t, link);
    forall id | Holds(t, id, link) ensures RefCount(t, link) > 0 {
      HeldCounts(t, id, link);
    }
    if RefCount(t, link) > 0 {
      var id := SumPositive(t.traversed, link);
      assert Holds(t, id, link);
    }
  }

  /** The tracker is empty exactly when no unfinished request has recorded anything. */
  lemma {:induction false} EmptyMeansNothingRecorded(t: Tracker)
    requires Inv(t)
    ensures Empty(t) <==> forall id :: !Recorded(t, id)
  {
    forall id | Recorded(t, id) ensures !Empty(t) {
      if id in t.traversed {
        var link := t.traversed[id][0];
        assert Holds(t, id, link);
        HeldCounts(t, id, link);
      }
    }
    if !Empty(t) {
      if t.missing != map[] {
        var id :| id in t.missing;
        assert Recorded(t, id);
      } else {
        var link :| link in t.counts;
        assert Counted(t, link);
        var id := SumPositive(t.traversed, link);
        assert Recorded(t, id);
      }
    }
  }

  class LinkTracker {
    var missingBlocks: map<RequestId, set<Cid>>
    var linksWithBlocksTraversedByRequest: map<RequestId, seq<Cid>>
    var traversalsWithBlocksInProgress: map<Cid, nat>

    ghost function Abs(): Tracker
      reads this
    {
      Tracker(missingBlocks, linksWithBlocksTraversedByRequest, traversalsWithBlocksInProgress)
    }

    constructor ()
      ensures Abs() == NO_LINKS
    {
      missingBlocks, linksWithBlocksTraversedByRequest, traversalsWithBlocksInProgress := map[], map[], map[];
    }

    function BlockRefCount(link: Cid): (n: nat)
      reads this
      ensures n == RefCount(Abs(), link)
    {
      if link in traversalsWithBlocksInProgress then traversalsWithBlocksInProgress[link] else 0
    }

    method RecordLinkTraversal(id: RequestId, link: Cid, hasBlock: bool)
      modifies this
      ensures Abs() == Record(old(Abs()), id, link, hasBlock)
    {
      if hasBlock {
        var links := if id in linksWithBlocksTraversedByRequest then linksWithBlocksTraversedByRequest[id] else [];
        var n := if link in traversalsWithBlocksInProgress then traversalsWithBlocksInProgress[link] else 0;
        linksWithBlocksTraversedByRequest := linksWithBlocksTraversedByRequest[id := links + [link]];
        traversalsWithBlocksInProgress := traversalsWithBlocksInProgress[link := n + 1];
      } else {
        var links := if id in missingBlocks then missingBlocks[id] else {};
        missingBlocks := missingBlocks[id := links + {link}];
      }
    }

    /** Whether every link the request traversed had its block. */
    method FinishRequest(id: RequestId) returns (hasAllBlocks: bool)
      modifies this
      ensures Abs() == Finish(old(Abs()), id)
      ensures hasAllBlocks == (id !in old(missingBlocks))
    {
      hasAllBlocks := id !in missingBlocks;
      missingBlocks := missingBlocks - {id};
      if id !in linksWithBlocksTraversedByRequest {
        assert linksWithBlocksTraversedByRequest - {id} == linksWithBlocksTraversedByRequest;
        return;
      }
      var links := linksWithBlocksTraversedByRequest[id];
      Decrement(links);
      linksWithBlocksTraversedByRequest := linksWithBlocksTraversedByRequest - {id};
    }

    method Decrement(links: seq<Cid>)
      modifies this`traversalsWithBlocksInProgress
      ensures traversalsWithBlocksInProgress == ReleaseAll(old(traversalsWithBlocksInProgress), links)
    {
      for i := 0 to |links|
        invariant traversalsWithBlocksInProgress == ReleaseAll(old(traversalsWithBlocksInProgress), links[..i])
      {
        var link := links[i];
        assert links[..i + 1][..i] == links[..i];
        var n: int := if link in traversalsWithBlocksInProgress then traversalsWithBlocksInProgress[link] else 0;
        if n - 1 <= 0 {
          traversalsWithBlocksInProgress := traversalsWithBlocksInProgress - {link};
        } else {
          traversalsWithBlocksInProgress := traversalsWithBlocksInProgress[link := n - 1];
        }
      }
      assert links[..|links|] == links;
    }
  }
}
