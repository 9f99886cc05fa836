/** Preparing a query: what a new request does to the peer's deduplication state before it is executed. */
module PreparedQueries {
  import opened Core
  import L = LinkTrackers
  import opened PeerLinkTrackers

  /** What the request hooks decided. */
  datatype HookResult = HookResult(extensions: seq<nat>, failed: bool, isValidated: bool, isPaused: bool)

  datatype Extension<T> = Absent | Malformed | Given(value: T)

  datatype Query = Query(key: Extension<string>, doNotSend: Extension<seq<Cid>>, skip: Extension<int>)

  datatype Operation = SendExtension(data: nat) | RequestPaused | RequestRejected | RequestFailedUnknown

  predicate Terminal(op: Operation) {
    op.RequestRejected? || op.RequestFailedUnknown?
  }

  predicate Refused(r: HookResult, q: Query) {
    r.failed || !r.isValidated || q.key.Malformed? || q.doNotSend.Malformed? || q.skip.Malformed?
  }

  /** The query is refused by the hooks or by its key, before anything is tracked. */
  predicate RefusedAtOnce(r: HookResult, q: Query) {
    r.failed || !r.isValidated || q.key.Malformed?
  }

  function KeySteps(q: Query, id: RequestId): seq<Step> {
    if q.key.Given? then [DedupKey(id, q.key.value)] else []
  }

  function IgnoreSteps(q: Query, id: RequestId): seq<Step> {
    KeySteps(q, id) + if q.doNotSend.Given? then [IgnoreBlocks(id, q.doNotSend.value)] else []
  }

  /** The tracker calls, in order. */
  function Steps(r: HookResult, q: Query, id: RequestId): seq<Step> {
    if RefusedAtOnce(r, q) then [FinishTracking(id)]
    else if q.doNotSend.Malformed? then KeySteps(q, id) + [FinishTracking(id)]
    else if q.skip.Malformed? then IgnoreSteps(q, id) + [FinishTracking(id)]
    else IgnoreSteps(q, id) + if q.skip.Given? then [SkipFirstBlocks(id, q.skip.value)] else []
  }

  /** The request is not known to the tracker. */
  predicate Unknown(p: Tracking, id: RequestId) {
    id !in p.keys && !L.Recorded(p.main, id) && id !in p.sent && id !in p.skips
  }

  lemma {:induction false} AfterSnoc(p: Tracking, steps: seq<Step>, step: Step)
    ensures After(p, steps + [step]) == Next(After(p, steps), step)
    ensures Proper(p, steps + [step]) <==> Proper(p, steps) && Allowed(After(p, steps), step)
  {
  }

  lemma {:induction false} AfterOne(p: Tracking, step: Step)
    ensures After(p, [step]) == Next(p, step)
    ensures Proper(p, [step]) <==> Allowed(p, step)
  {
  }

  /** After and Proper along the calls of a preparation. */
  lemma {:induction false} Unrolled(p: Tracking, q: Query, id: RequestId)
    ensures var ks, igs, f := KeySteps(q, id), IgnoreSteps(q, id), FinishTracking(id);
            && After(p, [f]) == Next(p, f) && Proper(p, [f])
            && After(p, ks) == (if q.key.Given? then Next(p, DedupKey(id, q.key.value)) else p)
            && (Proper(p, ks) <==> (q.key.Given? ==> MayKey(p, id, q.key.value)))
            && After(p, ks + [f]) == Next(After(p, ks), f) && (Proper(p, ks + [f]) <==> Proper(p, ks))
            && After(p, igs) == (if q.doNotSend.Given? then Next(After(p, ks),
              IgnoreBlocks(id, q.doNotSend.value)) else After(p, ks))
            && (Proper(p, igs) <==> Proper(p, ks))
            && After(p, igs + [f]) == Next(After(p, igs), f) && (Proper(p, igs + [f]) <==> Proper(p, igs))
            && (q.skip.Given? ==>
                  && After(p, igs + [SkipFirstBlocks(id, q.skip.value)]) ==
                    Next(After(p, igs), SkipFirstBlocks(id, q.skip.value))
                  && (Proper(p, igs + [SkipFirstBlocks(id, q.skip.value)]) <==> Proper(p, igs)))
            && igs + [] == igs
  {
    var ks, igs := KeySteps(q, id), IgnoreSteps(q, id);
    AfterOne(p, FinishTracking(id));
    if q.key.Given? {
      AfterOne(p, ks[0]);
    }
    AfterSnoc(p, ks, FinishTracking(id));
    if q.doNotSend.Given? {
      AfterSnoc(p, ks, IgnoreBlocks(id, q.doNotSend.value));
    } else {
      assert igs == ks;
    }
    AfterSnoc(p, igs, FinishTracking(id));
    if q.skip.Given? {
      AfterSnoc(p, igs, SkipFirstBlocks(id, q.skip.value));
    } else {
      assert igs + [] == igs;
    }
  }

  /** The calls of a new request key it before anything is recorded, so they keep every group sound. */
  lemma {:induction false} PreparingIsProper(p: Tracking, r: HookResult, q: Query, id: RequestId)
    requires Inv(p) && Unknown(p, id)
    ensures Proper(p, Steps(r, q, id)) && Inv(After(p, Steps(r, q, id)))
  {
    Unrolled(p, q, id);
    RunInv(p, Steps(r, q, id));
  }

  // ---------------------------------------------------------------- refusal leaves no trace

  lemma {:induction false} RecordAllCounts(t: Tracker, id: RequestId, links: seq<Cid>, c: Cid)
    ensures L.RefCount(RecordAll(t, id, links), c) == L.RefCount(t, c) + L.Count(links, c)
    decreases |links|
  {
    if links != [] {
      var init, l := links[..|links| - 1], links[|links| - 1];
      RecordAllCounts(t, id, init, c);
      assert links == init + [l];
      L.CountSnoc(init, l, c);
    }
  }

  lemma {:induction false} RecordAllMaps(t: Tracker, id: RequestId, links: seq<Cid>)
    ensures RecordAll(t, id, links).missing == t.missing
    ensures RecordAll(t, id, links).traversed == if links == [] then t.traversed
            else t.traversed[id := L.Traversed(t, id) + links]
    decreases |links|
  {
    if links != [] {
      var init, l := links[..|links| - 1], links[|links| - 1];
      RecordAllMaps(t, id, init);
      assert L.Traversed(RecordAll(t, id, init), id) == L.Traversed(t, id) + init;
      assert L.Traversed(t, id) + init + [l] == L.Traversed(t, id) + links;
    }
  }

  lemma {:induction false} CountRestored(t: Tracker, id: RequestId, links: seq<Cid>, c: Cid)
    requires L.Inv(t) && !L.Recorded(t, id)
    ensures var v := L.Finish(RecordAll(t, id, links), id);
            && (c in v.counts <==> c in t.counts)
            && (c in t.counts ==> v.counts[c] == t.counts[c])
  {
    var u := RecordAll(t, id, links);
    RecordAllInv(t, id, links);
    L.FinishInv(u, id);
    RecordAllCounts(t, id, links, c);
    assert [] + links == links;
    assert L.RefCount(L.Finish(u, id), c) == L.RefCount(t, c);
    assert L.Counted(t, c) && L.Counted(L.Finish(u, id), c);
  }

  /** Finishing a request takes back everything it had recorded. */
  lemma {:induction false} FinishUndoesRecording(t: Tracker, id: RequestId, links: seq<Cid>)
    requires L.Inv(t) && !L.Recorded(t, id)
    ensures L.Finish(RecordAll(t, id, links), id) == t
  {
    var u := RecordAll(t, id, links);
    var v := L.Finish(u, id);
    CountsRestored(t, id, links);
    RecordAllMaps(t, id, links);
    RemovedAgain(t.traversed, id, L.Traversed(t, id) + links);
    RemovedAgain(t.missing, id, {});
  }

  lemma {:induction false} CountsRestored(t: Tracker, id: RequestId, links: seq<Cid>)
    requires L.Inv(t) && !L.Recorded(t, id)
    ensures L.Finish(RecordAll(t, id, links), id).counts == t.counts
  {
    var v := L.Finish(RecordAll(t, id, links), id);
    forall c ensures (c in v.counts <==> c in t.counts) && (c in t.counts ==> v.counts[c] == t.counts[c]) {
      CountRestored(t, id, links, c);
    }
  }

  lemma RemovedAgain<V>(m: map<RequestId, V>, id: RequestId, v: V)
    requires id !in m
    ensures m - {id} == m && m[id := v] - {id} == m
  {
  }

  lemma {:induction false} KeyedThenIgnored(p: Tracking, id: RequestId, key: string, links: seq<Cid>)
    ensures Next(Next(p, DedupKey(id, key)), IgnoreBlocks(id, links)) ==
            p.(keys := p.keys[id := key], alts := p.alts[key := RecordAll(TrackerOf(p, Keyed(key)), id, links)])
  {
  }

  lemma {:induction false} UnrecordedInGroup(p: Tracking, id: RequestId, key: string)
    requires Inv(p) && Unknown(p, id)
    ensures L.Inv(TrackerOf(p, Keyed(key))) && !L.Recorded(TrackerOf(p, Keyed(key)), id)
    ensures KeyInUse(p.keys, key) <==> key in p.alts
  {
    assert Sound(p, Keyed(key));
  }

  lemma {:induction false} FinishUndoesKey(p: Tracking, id: RequestId, key: string, links: seq<Cid>)
    requires Inv(p) && Unknown(p, id)
    ensures Finished(Next(Next(p, DedupKey(id, key)), IgnoreBlocks(id, links)), id) == p
  {
    var t := TrackerOf(p, Keyed(key));
    UnrecordedInGroup(p, id, key);
    FinishUndoesRecording(t, id, links);
    KeyedThenIgnored(p, id, key, links);
    LeavingKey(p, id, key, Next(Next(p, DedupKey(id, key)), IgnoreBlocks(id, links)), t);
  }

  lemma {:induction false} LeavingKey(p: Tracking, id: RequestId, key: string, b: Tracking, t: Tracker)
    requires Unknown(p, id) && (KeyInUse(p.keys, key) <==> key in p.alts)
    requires b.main == p.main && b.sent == p.sent && b.skips == p.skips
    requires b.keys == p.keys[id := key] && b.alts.Keys == p.alts.Keys + {key}
    requires forall k :: k in p.alts && k != key ==> b.alts[k] == p.alts[k]
    requires L.Finish(b.alts[key], id) == t == TrackerOf(p, Keyed(key))
    ensures Finished(b, id) == p
  {
    assert b.keys - {id} == p.keys;
    assert Finished(b, id).alts == p.alts;
  }

  lemma {:induction false} FinishUndoesIgnore(p: Tracking, id: RequestId, links: seq<Cid>)
    requires Inv(p) && Unknown(p, id)
    ensures Finished(Next(p, IgnoreBlocks(id, links)), id) == p
  {
    assert Sound(p, Default);
    FinishUndoesRecording(p.main, id, links);
    assert p.keys - {id} == p.keys;
  }

  lemma IgnoringNothing(p: Tracking, id: RequestId)
    requires Inv(p)
    ensures Next(p, IgnoreBlocks(id, [])) == p
  {
  }

  /** A refused query leaves the peer's deduplication state exactly as it found it. */
  lemma {:induction false} RefusalLeavesNoTrace(p: Tracking, r: HookResult, q: Query, id: RequestId)
    requires Inv(p) && Unknown(p, id) && Refused(r, q)
    ensures After(p, Steps(r, q, id)) == p
  {
    var links := if q.doNotSend.Given? then q.doNotSend.value else [];
    Unrolled(p, q, id);
    IgnoringNothing(p, id);
    FinishUndoesIgnore(p, id, []);
    FinishUndoesIgnore(p, id, links);
    if q.key.Given? {
      KeyingKeepsExactly(p, id, q.key.value);
      IgnoringNothing(Next(p, DedupKey(id, q.key.value)), id);
      FinishUndoesKey(p, id, q.key.value, []);
      FinishUndoesKey(p, id, q.key.value, links);
    }
  }

  // ---------------------------------------------------------------- the preparation itself

  /** At most one operation is terminal: the last one, exactly when the query is refused. */
  predicate OneTerminal(ops: seq<Operation>, refused: bool) {
    && (refused <==> ops != [] && Terminal(ops[|ops| - 1]))
    && forall i :: 0 <= i < |ops| - 1 ==> !Terminal(ops[i])
  }

  method SendHookResult(r: HookResult) returns (ops: seq<Operation>, err: bool)
    ensures err == (r.failed || !r.isValidated) && OneTerminal(ops, err)
    ensures forall e :: e in r.extensions ==> SendExtension(e) in ops
  {
    ops, err := [], false;
    for i := 0 to |r.extensions|
      invariant forall k :: 0 <= k < |ops| ==> !Terminal(ops[k])
      invariant forall k :: 0 <= k < i ==> SendExtension(r.extensions[k]) in ops
    {
      ops := ops + [SendExtension(r.extensions[i])];
    }
    if r.failed {
      ops, err := ops + [RequestFailedUnknown], true;
    } else if !r.isValidated {
      ops, err := ops + [RequestRejected], true;
    } else if r.isPaused {
      ops := ops + [RequestPaused];
    }
  }

  /** One extension of the request: a malformed one ends the request, a given one is a call on the tracker. */
  function Process<T>(p: Tracking, id: RequestId, e: Extension<T>, call: T -> Step): Tracking {
    match e
    case Absent => p
    case Malformed => Next(p, FinishTracking(id))
    case Given(v) => Next(p, call(v))
  }

  function Prepared(p: Tracking, r: HookResult, q: Query, id: RequestId): Tracking {
    if r.failed || !r.isValidated then Next(p, FinishTracking(id))
    else
      var p1 := Process(p, id, q.key, k => DedupKey(id, k));
      if q.key.Malformed? then p1
      else
        var p2 := Process(p1, id, q.doNotSend, links => IgnoreBlocks(id, links));
        if q.doNotSend.Malformed? then p2 else Process(p2, id, q.skip, n => SkipFirstBlocks(id, n))
  }

  lemma {:induction false} PreparedIsRun(p: Tracking, r: HookResult, q: Query, id: RequestId)
    ensures Prepared(p, r, q, id) == After(p, Steps(r, q, id))
  {
    if RefusedAtOnce(r, q) {
      AfterOne(p, FinishTracking(id));
    } else {
      AcceptedIsRun(p, r, q, id);
    }
  }

  lemma {:induction false} AcceptedIsRun(p: Tracking, r: HookResult, q: Query, id: RequestId)
    requires !RefusedAtOnce(r, q)
    ensures Prepared(p, r, q, id) == After(p, Steps(r, q, id))
  {
    Unrolled(p, q, id);
    var ks, igs := KeySteps(q, id), IgnoreSteps(q, id);
    assert Process(p, id, q.key, k => DedupKey(id, k)) == After(p, ks);
    if q.doNotSend.Malformed? {
      assert Steps(r, q, id) == ks + [FinishTracking(id)];
    } else {
      assert Process(After(p, ks), id, q.doNotSend, links => IgnoreBlocks(id, links)) == After(p, igs);
    }
  }

  method ProcessDedupByKey(tracker: PeerLinkTracker, id: RequestId, q: Query) returns (err: bool)
    requires tracker.Valid()
    modifies tracker, tracker.linkTracker, tracker.altTrackers.Values
    ensures tracker.Valid() && err == q.key.Malformed?
    ensures tracker.Abs() == Process(old(tracker.Abs()), id, q.key, k => DedupKey(id, k))
    ensures tracker.linkTracker == old(tracker.linkTracker)
    ensures fresh(tracker.altTrackers.Values - old(tracker.altTrackers.Values))
  {
    err := q.key.Malformed?;
    if err {
      var _ := tracker.FinishTracking(id);
    } else if q.key.Given? {
      tracker.DedupKey(id, q.key.value);
    }
  }

  method ProcessDoNotSendCids(tracker: PeerLinkTracker, id: RequestId, q: Query) returns (err: bool)
    requires tracker.Valid()
    modifies tracker, tracker.linkTracker, tracker.altTrackers.Values
    ensures tracker.Valid() && err == q.doNotSend.Malformed?
    ensures tracker.Abs() == Process(old(tracker.Abs()), id, q.doNotSend, links => IgnoreBlocks(id, links))
    ensures tracker.linkTracker == old(tracker.linkTracker)
            && tracker.altTrackers.Values <= old(tracker.altTrackers.Values)
  {
    err := q.doNotSend.Malformed?;
    if err {
      var _ := tracker.FinishTracking(id);
    } else if q.doNotSend.Given? {
      tracker.IgnoreBlocks(id, q.doNotSend.value);
    }
  }

  method ProcessDoNotSendFirstBlocks(tracker: PeerLinkTracker, id: RequestId, q: Query) returns (err: bool)
    requires tracker.Valid()
    modifies tracker, tracker.linkTracker, tracker.altTrackers.Values
    ensures tracker.Valid() && err == q.skip.Malformed?
    ensures tracker.Abs() == Process(old(tracker.Abs()), id, q.skip, n => SkipFirstBlocks(id, n))
  {
    err := q.skip.Malformed?;
    if err {
      var _ := tracker.FinishTracking(id);
    } else if q.skip.Given? {
      tracker.SkipFirstBlocks(id, q.skip.value);
    }
  }

  method PrepareQuery(tracker: PeerLinkTracker, id: RequestId, r: HookResult, q: Query)
    returns (ops: seq<Operation>, err: bool)
    requires tracker.Valid()
    modifies tracker, tracker.linkTracker, tracker.altTrackers.Values
    ensures tracker.Valid() && tracker.Abs() == Prepared(old(tracker.Abs()), r, q, id)
    ensures err == Refused(r, q) && OneTerminal(ops, err)
  {
    ops, err := SendHookResult(r);
    if err {
      var _ := tracker.FinishTracking(id);
      return;
    }
    err := ProcessDedupByKey(tracker, id, q);
    if !err {
      err := ProcessDoNotSendCids(tracker, id, q);
      if !err {
        err := ProcessDoNotSendFirstBlocks(tracker, id, q);
      }
    }
    if err {
      ops := ops + [RequestFailedUnknown];
    }
  }
}
