/**
  The memory allocator: a global and a per-peer limit, requests that wait in order per
  peer, and a queue of peers that decides who is served when memory is released.
 */
module Allocator {
  import opened Core
  import opened Sums

  const U64: nat := 0x1_0000_0000_0000_0000

  /** uint64 addition, for operands below 2^64. */
  function Add(a: nat, b: nat): nat {
    if a + b < U64 then a + b else a + b - U64
  }

  /** A limit check with wrapping addition is right exactly when the sum does not wrap below the limit. */
  lemma WrappedCheckExact(total: nat, amount: nat, limit: nat)
    requires total <= limit < U64 && amount < U64
    ensures (Add(total, amount) <= limit <==> total + amount <= limit) <==> !(U64 <= total + amount <= U64 + limit)
  {
  }

  datatype Pending = Pending(amount: nat, channel: nat, index: nat)
  datatype Status = Status(total: nat, pending: seq<Pending>)
  datatype Request = Request(peer: Peer, channel: nat)
  datatype Answer = Answer(peer: Peer, channel: nat, granted: bool)

  /** The allocator's state, with the history of requests and of what was sent on their channels. */
  datatype State = State(
    maxTotal: nat,
    maxPerPeer: nat,
    total: nat,
    nextIndex: nat,
    peers: map<Peer, Status>,
    requests: seq<Request>,
    answers: seq<Answer>)

  // --------------------------------------------------------------- comparator

  predicate Over(s: Status, maxPerPeer: nat)
    requires s.pending != []
  {
    Add(s.total, s.pending[0].amount) > maxPerPeer
  }

  /** makePeerStatusCompare: peers with a request that fits, oldest first; then over-limit ones; then idle ones. */
  predicate Less(a: Status, b: Status, maxPerPeer: nat) {
    if a.pending == [] then b.pending == [] && a.total < b.total
    else if b.pending == [] then true
    else if Over(a, maxPerPeer) then false
    else if Over(b, maxPerPeer) then true
    else a.pending[0].index < b.pending[0].index
  }

  /** The class of a status in the order: fitting, over the limit, idle. */
  function Class(s: Status, maxPerPeer: nat): nat {
    if s.pending == [] then 2 else if Over(s, maxPerPeer) then 1 else 0
  }

  /** The order is lexicographic: by class, then by age within the fitting and by usage within the idle. */
  lemma LessIsByClass(a: Status, b: Status, m: nat)
    ensures Less(a, b, m) <==>
              || Class(a, m) < Class(b, m)
              || (Class(a, m) == Class(b, m) == 0 && a.pending[0].index < b.pending[0].index)
              || (Class(a, m) == Class(b, m) == 2 && a.total < b.total)
  {
  }

  /** A strict weak order: irreflexive, transitive, and neither-less is transitive. */
  lemma {:induction false} LessIsStrictWeakOrder(a: Status, b: Status, c: Status, m: nat)
    ensures !Less(a, a, m)
    ensures Less(a, b, m) && Less(b, c, m) ==> Less(a, c, m)
    ensures !Less(a, b, m) && !Less(b, a, m) && !Less(b, c, m) && !Less(c, b, m) ==> !Less(a, c, m) && !Less(c, a, m)
  {
  }

  /** Any set of peers has a member with none before it. */
  lemma {:induction false} MinimalExists(ps: set<Peer>, peers: map<Peer, Status>, m: nat) returns (p: Peer)
    requires ps != {} && ps <= peers.Keys
    ensures p in ps && forall q :: q in ps ==> !Less(peers[q], peers[p], m)
    decreases |ps|
  {
    p :| p in ps;
    if ps != {p} {
      var r := MinimalExists(ps - {p}, peers, m);
      if Less(peers[r], peers[p], m) {
        forall q | q in ps ensures !Less(peers[q], peers[r], m) {
          LessIsStrictWeakOrder(peers[p], peers[r], peers[p], m);
        }
        p := r;
      } else {
        forall q | q in ps ensures !Less(peers[q], peers[p], m) {
          LessIsByClass(peers[q], peers[p], m);
          LessIsByClass(peers[r], peers[p], m);
          if q != p {
            LessIsByClass(peers[q], peers[r], m);
          }
        }
      }
    }
  }

  // --------------------------------------------------------------- operations

  function StatusOf(a: State, p: Peer): Status {
    if p in a.peers then a.peers[p] else Status(0, [])
  }

  function Sub(a: nat, b: nat): nat {
    if a >= b then a - b else 0
  }

  function Allocate(a: State, p: Peer, amount: nat): State {
    var s, channel := StatusOf(a, p), |a.requests|;
    var a' := a.(requests := a.requests + [Request(p, channel)]);
    if Add(a.total, amount) <= a.maxTotal && Add(s.total, amount) <= a.maxPerPeer && s.pending == [] then
      a'.(total := Add(a.total, amount), peers := a.peers[p := s.(total := Add(s.total, amount))],
          answers := a.answers + [Answer(p, channel, true)])
    else
      a'.(nextIndex := a.nextIndex + 1,
          peers := a.peers[p := s.(pending := s.pending + [Pending(amount, channel, a.nextIndex)])])
  }

  /** Before the drain: the peer gives back at most what it holds. */
  function Released(a: State, p: Peer, amount: nat): State
    requires p in a.peers
  {
    var s := a.peers[p];
    var freed := if s.total >= amount then amount else s.total;
    a.(total := Sub(a.total, freed), peers := a.peers[p := s.(total := s.total - freed)])
  }

  function Failures(p: Peer, pending: seq<Pending>): (r: seq<Answer>)
    ensures |r| == |pending| && forall i :: 0 <= i < |r| ==> r[i] == Answer(p, pending[i].channel, false)
  {
    seq(|pending|, i requires 0 <= i < |pending| => Answer(p, pending[i].channel, false))
  }

  /** Before the drain: the peer is forgotten and its waiting requests fail. */
  function Forgotten(a: State, p: Peer): State
    requires p in a.peers
  {
    a.(total := Sub(a.total, a.peers[p].total), peers := a.peers - {p},
       answers := a.answers + Failures(p, a.peers[p].pending))
  }

  predicate HasPending(a: State, p: Peer) {
    p in a.peers && a.peers[p].pending != []
  }

  /** The head request of p fits p's own limit. */
  predicate Fitting(a: State, p: Peer) {
    HasPending(a, p) && !Over(a.peers[p], a.maxPerPeer)
  }

  /** p's head request is the oldest of those that fit their peer's limit. */
  ghost predicate Oldest(a: State, p: Peer) {
    Fitting(a, p) && forall q :: Fitting(a, q) ==> a.peers[p].pending[0].index <= a.peers[q].pending[0].index
  }

  predicate Servable(a: State, p: Peer)
    requires HasPending(a, p)
  {
    Add(a.total, a.peers[p].pending[0].amount) <= a.maxTotal
  }

  function Grant(a: State, p: Peer): State
    requires HasPending(a, p)
  {
    var s, r := a.peers[p], a.peers[p].pending[0];
    a.(total := Add(a.total, r.amount),
       peers := a.peers[p := Status(Add(s.total, r.amount), s.pending[1..])],
       answers := a.answers + [Answer(p, r.channel, true)])
  }

  function DropIdle(a: State): State {
    a.(peers := Busy(a.peers))
  }

  ghost predicate NonePending(a: State) {
    forall p :: p in a.peers ==> a.peers[p].pending == []
  }

  /** Serve the oldest request that fits its peer's limit for as long as it fits the global one. */
  ghost function Drain(a: State): State
    decreases Waiting(a)
  {
    if exists p :: Oldest(a, p) && Servable(a, p) then
      var p :| Oldest(a, p) && Servable(a, p);
      GrantWaiting(a, p);
      Drain(Grant(a, p))
    else if NonePending(a) then DropIdle(a)
    else a
  }

  // --------------------------------------------------------- sums over the peers

  const totalOf: Status -> nat := (s: Status) => s.total
  const waitingOf: Status -> nat := (s: Status) => |s.pending|

  ghost function Waiting(a: State): nat {
    Sum(a.peers, waitingOf)
  }

  lemma {:induction false} GrantWaiting(a: State, p: Peer)
    requires HasPending(a, p)
    ensures Waiting(Grant(a, p)) == Waiting(a) - 1
  {
    SumUpdate(a.peers, p, Grant(a, p).peers[p], waitingOf);
  }

  // --------------------------------------------------------------- invariants

  /** The amount can be added to anything within the limits without wrapping. */
  predicate Small(a: State, amount: nat) {
    amount + a.maxTotal < U64 && amount + a.maxPerPeer < U64
  }

  /** The global total is the sum of the peers' totals, and both limits hold. */
  ghost predicate Accounted(a: State) {
    && a.maxTotal < U64 && a.maxPerPeer < U64
    && a.total == Sum(a.peers, totalOf) <= a.maxTotal
    && forall p :: p in a.peers ==> PeerOK(a, a.peers[p])
  }

  ghost predicate PeerOK(a: State, s: Status) {
    && s.total <= a.maxPerPeer
    && (forall i :: 0 <= i < |s.pending| ==> Small(a, s.pending[i].amount) && s.pending[i].index < a.nextIndex)
    && (forall i, j :: 0 <= i < j < |s.pending| ==> s.pending[i].index < s.pending[j].index)
  }

  ghost predicate AgesApart(x: seq<Pending>, y: seq<Pending>) {
    forall i, j :: 0 <= i < |x| && 0 <= j < |y| ==> x[i].index != y[j].index
  }

  /** No two waiting requests have the same age. */
  ghost predicate AgesDiffer(a: State) {
    forall p, q :: p in a.peers && q in a.peers && p != q ==> AgesApart(a.peers[p].pending, a.peers[q].pending)
  }

  function RequestedBy(rs: seq<Request>, p: Peer): seq<nat> {
    if rs == [] then []
    else RequestedBy(rs[..|rs| - 1], p) + if rs[|rs| - 1].peer == p then [rs[|rs| - 1].channel] else []
  }

  function AnsweredTo(as_: seq<Answer>, p: Peer): seq<nat> {
    if as_ == [] then []
    else AnsweredTo(as_[..|as_| - 1], p) + if as_[|as_| - 1].peer == p then [as_[|as_| - 1].channel] else []
  }

  function Channels(ps: seq<Pending>): (r: seq<nat>)
    ensures |r| == |ps| && forall i :: 0 <= i < |r| ==> r[i] == ps[i].channel
  {
    seq(|ps|, i requires 0 <= i < |ps| => ps[i].channel)
  }

  /** Each peer's requests are answered in the order they were made, each at most once. */
  ghost predicate InOrder(a: State) {
    && (forall i :: 0 <= i < |a.requests| ==> a.requests[i].channel == i)
    && forall p :: PeerInOrder(a, p)
  }

  ghost predicate PeerInOrder(a: State, p: Peer) {
    AnsweredTo(a.answers, p) + Channels(StatusOf(a, p).pending) == RequestedBy(a.requests, p)
  }

  ghost predicate Inv(a: State) {
    Accounted(a) && AgesDiffer(a) && InOrder(a)
  }

  /** The oldest request that fits its peer's limit, if there is one, does not fit the global limit. */
  ghost predicate Quiescent(a: State) {
    forall p :: Oldest(a, p) ==> !Servable(a, p)
  }

  function Init(maxTotal: nat, maxPerPeer: nat): State {
    State(maxTotal, maxPerPeer, 0, 0, map[], [], [])
  }

  lemma {:induction false} InitInv(maxTotal: nat, maxPerPeer: nat)
    requires maxTotal < U64 && maxPerPeer < U64
    ensures Inv(Init(maxTotal, maxPerPeer)) && Quiescent(Init(maxTotal, maxPerPeer))
  {
  }

  lemma {:induction false} PeerWithinSum(m: map<Peer, Status>, p: Peer)
    requires p in m
    ensures m[p].total <= Sum(m, totalOf)
  {
    SumRemove(m, p, totalOf);
  }

  lemma {:induction false} AnsweredConcat(x: seq<Answer>, y: seq<Answer>, p: Peer)
    ensures AnsweredTo(x + y, p) == AnsweredTo(x, p) + AnsweredTo(y, p)
    decreases |y|
  {
    if y == [] {
      assert x + y == x;
    } else {
      assert (x + y)[..|x + y| - 1] == x + y[..|y| - 1];
      AnsweredConcat(x, y[..|y| - 1], p);
    }
  }

  lemma {:induction false} AnsweredOne(x: seq<Answer>, y: Answer, p: Peer)
    ensures AnsweredTo(x + [y], p) == AnsweredTo(x, p) + if y.peer == p then [y.channel] else []
  {
  }

  lemma {:induction false} RequestedOne(x: seq<Request>, y: Request, p: Peer)
    ensures RequestedBy(x + [y], p) == RequestedBy(x, p) + if y.peer == p then [y.channel] else []
  {
  }

  // ------------------------------------------------------------- allocation

  lemma {:induction false} AllocateAccounted(a: State, p: Peer, amount: nat)
    requires Accounted(a) && Small(a, amount)
    ensures Accounted(Allocate(a, p, amount))
  {
    var a' := Allocate(a, p, amount);
    SumUpdate(a.peers, p, a'.peers[p], totalOf);
    assert PeerOK(a, StatusOf(a, p));
    assert PeerOK(a', a'.peers[p]);
    forall q | q in a'.peers && q != p ensures PeerOK(a', a'.peers[q]) {
      assert PeerOK(a, a.peers[q]);
    }
  }

  lemma {:induction false} AllocateAges(a: State, p: Peer, amount: nat)
    requires Accounted(a) && AgesDiffer(a)
    ensures AgesDiffer(Allocate(a, p, amount))
  {
    var a' := Allocate(a, p, amount);
    forall q, r | q in a'.peers && r in a'.peers && q != r ensures AgesApart(a'.peers[q].pending, a'.peers[r].pending) {
      assert AgesApart(StatusOf(a, q).pending, StatusOf(a, r).pending);
      assert q in a.peers ==> PeerOK(a, a.peers[q]);
      assert r in a.peers ==> PeerOK(a, a.peers[r]);
    }
  }

  lemma ChannelsAppend(was: seq<Pending>, r: Pending)
    ensures Channels(was + [r]) == Channels(was) + [r.channel]
  {
  }

  lemma {:induction false} AllocatePeerInOrder(a: State, p: Peer, amount: nat, q: Peer)
    requires PeerInOrder(a, q)
    ensures PeerInOrder(Allocate(a, p, amount), q)
  {
    var a', c := Allocate(a, p, amount), |a.requests|;
    var sent, was := AnsweredTo(a.answers, q), StatusOf(a, q).pending;
    RequestedOne(a.requests, Request(p, c), q);
    AnsweredOne(a.answers, Answer(p, c, true), q);
    if q == p {
      ChannelsAppend(was, Pending(amount, c, a.nextIndex));
      Associative(sent, Channels(was), [c]);
      if a'.answers != a.answers {
        assert StatusOf(a', q).pending == [] == was;
        assert sent + [c] + [] == sent + [] + [c];
      }
    } else {
      assert StatusOf(a', q) == StatusOf(a, q);
    }
  }

  lemma {:induction false} AllocateInOrder(a: State, p: Peer, amount: nat)
    requires InOrder(a)
    ensures InOrder(Allocate(a, p, amount))
  {
    forall q ensures PeerInOrder(Allocate(a, p, amount), q) {
      AllocatePeerInOrder(a, p, amount, q);
    }
  }

  /** The same requests fit, or more recent ones: whoever is oldest now was oldest before. */
  lemma OldestBefore(a: State, a': State, q: Peer)
    requires Oldest(a', q) && Fitting(a, q)
    requires forall r :: Fitting(a, r) ==> Fitting(a', r) && a'.peers[r].pending[0] == a.peers[r].pending[0]
    ensures Oldest(a, q)
  {
  }

  /** A request that is served at once or put behind others changes no head. */
  lemma {:induction false} AllocateQuietly(a: State, p: Peer, amount: nat, q: Peer)
    requires Accounted(a) && Quiescent(a) && Small(a, amount)
    requires |Allocate(a, p, amount).answers| > |a.answers| || StatusOf(a, p).pending != []
    requires Oldest(Allocate(a, p, amount), q)
    ensures !Servable(Allocate(a, p, amount), q)
  {
    var a' := Allocate(a, p, amount);
    assert p in a.peers ==> PeerOK(a, a.peers[p]);
    assert Fitting(a, q) && PeerOK(a, a.peers[q]);
    OldestBefore(a, a', q);
  }

  /** A request that becomes a head is the most recent one, so it matters only if it is alone. */
  lemma {:induction false} AllocateNewHead(a: State, p: Peer, amount: nat, q: Peer)
    requires Accounted(a) && Quiescent(a) && Small(a, amount)
    requires |Allocate(a, p, amount).answers| == |a.answers| && StatusOf(a, p).pending == []
    requires Oldest(Allocate(a, p, amount), q)
    ensures !Servable(Allocate(a, p, amount), q)
  {
    var a' := Allocate(a, p, amount);
    if q != p {
      assert Fitting(a, q);
      OldestBefore(a, a', q);
    }
  }

  /** A request leaves the allocator quiescent. */
  lemma {:induction false} AllocateQuiescent(a: State, p: Peer, amount: nat)
    requires Accounted(a) && Quiescent(a) && Small(a, amount)
    ensures Quiescent(Allocate(a, p, amount))
  {
    var a' := Allocate(a, p, amount);
    forall q | Oldest(a', q) ensures !Servable(a', q) {
      if |a'.answers| > |a.answers| || StatusOf(a, p).pending != [] {
        AllocateQuietly(a, p, amount, q);
      } else {
        AllocateNewHead(a, p, amount, q);
      }
    }
  }

  lemma {:induction false} AllocateInv(a: State, p: Peer, amount: nat)
    requires Inv(a) && Quiescent(a) && Small(a, amount)
    ensures Inv(Allocate(a, p, amount)) && Quiescent(Allocate(a, p, amount))
  {
    AllocateAccounted(a, p, amount);
    AllocateAges(a, p, amount);
    AllocateInOrder(a, p, amount);
    AllocateQuiescent(a, p, amount);
  }

  // ---------------------------------------------------------------- release

  lemma {:induction false} ReleasedAccounted(a: State, p: Peer, amount: nat)
    requires Accounted(a) && p in a.peers
    ensures Accounted(Released(a, p, amount))
    ensures a.total >= a.peers[p].total
  {
    var a' := Released(a, p, amount);
    PeerWithinSum(a.peers, p);
    SumUpdate(a.peers, p, a'.peers[p], totalOf);
    forall q | q in a'.peers ensures PeerOK(a', a'.peers[q]) {
      assert PeerOK(a, a.peers[q]);
    }
  }

  lemma {:induction false} ReleasedInv(a: State, p: Peer, amount: nat)
    requires Inv(a) && p in a.peers
    ensures Inv(Released(a, p, amount))
    ensures a.total >= a.peers[p].total
  {
    var a' := Released(a, p, amount);
    ReleasedAccounted(a, p, amount);
    forall q, r | q in a'.peers && r in a'.peers && q != r ensures AgesApart(a'.peers[q].pending, a'.peers[r].pending) {
      assert AgesApart(a.peers[q].pending, a.peers[r].pending);
    }
    forall q ensures PeerInOrder(a', q) {
      assert PeerInOrder(a, q);
    }
  }

  lemma {:induction false} ForgottenInv(a: State, p: Peer)
    requires Inv(a) && p in a.peers
    ensures Inv(Forgotten(a, p))
    ensures a.total >= a.peers[p].total
  {
    var a' := Forgotten(a, p);
    PeerWithinSum(a.peers, p);
    SumRemove(a.peers, p, totalOf);
    forall q | q in a'.peers ensures PeerOK(a', a'.peers[q]) {
      assert PeerOK(a, a.peers[q]);
    }
    forall q ensures PeerInOrder(a', q) {
      ForgottenPeerInOrder(a, p, q);
    }
  }

  lemma {:induction false} ForgottenPeerInOrder(a: State, p: Peer, q: Peer)
    requires p in a.peers && PeerInOrder(a, q)
    ensures PeerInOrder(Forgotten(a, p), q)
  {
    AnsweredConcat(a.answers, Failures(p, a.peers[p].pending), q);
    FailuresAnswer(p, a.peers[p].pending, q);
    assert AnsweredTo(Forgotten(a, p).answers, q) ==
           AnsweredTo(a.answers, q) + if q == p then Channels(a.peers[p].pending) else [];
    if q == p {
      assert StatusOf(Forgotten(a, p), q).pending == [];
    } else {
      assert StatusOf(Forgotten(a, p), q) == StatusOf(a, q);
    }
  }

  lemma {:induction false} FailuresAnswer(p: Peer, pending: seq<Pending>, q: Peer)
    ensures AnsweredTo(Failures(p, pending), q) == if q == p then Channels(pending) else []
    decreases |pending|
  {
    if pending != [] {
      var n := |pending| - 1;
      FailuresAnswer(p, pending[..n], q);
      assert Failures(p, pending)[..n] == Failures(p, pending[..n]);
      assert Channels(pending) == Channels(pending[..n]) + [pending[n].channel];
    }
  }

  // ------------------------------------------------------------------ drain

  lemma {:induction false} GrantAccounted(a: State, p: Peer)
    requires Accounted(a) && Fitting(a, p) && Servable(a, p)
    ensures Accounted(Grant(a, p))
  {
    var a' := Grant(a, p);
    assert PeerOK(a, a.peers[p]);
    SumUpdate(a.peers, p, a'.peers[p], totalOf);
    assert PeerOK(a', a'.peers[p]);
    forall q | q in a'.peers && q != p ensures PeerOK(a', a'.peers[q]) {
      assert PeerOK(a, a.peers[q]);
    }
  }

  lemma {:induction false} GrantInv(a: State, p: Peer)
    requires Inv(a) && Fitting(a, p) && Servable(a, p)
    ensures Inv(Grant(a, p))
  {
    var a' := Grant(a, p);
    GrantAccounted(a, p);
    GrantAges(a, p);
    forall q ensures PeerInOrder(a', q) {
      GrantPeerInOrder(a, p, q);
    }
  }

  lemma {:induction false} AnswerHead(sent: seq<nat>, was: seq<Pending>, all: seq<nat>)
    requires was != [] && sent + Channels(was) == all
    ensures sent + [was[0].channel] + Channels(was[1..]) == all
  {
  }

  lemma {:induction false} GrantPeerInOrder(a: State, p: Peer, q: Peer)
    requires HasPending(a, p) && PeerInOrder(a, q)
    ensures PeerInOrder(Grant(a, p), q)
  {
    AnsweredOne(a.answers, Answer(p, a.peers[p].pending[0].channel, true), q);
    if q == p {
      AnswerHead(AnsweredTo(a.answers, p), a.peers[p].pending, RequestedBy(a.requests, p));
    }
  }

  function Busy(m: map<Peer, Status>): map<Peer, Status> {
    map p | p in m && m[p].total > 0 :: m[p]
  }

  lemma {:induction false} BusySum(m: map<Peer, Status>)
    ensures Sum(Busy(m), totalOf) == Sum(m, totalOf)
    decreases |m|
  {
    if m == map[] {
      assert Busy(m) == m;
    } else {
      var p :| p in m;
      BusySum(m - {p});
      SumRemove(m, p, totalOf);
      assert Busy(m - {p}) == Busy(m) - {p};
      if p in Busy(m) {
        SumRemove(Busy(m), p, totalOf);
      } else {
        assert Busy(m) - {p} == Busy(m);
      }
    }
  }

  lemma {:induction false} DropIdleInv(a: State)
    requires Inv(a) && NonePending(a)
    ensures Inv(DropIdle(a))
  {
    BusySum(a.peers);
    forall q | q in DropIdle(a).peers ensures PeerOK(DropIdle(a), a.peers[q]) {
      assert PeerOK(a, a.peers[q]);
    }
    forall q ensures PeerInOrder(DropIdle(a), q) {
      assert PeerInOrder(a, q);
    }
  }

  /** Draining keeps the accounts and the order, and ends when nothing more may be served. */
  lemma {:induction false} DrainInv(a: State)
    requires Inv(a)
    ensures Inv(Drain(a)) && Quiescent(Drain(a))
    ensures NonePending(Drain(a)) ==> forall p :: p in Drain(a).peers ==> Drain(a).peers[p].total > 0
    decreases Waiting(a)
  {
    if exists p :: Oldest(a, p) && Servable(a, p) {
      var p :| Oldest(a, p) && Servable(a, p) && Drain(a) == Drain(Grant(a, p));
      GrantInv(a, p);
      GrantWaiting(a, p);
      DrainInv(Grant(a, p));
    } else if NonePending(a) {
      DropIdleInv(a);
    }
  }

  /** The drain serves the one oldest fitting request, whichever way it is found. */
  lemma {:induction false} DrainServes(a: State, p: Peer)
    requires AgesDiffer(a) && Oldest(a, p) && Servable(a, p)
    ensures Drain(a) == Drain(Grant(a, p))
  {
  }

  // ------------------------------------------------------------------- runs

  datatype Op = DoAllocate(peer: Peer, amount: nat) | DoRelease(peer: Peer, amount: nat) | DoReleasePeer(peer: Peer)

  ghost function Apply(a: State, op: Op): State {
    match op
    case DoAllocate(p, amount) => Allocate(a, p, amount)
    case DoRelease(p, amount) => if p in a.peers then Drain(Released(a, p, amount)) else a
    case DoReleasePeer(p) => if p in a.peers then Drain(Forgotten(a, p)) else a
  }

  ghost function ApplyAll(a: State, ops: seq<Op>): State
    decreases |ops|
  {
    if ops == [] then a else ApplyAll(Apply(a, ops[0]), ops[1..])
  }

  lemma {:induction false} ApplyInv(a: State, op: Op)
    requires Inv(a) && Quiescent(a) && (op.DoAllocate? ==> Small(a, op.amount))
    ensures Inv(Apply(a, op)) && Quiescent(Apply(a, op))
  {
    match op {
      case DoAllocate(p, amount) => AllocateInv(a, p, amount);
      case DoRelease(p, amount) =>
        if p in a.peers {
          ReleasedInv(a, p, amount);
          DrainInv(Released(a, p, amount));
        }
      case DoReleasePeer(p) =>
        if p in a.peers {
          ForgottenInv(a, p);
          DrainInv(Forgotten(a, p));
        }
    }
  }

  lemma {:induction false} DrainKeepsLimits(a: State)
    ensures Drain(a).maxTotal == a.maxTotal && Drain(a).maxPerPeer == a.maxPerPeer
    decreases Waiting(a)
  {
    if exists p :: Oldest(a, p) && Servable(a, p) {
      var p :| Oldest(a, p) && Servable(a, p) && Drain(a) == Drain(Grant(a, p));
      GrantWaiting(a, p);
      DrainKeepsLimits(Grant(a, p));
    }
  }

  lemma {:induction false} ApplyKeepsLimits(a: State, op: Op)
    ensures Apply(a, op).maxTotal == a.maxTotal && Apply(a, op).maxPerPeer == a.maxPerPeer
  {
    match op {
      case DoAllocate(p, amount) =>
      case DoRelease(p, amount) =>
        if p in a.peers {
          DrainKeepsLimits(Released(a, p, amount));
        }
      case DoReleasePeer(p) =>
        if p in a.peers {
          DrainKeepsLimits(Forgotten(a, p));
        }
    }
  }

  /** After every run: the accounts balance, both limits hold, answers are in order, and nothing servable waits. */
  lemma {:induction false} EveryRunIsSafe(a: State, ops: seq<Op>)
    requires Inv(a) && Quiescent(a)
    requires forall i :: 0 <= i < |ops| && ops[i].DoAllocate? ==> Small(a, ops[i].amount)
    ensures Inv(ApplyAll(a, ops)) && Quiescent(ApplyAll(a, ops))
    decreases |ops|
  {
    if ops != [] {
      ApplyInv(a, ops[0]);
      ApplyKeepsLimits(a, ops[0]);
      EveryRunIsSafe(Apply(a, ops[0]), ops[1..]);
    }
  }

  ghost predicate Increasing(r: seq<nat>) {
    forall i, j :: 0 <= i < j < |r| ==> r[i] < r[j]
  }

  ghost predicate MadeBy(rs: seq<Request>, r: seq<nat>, p: Peer) {
    forall i :: 0 <= i < |r| ==> r[i] < |rs| && rs[r[i]].peer == p
  }

  lemma {:induction false} RequestedIsIncreasing(rs: seq<Request>, p: Peer)
    requires forall i :: 0 <= i < |rs| ==> rs[i].channel == i
    ensures MadeBy(rs, RequestedBy(rs, p), p) && Increasing(RequestedBy(rs, p))
    decreases |rs|
  {
    if rs != [] {
      var n := |rs| - 1;
      RequestedIsIncreasing(rs[..n], p);
      var r, r' := RequestedBy(rs, p), RequestedBy(rs[..n], p);
      assert MadeBy(rs[..n], r', p);
      forall i | 0 <= i < |r| ensures r[i] < |rs| && rs[r[i]].peer == p {
        if i < |r'| {
          assert r[i] == r'[i];
        }
      }
      forall i, j | 0 <= i < j < |r| ensures r[i] < r[j] {
        assert r[i] == r'[i] < n;
      }
    }
  }

  /** No channel is ever sent two answers, and only the channel's own peer is answered on it. */
  lemma {:induction false} AnsweredOnce(a: State, i: nat, j: nat)
    requires Inv(a) && i < j < |a.answers|
    ensures a.answers[i].channel != a.answers[j].channel
  {
    var x := AnsweredIsRequested(a, i);
    var y := AnsweredIsRequested(a, j);
    if a.answers[i].peer == a.answers[j].peer {
      AnsweredAtLater(a.answers, i, j, x, y);
      RequestedIsIncreasing(a.requests, a.answers[i].peer);
    }
  }

  lemma {:induction false} AnsweredIsRequested(a: State, i: nat) returns (k: nat)
    requires Inv(a) && i < |a.answers|
    ensures k == |AnsweredTo(a.answers[..i], a.answers[i].peer)| < |RequestedBy(a.requests, a.answers[i].peer)|
    ensures RequestedBy(a.requests, a.answers[i].peer)[k] == a.answers[i].channel
    ensures a.answers[i].channel < |a.requests| && a.requests[a.answers[i].channel].peer == a.answers[i].peer
  {
    assert PeerInOrder(a, a.answers[i].peer);
    k := AnsweredAt(a.answers, i);
    RequestedIsIncreasing(a.requests, a.answers[i].peer);
    assert RequestedBy(a.requests, a.answers[i].peer)[k] == a.answers[i].channel;
  }

  /** Where an answer sits among the answers to its peer: after all earlier ones to that peer. */
  lemma {:induction false} AnsweredAt(as_: seq<Answer>, i: nat) returns (k: nat)
    requires i < |as_|
    ensures k == |AnsweredTo(as_[..i], as_[i].peer)| < |AnsweredTo(as_, as_[i].peer)|
    ensures AnsweredTo(as_, as_[i].peer)[k] == as_[i].channel
    decreases |as_|
  {
    var n, p := |as_| - 1, as_[i].peer;
    if i < n {
      k := AnsweredAt(as_[..n], i);
      assert as_[..n][..i] == as_[..i];
    } else {
      k := |AnsweredTo(as_[..n], p)|;
    }
  }

  lemma {:induction false} AnsweredAtLater(as_: seq<Answer>, i: nat, j: nat, x: nat, y: nat)
    requires i < j < |as_| && as_[i].peer == as_[j].peer
    requires x == |AnsweredTo(as_[..i], as_[i].peer)| && y == |AnsweredTo(as_[..j], as_[j].peer)|
    ensures x < y
  {
    var p := as_[i].peer;
    var k := AnsweredAt(as_[..j], i);
    assert as_[..j][..i] == as_[..i];
  }

  // -------------------------------------------------------------- the allocator

  /**
    The allocator object.  Its methods are the operations of the state above, so every run
    of it is one of the runs proved safe there.  The peer queue is kept as the set of its members; Peek gives a
    member with none before it, which the heap guarantees only while every change of a
    member's key has been followed by Update.
   */
  class Allocator {
    const maxTotal: nat
    const maxPerPeer: nat
    var total: nat
    var nextIndex: nat
    var peers: map<Peer, Status>
    var queue: set<Peer>
    ghost var stale: set<Peer>  // members whose key changed since the last Update
    ghost var requests: seq<Request>
    var answers: seq<Answer>    // what was sent on the response channels
    var nextChannel: nat

    ghost function Abs(): State
      reads this
    {
      State(maxTotal, maxPerPeer, total, nextIndex, peers, requests, answers)
    }

    ghost predicate Valid()
      reads this
    {
      queue == peers.Keys && stale == {} && nextChannel == |requests|
    }

    constructor (maxAllowedTotal: nat, maxAllowedPerPeer: nat)
      requires maxAllowedTotal < U64 && maxAllowedPerPeer < U64
      ensures Valid() && Inv(Abs()) && Quiescent(Abs()) && Abs() == Init(maxAllowedTotal, maxAllowedPerPeer)
    {
      maxTotal, maxPerPeer, total, nextIndex := maxAllowedTotal, maxAllowedPerPeer, 0, 0;
      peers, queue, answers, nextChannel := map[], {}, [], 0;
      stale, requests := {}, [];
      InitInv(maxAllowedTotal, maxAllowedPerPeer);
    }

    method AllocatedForPeer(p: Peer) returns (r: nat)
      ensures r == StatusOf(Abs(), p).total
    {
      r := if p in peers then peers[p].total else 0;
    }

    /** Change a queued peer's status; its place in the queue is then out of date. */
    method SetStatus(p: Peer, s: Status)
      modifies this`peers, this`stale
      ensures peers == old(peers)[p := s] && stale == old(stale) + {p}
    {
      peers := peers[p := s];
      stale := stale + {p};
    }

    method Update(p: Peer)
      modifies this`stale
      ensures stale == old(stale) - {p}
    {
      stale := stale - {p};
    }

    method Peek() returns (p: Peer)
      requires queue != {} && queue == peers.Keys && stale == {}
      ensures p in queue && forall q :: q in queue ==> !Less(peers[q], peers[p], maxPerPeer)
    {
      ghost var w := MinimalExists(queue, peers, maxPerPeer);
      p :| p in queue && forall q :: q in queue ==> !Less(peers[q], peers[p], maxPerPeer);
    }

    /** The channel of the request; an answer is on it at once or comes later. */
    method AllocateBlockMemory(p: Peer, amount: nat) returns (channel: nat)
      requires Valid()
      modifies this
      ensures Valid()
      ensures channel == |old(requests)| && Abs() == Allocate(old(Abs()), p, amount)
    {
      channel := nextChannel;
      nextChannel, requests := nextChannel + 1, requests + [Request(p, channel)];
      var status := Status(0, []);
      if p in peers {
        status := peers[p];
      } else {
        queue := queue + {p};
      }
      if Add(total, amount) <= maxTotal && Add(status.total, amount) <= maxPerPeer && |status.pending| == 0 {
        total := Add(total, amount);
        SetStatus(p, status.(total := Add(status.total, amount)));
        answers := answers + [Answer(p, channel, true)];
      } else {
        SetStatus(p, status.(pending := status.pending + [Pending(amount, channel, nextIndex)]));
        nextIndex := nextIndex + 1;
      }
      Update(p);
    }

    method ReleaseBlockMemory(p: Peer, amount: nat) returns (ok: bool)
      requires Valid() && AgesDiffer(Abs())
      modifies this
      ensures Valid()
      ensures ok == (p in old(peers)) && Abs() == Apply(old(Abs()), DoRelease(p, amount))
    {
      if p !in peers {
        return false;
      }
      TakeBack(p, amount);
      Update(p);
      assert forall q :: q in peers ==> peers[q].pending == old(peers)[q].pending;
      ProcessPendingAllocations();
      return true;
    }

    method TakeBack(p: Peer, amount: nat)
      requires p in peers
      modifies this`total, this`peers, this`stale
      ensures Abs() == Released(old(Abs()), p, amount) && stale == old(stale) + {p}
    {
      var status, freed := peers[p], amount;
      if status.total >= amount {
        SetStatus(p, status.(total := status.total - amount));
      } else {
        freed := status.total;
        SetStatus(p, status.(total := 0));
      }
      if total >= freed {
        total := total - freed;
      } else {
        total := 0;
      }
    }

    method ReleasePeerMemory(p: Peer) returns (ok: bool)
      requires Valid() && AgesDiffer(Abs())
      modifies this
      ensures Valid()
      ensures ok == (p in old(peers)) && Abs() == Apply(old(Abs()), DoReleasePeer(p))
    {
      if p !in peers {
        return false;
      }
      Forget(p);
      ProcessPendingAllocations();
      return true;
    }

    method Forget(p: Peer)
      requires p in peers
      modifies this`total, this`peers, this`queue, this`answers
      ensures Abs() == Forgotten(old(Abs()), p) && queue == old(queue) - {p}
    {
      var status := peers[p];
      queue, peers := queue - {p}, peers - {p};
      FailPending(p, status.pending);
      if total >= status.total {
        total := total - status.total;
      } else {
        total := 0;
      }
    }

    method FailPending(p: Peer, pending: seq<Pending>)
      modifies this`answers
      ensures answers == old(answers) + Failures(p, pending)
    {
      for i := 0 to |pending|
        invariant answers == old(answers) + Failures(p, pending)[..i]
      {
        answers := answers + [Answer(p, pending[i].channel, false)];
      }
    }

    method ProcessPendingAllocations()
      requires Valid() && AgesDiffer(Abs())
      modifies this
      ensures Valid() && Abs() == Drain(old(Abs())) && nextChannel == old(nextChannel)
    {
      var more := queue != {};
      if !more {
        DrainEmpty(Abs());
      }
      while more
        invariant Valid() && AgesDiffer(Abs()) && Drain(Abs()) == Drain(old(Abs()))
        invariant if more then queue != {} else Drain(Abs()) == Abs()
        invariant nextChannel == old(nextChannel)
        decreases more, Waiting(Abs()) + |queue|
      {
        more := ProcessPeek();
      }
    }

    /** One round of the loop; false when there is nothing left to do. */
    method ProcessPeek() returns (more: bool)
      requires Valid() && AgesDiffer(Abs()) && queue != {}
      modifies this`total, this`peers, this`queue, this`stale, this`answers
      ensures Valid() && AgesDiffer(Abs()) && Drain(Abs()) == Drain(old(Abs()))
      ensures more ==> queue != {} && Waiting(Abs()) + |queue| < old(Waiting(Abs()) + |queue|)
      ensures !more ==> Drain(Abs()) == Abs()
    {
      var nextPeer := Peek();
      if |peers[nextPeer].pending| > 0 {
        more := ServePeer(nextPeer);
      } else {
        PeekIdle(Abs(), nextPeer);
        if peers[nextPeer].total > 0 {
          return false;
        }
        RemoveIdle(Abs(), nextPeer);
        more := PopIdle(nextPeer);
      }
    }

    method ServePeer(p: Peer) returns (more: bool)
      requires Valid() && AgesDiffer(Abs()) && HasPending(Abs(), p)
      requires forall q :: q in queue ==> !Less(peers[q], peers[p], maxPerPeer)
      modifies this`total, this`peers, this`stale, this`answers
      ensures Valid() && AgesDiffer(Abs()) && Drain(Abs()) == Drain(old(Abs()))
      ensures more ==> Waiting(Abs()) < old(Waiting(Abs()))
      ensures !more ==> Drain(Abs()) == Abs()
    {
      PeekGrants(Abs(), p);
      more := GrantPeer(p);
    }

    /** The head request is granted if it fits, and the queue is told. */
    method GrantPeer(p: Peer) returns (more: bool)
      requires Valid() && HasPending(Abs(), p)
      modifies this`total, this`peers, this`stale, this`answers
      ensures more == (Servable(old(Abs()), p) && Fitting(old(Abs()), p))
      ensures Valid() && Abs() == if more then Grant(old(Abs()), p) else old(Abs())
    {
      more := ProcessNextPendingAllocationForPeer(p);
      if more {
        Update(p);
      }
    }

    method PopIdle(p: Peer) returns (more: bool)
      requires Valid() && p in queue
      modifies this`peers, this`queue
      ensures Valid() && Abs() == old(Abs()).(peers := old(peers) - {p})
      ensures |queue| < old(|queue|) && more == (queue != {})
      ensures !more ==> Drain(Abs()) == Abs()
    {
      ghost var q := queue;
      queue, peers := queue - {p}, peers - {p};
      assert q == queue + {p};
      more := queue != {};
      if !more {
        DrainEmpty(Abs());
      }
    }

    method ProcessNextPendingAllocationForPeer(p: Peer) returns (ok: bool)
      requires HasPending(Abs(), p)
      modifies this`total, this`peers, this`stale, this`answers
      ensures ok == (Servable(old(Abs()), p) && Fitting(old(Abs()), p))
      ensures if ok then Abs() == Grant(old(Abs()), p) && stale == old(stale) + {p}
              else Abs() == old(Abs()) && stale == old(stale)
    {
      var status := peers[p];
      var r := status.pending[0];
      if Add(total, r.amount) > maxTotal {
        return false;
      }
      if Add(status.total, r.amount) > maxPerPeer {
        return false;
      }
      total := Add(total, r.amount);
      SetStatus(p, Status(Add(status.total, r.amount), status.pending[1..]));
      answers := answers + [Answer(p, r.channel, true)];
      return true;
    }
  }

  /** A peer with none before it that has a request waiting: it is the one to serve, or nobody is. */
  lemma {:induction false} PeekPending(a: State, p: Peer)
    requires AgesDiffer(a) && HasPending(a, p) && forall q :: q in a.peers ==>
             !Less(a.peers[q], a.peers[p], a.maxPerPeer)
    ensures Fitting(a, p) && Servable(a, p) ==> Drain(a) == Drain(Grant(a, p))
    ensures !(Fitting(a, p) && Servable(a, p)) ==> Drain(a) == a
  {
  }

  /** One round for a peer with none before it: a grant is a step of the drain, and no grant means that it is over. */
  lemma {:induction false} PeekGrants(a: State, p: Peer)
    requires AgesDiffer(a) && HasPending(a, p) && forall q :: q in a.peers ==>
             !Less(a.peers[q], a.peers[p], a.maxPerPeer)
    ensures Fitting(a, p) && Servable(a, p) ==>
              AgesDiffer(Grant(a, p)) && Drain(Grant(a, p)) == Drain(a) && Waiting(Grant(a, p)) < Waiting(a)
    ensures !(Fitting(a, p) && Servable(a, p)) ==> Drain(a) == a
  {
    PeekPending(a, p);
    GrantWaiting(a, p);
    GrantAges(a, p);
  }

  /** A peer with none before it that has nothing waiting: nobody has, and it holds the least. */
  lemma {:induction false} PeekIdle(a: State, p: Peer)
    requires p in a.peers && a.peers[p].pending == [] && forall q :: q in a.peers ==>
             !Less(a.peers[q], a.peers[p], a.maxPerPeer)
    ensures NonePending(a) && Drain(a) == DropIdle(a)
    ensures a.peers[p].total > 0 ==> Drain(a) == a
  {
  }

  lemma {:induction false} GrantAges(a: State, p: Peer)
    requires AgesDiffer(a) && HasPending(a, p)
    ensures AgesDiffer(Grant(a, p))
  {
  }

  lemma {:induction false} RemoveIdle(a: State, p: Peer)
    requires AgesDiffer(a) && NonePending(a) && p in a.peers && a.peers[p] == Status(0, []) && Drain(a) == DropIdle(a)
    ensures var a' := a.(peers := a.peers - {p}); AgesDiffer(a') && Drain(a') == Drain(a) && Waiting(a') == Waiting(a)
  {
    var a' := a.(peers := a.peers - {p});
    SumRemove(a.peers, p, waitingOf);
    assert NonePending(a') && Busy(a'.peers) == Busy(a.peers);
  }

  lemma {:induction false} DrainEmpty(a: State)
    requires a.peers == map[]
    ensures Drain(a) == a
  {
  }
}
