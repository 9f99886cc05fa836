/**
  The allocator and the message queues together: in every run, send errors and scrubs
  included, the block bytes that are queued, in flight or granted but not yet queued are
  covered by the memory that the allocator has given out.
 */
module OutgoingMemory {
  import opened Core
  import opened Sums
  import A = Allocator
  import opened MessageBuilders
  import opened MessageQueues

  /** A transaction that has asked for memory and has not been built. */
  datatype Pending = Pending(peer: Peer, channel: nat, id: RequestId, ops: seq<Op>)

  /**
    What the loop of a peer's queue is doing.  After a failed send it scrubs the queue, gives
    back what the scrub reports, reports the error and gives back the message; other threads
    run between any two of these.
   */
  datatype Stage =
    | Resting
    | Transmitting(m: Message)
    | Scrubbed(m: Message, freed: nat)
    | Failing(m: Message)
    | GivingBack(bytes: nat)

  /** A peer's queue, what its loop is doing, and the topics taken off and reported so far. */
  datatype PeerQueue = PeerQueue(queue: Queue, stage: Stage, taken: seq<nat>, reported: seq<Event>)

  datatype System = System(alloc: A.State, waiting: map<nat, Pending>, queues: map<Peer, PeerQueue>)

  const NO_QUEUE := PeerQueue(Queue([], 0), Resting, [], [])

  function QueueOf(s: System, p: Peer): PeerQueue {
    if p in s.queues then s.queues[p] else NO_QUEUE
  }

  datatype Step =
    | Ask(peer: Peer, id: RequestId, ops: seq<Op>)
    | Build(channel: nat, closed: bool)
    | BuildFree(peer: Peer, id: RequestId, ops: seq<Op>, closed: bool)
    | TakeOff(peer: Peer)
    | ReportSent(peer: Peer)
    | ScrubQueue(peer: Peer)
    | GiveBackFreed(peer: Peer)
    | ReportFailed(peer: Peer)
    | GiveBackMessage(peer: Peer)

  predicate Granted(a: A.State, w: Pending) {
    A.Answer(w.peer, w.channel, true) in a.answers
  }

  ghost predicate Enabled(s: System, step: Step) {
    match step
    case Ask(p, id, ops) => OpsOK(ops) && TxSize(ops) > 0 && A.Small(s.alloc, TxSize(ops))
    case Build(c, closed) => c in s.waiting && Granted(s.alloc, s.waiting[c])
    case BuildFree(p, id, ops, closed) => OpsOK(ops) && TxSize(ops) == 0
    case TakeOff(p) => QueueOf(s, p).stage.Resting?
    case ReportSent(p) => QueueOf(s, p).stage.Transmitting?
    case ScrubQueue(p) => QueueOf(s, p).stage.Transmitting?
    case GiveBackFreed(p) => QueueOf(s, p).stage.Scrubbed?
    case ReportFailed(p) => QueueOf(s, p).stage.Failing?
    case GiveBackMessage(p) => QueueOf(s, p).stage.GivingBack?
  }

  ghost predicate WellFormed(s: System) {
    forall c :: c in s.waiting ==> OpsOK(s.waiting[c].ops) && s.waiting[c].channel == c
  }

  function AddTx(s: System, p: Peer, id: RequestId, ops: seq<Op>, closed: bool): System
    requires OpsOK(ops)
  {
    Put(s, p, WithTx(QueueOf(s, p), id, ops, closed))
  }

  function WithTx(pq: PeerQueue, id: RequestId, ops: seq<Op>, closed: bool): PeerQueue
    requires OpsOK(ops)
  {
    pq.(queue := BuildMessage(pq.queue, id, ops, closed))
  }

  ghost function Next(s: System, step: Step): System
    requires Enabled(s, step) && WellFormed(s)
  {
    match step
    case Ask(p, id, ops) =>
      var c := |s.alloc.requests|;
      s.(alloc := A.Allocate(s.alloc, p, TxSize(ops)), waiting := s.waiting[c := Pending(p, c, id, ops)])
    case Build(c, closed) =>
      var w := s.waiting[c];
      AddTx(s.(waiting := s.waiting - {c}), w.peer, w.id, w.ops, closed)
    case BuildFree(p, id, ops, closed) => AddTx(s, p, id, ops, closed)
    case TakeOff(p) => Put(s, p, TakenOff(QueueOf(s, p)))
    case ReportSent(p) => Put(s, p, Reported(QueueOf(s, p), Sent(QueueOf(s, p).stage.m.topic)))
    case ScrubQueue(p) => Put(s, p, AfterScrub(QueueOf(s, p)))
    case GiveBackFreed(p) =>
      var pq := QueueOf(s, p);
      Put(if pq.stage.freed > 0 then GiveBack(s, p, pq.stage.freed) else s, p, pq.(stage := Failing(pq.stage.m)))
    case ReportFailed(p) => Put(s, p, Reported(QueueOf(s, p), Failed(QueueOf(s, p).stage.m.topic)))
    case GiveBackMessage(p) => Put(GiveBack(s, p, QueueOf(s, p).stage.bytes), p, QueueOf(s, p).(stage := Resting))
  }

  function Put(s: System, p: Peer, pq: PeerQueue): System {
    s.(queues := s.queues[p := pq])
  }

  ghost function GiveBack(s: System, p: Peer, amount: nat): System {
    s.(alloc := A.Apply(s.alloc, A.DoRelease(p, amount)))
  }

  function TakenOff(pq: PeerQueue): PeerQueue {
    var (q, m) := Extract(pq.queue);
    if m.Some? then pq.(queue := q, stage := Transmitting(m.value), taken := pq.taken + [m.value.topic])
      else pq.(queue := q)
  }

  function Reported(pq: PeerQueue, e: Event): PeerQueue
    requires pq.stage.Transmitting? || pq.stage.Failing?
  {
    pq.(stage := GivingBack(pq.stage.m.contents.blkSize), reported := pq.reported + [e])
  }

  /** The queue with the responses of the failed message's streams taken out. */
  ghost function AfterScrub(pq: PeerQueue): PeerQueue
    requires pq.stage.Transmitting?
  {
    var m, ms := pq.stage.m, pq.queue.builders;
    var freed := ReportedFreed(ms, m.streams);
    pq.(queue := pq.queue.(builders := ScrubBuilders(ms, m.streams)),
      stage := Scrubbed(m, if freed > 0 then freed else 0))
  }

  // ------------------------------------------------------------------- amounts

  function PendingBytes(ps: seq<A.Pending>): nat {
    if ps == [] then 0 else PendingBytes(ps[..|ps| - 1]) + ps[|ps| - 1].amount
  }

  /** What a peer holds and has asked for. */
  ghost function Claim(a: A.State, p: Peer): nat {
    A.StatusOf(a, p).total + PendingBytes(A.StatusOf(a, p).pending)
  }

  function AskedBy(p: Peer): Pending -> nat {
    (w: Pending) => if w.peer == p then TxSize(w.ops) else 0
  }

  function GrantedTo(a: A.State, p: Peer): Pending -> nat {
    (w: Pending) => if w.peer == p && Granted(a, w) then TxSize(w.ops) else 0
  }

  /** What is off the queue and not yet given back. */
  function Flying(pq: PeerQueue): nat {
    match pq.stage
    case Resting => 0
    case Transmitting(m) => m.contents.blkSize
    case Scrubbed(m, freed) => m.contents.blkSize + freed
    case Failing(m) => m.contents.blkSize
    case GivingBack(bytes) => bytes
  }

  /** The message that is taken off and not reported. */
  function InFlight(pq: PeerQueue): Option<Message> {
    match pq.stage
    case Transmitting(m) => Some(m)
    case Scrubbed(m, _) => Some(m)
    case Failing(m) => Some(m)
    case _ => None
  }

  function Held(pq: PeerQueue): nat {
    QueuedBytes(pq.queue.builders) + Flying(pq)
  }

  // ---------------------------------------------------------------- invariants

  /** Every request that waits in the allocator belongs to a transaction of that size. */
  ghost predicate Matched(s: System) {
    && (forall c :: c in s.waiting ==> c < |s.alloc.requests|)
    && forall p :: p in s.alloc.peers ==> PeerMatched(s.waiting, p, s.alloc.peers[p].pending)
  }

  ghost predicate PeerMatched(waiting: map<nat, Pending>, p: Peer, ps: seq<A.Pending>) {
    forall i :: 0 <= i < |ps| ==>
      ps[i].channel in waiting && waiting[ps[i].channel].peer == p && TxSize(waiting[ps[i].channel].ops) == ps[i].amount
  }

  ghost predicate PeerCovered(s: System, p: Peer) {
    Held(QueueOf(s, p)) + Sum(s.waiting, AskedBy(p)) <= Claim(s.alloc, p)
  }

  /** Everything taken off the queue is reported exactly once, in order, but for the message in flight. */
  ghost predicate ReportedOnce(pq: PeerQueue) {
    && |pq.taken| == |pq.reported| + (if InFlight(pq).Some? then 1 else 0)
    && (forall i :: 0 <= i < |pq.reported| ==> pq.reported[i].topic == pq.taken[i])
    && (InFlight(pq).Some? ==> pq.taken[|pq.taken| - 1] == InFlight(pq).value.topic)
  }

  ghost predicate QueueOK(pq: PeerQueue) {
    AllSized(pq.queue.builders) && ReportedOnce(pq)
  }

  ghost predicate Inv(s: System) {
    && A.Inv(s.alloc) && A.Quiescent(s.alloc)
    && WellFormed(s) && Matched(s)
    && (forall p :: PeerCovered(s, p))
    && (forall p :: QueueOK(QueueOf(s, p)))
  }

  // --------------------------------------------------- what the allocator does

  lemma {:induction false} PendingHead(ps: seq<A.Pending>)
    requires ps != []
    ensures PendingBytes(ps) == ps[0].amount + PendingBytes(ps[1..])
    decreases |ps|
  {
    if |ps| > 1 {
      PendingHead(ps[..|ps| - 1]);
      assert ps[..|ps| - 1][1..] == ps[1..][..|ps| - 2];
    } else {
      assert ps[..0] == [] && ps[1..] == [];
    }
  }

  lemma {:induction false} AllocateClaim(a: A.State, p: Peer, amount: nat, q: Peer)
    requires A.Accounted(a) && A.Small(a, amount)
    ensures Claim(A.Allocate(a, p, amount), q) == Claim(a, q) + if q == p then amount else 0
  {
  }

  lemma {:induction false} GrantClaim(a: A.State, p: Peer, q: Peer)
    requires A.Accounted(a) && A.Fitting(a, p)
    ensures Claim(A.Grant(a, p), q) == Claim(a, q)
  {
    assert A.PeerOK(a, a.peers[p]);
    PendingHead(a.peers[p].pending);
  }

  ghost predicate PendingWithin(a': A.State, a: A.State) {
    forall p, r :: p in a'.peers && r in a'.peers[p].pending ==> r in A.StatusOf(a, p).pending
  }

  /** Draining moves claims from asked to held, and only takes requests off. */
  lemma {:induction false} DrainClaim(a: A.State)
    requires A.Inv(a)
    ensures forall q :: Claim(A.Drain(a), q) == Claim(a, q)
    ensures PendingWithin(A.Drain(a), a) && A.Drain(a).requests == a.requests
    decreases A.Waiting(a)
  {
    if exists p :: A.Oldest(a, p) && A.Servable(a, p) {
      var p :| A.Oldest(a, p) && A.Servable(a, p) && A.Drain(a) == A.Drain(A.Grant(a, p));
      A.GrantInv(a, p);
      A.GrantWaiting(a, p);
      DrainClaim(A.Grant(a, p));
      forall q ensures Claim(A.Drain(a), q) == Claim(a, q) {
        GrantClaim(a, p, q);
      }
      GrantWithin(a, p);
      WithinTrans(A.Drain(a), A.Grant(a, p), a);
    }
  }

  lemma GrantWithin(a: A.State, p: Peer)
    requires A.HasPending(a, p)
    ensures PendingWithin(A.Grant(a, p), a)
  {
  }

  lemma {:induction false} WithinTrans(x: A.State, y: A.State, z: A.State)
    requires PendingWithin(x, y) && PendingWithin(y, z)
    ensures PendingWithin(x, z)
  {
  }

  /** A release lowers the peer's claim by at most the amount, and nobody else's. */
  lemma {:induction false} ReleaseClaim(a: A.State, p: Peer, amount: nat)
    requires A.Inv(a)
    ensures var a' := A.Apply(a, A.DoRelease(p, amount));
            && Claim(a', p) + amount >= Claim(a, p)
            && (forall q :: q != p ==> Claim(a', q) == Claim(a, q))
            && PendingWithin(a', a) && a'.requests == a.requests
  {
    if p in a.peers {
      A.ReleasedInv(a, p, amount);
      DrainClaim(A.Released(a, p, amount));
    }
  }

  lemma {:induction false} WithinMatched(a': A.State, a: A.State, waiting: map<nat, Pending>)
    requires PendingWithin(a', a) && forall p :: p in a.peers ==> PeerMatched(waiting, p, a.peers[p].pending)
    ensures forall p :: p in a'.peers ==> PeerMatched(waiting, p, a'.peers[p].pending)
  {
    forall p | p in a'.peers ensures PeerMatched(waiting, p, a'.peers[p].pending) {
      var ps, qs := a'.peers[p].pending, A.StatusOf(a, p).pending;
      forall i | 0 <= i < |ps|
        ensures ps[i].channel in waiting && waiting[ps[i].channel].peer == p
                && TxSize(waiting[ps[i].channel].ops) == ps[i].amount
      {
        assert ps[i] in ps;
        var j :| 0 <= j < |qs| && qs[j] == ps[i];
        assert PeerMatched(waiting, p, qs);
      }
    }
  }

  /** A request that was answered is not waiting any more. */
  lemma {:induction false} GrantedIsNotPending(a: A.State, w: Pending, p: Peer, i: nat)
    requires A.Inv(a) && Granted(a, w) && p in a.peers && i < |a.peers[p].pending|
    ensures a.peers[p].pending[i].channel != w.channel
  {
    var j :| 0 <= j < |a.answers| && a.answers[j] == A.Answer(w.peer, w.channel, true);
    var k := A.AnsweredIsRequested(a, j);
    var n := A.AnsweredAt(a.answers, j);
    assert A.PeerInOrder(a, p);
    A.RequestedIsIncreasing(a.requests, p);
    var sent, chans := A.AnsweredTo(a.answers, p), A.Channels(a.peers[p].pending);
    assert A.RequestedBy(a.requests, p)[|sent| + i] == chans[i];
    if p == w.peer {
      assert A.RequestedBy(a.requests, p)[n] == w.channel;
    }
  }

  // ------------------------------------------------------------ each step keeps it

  lemma {:induction false} AskMatched(s: System, step: Step)
    requires Inv(s) && step.Ask? && Enabled(s, step)
    ensures WellFormed(Next(s, step)) && Matched(Next(s, step))
  {
    var c, s' := |s.alloc.requests|, Next(s, step);
    forall p | p in s'.alloc.peers ensures PeerMatched(s'.waiting, p, s'.alloc.peers[p].pending) {
      var was := A.StatusOf(s.alloc, p).pending;
      assert PeerMatched(s.waiting, p, was);
      assert forall i :: 0 <= i < |was| ==> was[i].channel in s.waiting && was[i].channel != c;
    }
  }

  lemma {:induction false} AskCovered(s: System, p: Peer, w: Pending, q: Peer)
    requires PeerCovered(s, q) && A.Accounted(s.alloc) && A.Small(s.alloc, TxSize(w.ops)) && w.peer == p
             && w.channel !in s.waiting
    ensures PeerCovered(s.(alloc := A.Allocate(s.alloc, p, TxSize(w.ops)), waiting := s.waiting[w.channel := w]), q)
  {
    AllocateClaim(s.alloc, p, TxSize(w.ops), q);
    SumUpdate(s.waiting, w.channel, w, AskedBy(q));
  }

  lemma {:induction false} AskKeeps(s: System, step: Step)
    requires Inv(s) && step.Ask? && Enabled(s, step)
    ensures Inv(Next(s, step))
  {
    var p, size, c, s' := step.peer, TxSize(step.ops), |s.alloc.requests|, Next(s, step);
    A.AllocateInv(s.alloc, p, size);
    AskMatched(s, step);
    forall q ensures PeerCovered(s', q) {
      assert PeerCovered(s, q);
      AskCovered(s, p, Pending(p, c, step.id, step.ops), q);
    }
    forall q ensures QueueOK(QueueOf(s', q)) {
      assert QueueOK(QueueOf(s, q));
    }
  }

  lemma {:induction false} QueuedReplaceLast(ms: seq<Message>, m: Message)
    requires ms != []
    ensures QueuedBytes(ms[|ms| - 1 := m]) == QueuedBytes(ms) - ms[|ms| - 1].contents.blkSize + m.contents.blkSize
  {
  }

  /** A transaction adds at most its size to the queue. */
  lemma {:induction false} BuildGrows(q: Queue, id: RequestId, ops: seq<Op>, closed: bool)
    requires AllSized(q.builders) && OpsOK(ops)
    ensures AllSized(BuildMessage(q, id, ops, closed).builders)
    ensures QueuedBytes(BuildMessage(q, id, ops, closed).builders) <= QueuedBytes(q.builders) + TxSize(ops)
  {
    var t := Target(q, TxSize(ops));
    TargetSized(q, TxSize(ops));
    assert Sized(Last(t).contents);
    BuildAllFacts(Last(t).contents, ops, id);
    QueuedReplaceLast(t.builders, WithOps(Last(t), id, ops));
  }

  lemma {:induction false} TargetSized(q: Queue, size: nat)
    requires AllSized(q.builders)
    ensures AllSized(Target(q, size).builders) && QueuedBytes(Target(q, size).builders) == QueuedBytes(q.builders)
  {
  }

  /** A peer's queue grows by at most what leaves the waiting sum. */
  lemma {:induction false} GrowKeeps(s: System, s0: System, p: Peer, pq: PeerQueue, size: nat)
    requires Inv(s) && s0.alloc == s.alloc && s0.queues == s.queues && WellFormed(s0) && Matched(s0)
    requires QueueOK(pq) && Held(pq) <= Held(QueueOf(s, p)) + size
    requires forall q :: Sum(s0.waiting, AskedBy(q)) + (if q == p then size else 0) == Sum(s.waiting, AskedBy(q))
    ensures Inv(Put(s0, p, pq))
  {
    var s' := Put(s0, p, pq);
    forall q ensures PeerCovered(s', q) && QueueOK(QueueOf(s', q)) {
      assert PeerCovered(s, q) && QueueOK(QueueOf(s, q));
      assert q != p ==> QueueOf(s', q) == QueueOf(s, q);
    }
  }

  /** A transaction adds at most its size to a peer's queue. */
  lemma {:induction false} TxHolds(pq: PeerQueue, id: RequestId, ops: seq<Op>, closed: bool)
    requires QueueOK(pq) && OpsOK(ops)
    ensures QueueOK(WithTx(pq, id, ops, closed)) && Held(WithTx(pq, id, ops, closed)) <= Held(pq) + TxSize(ops)
  {
    BuildGrows(pq.queue, id, ops, closed);
  }

  lemma {:induction false} BuildKeeps(s: System, step: Step)
    requires Inv(s) && step.Build? && Enabled(s, step)
    ensures Inv(Next(s, step))
  {
    var c := step.channel;
    var w, s0 := s.waiting[c], s.(waiting := s.waiting - {c});
    forall p | p in s.alloc.peers ensures PeerMatched(s0.waiting, p, s.alloc.peers[p].pending) {
      assert PeerMatched(s.waiting, p, s.alloc.peers[p].pending);
      forall i | 0 <= i < |s.alloc.peers[p].pending| ensures s.alloc.peers[p].pending[i].channel != c {
        GrantedIsNotPending(s.alloc, w, p, i);
      }
    }
    forall q ensures Sum(s0.waiting, AskedBy(q)) + (if q == w.peer then TxSize(w.ops) else 0) ==
      Sum(s.waiting, AskedBy(q)) {
      SumRemove(s.waiting, c, AskedBy(q));
    }
    var pq := QueueOf(s, w.peer);
    assert QueueOK(pq);
    TxHolds(pq, w.id, w.ops, step.closed);
    GrowKeeps(s, s0, w.peer, WithTx(pq, w.id, w.ops, step.closed), TxSize(w.ops));
  }

  lemma {:induction false} BuildFreeKeeps(s: System, step: Step)
    requires Inv(s) && step.BuildFree? && Enabled(s, step)
    ensures Inv(Next(s, step))
  {
    var pq := QueueOf(s, step.peer);
    assert QueueOK(pq);
    TxHolds(pq, step.id, step.ops, step.closed);
    GrowKeeps(s, s, step.peer, WithTx(pq, step.id, step.ops, step.closed), TxSize(step.ops));
  }

  lemma {:induction false} QueuedHead(ms: seq<Message>)
    requires ms != []
    ensures QueuedBytes(ms) == ms[0].contents.blkSize + QueuedBytes(ms[1..])
    decreases |ms|
  {
    if |ms| > 1 {
      QueuedHead(ms[..|ms| - 1]);
      assert ms[..|ms| - 1][1..] == ms[1..][..|ms| - 2];
    } else {
      assert ms[..0] == [] && ms[1..] == [];
    }
  }

  lemma {:induction false} TakeOffHolds(pq: PeerQueue)
    requires QueueOK(pq) && pq.stage.Resting?
    ensures QueueOK(TakenOff(pq)) && Held(TakenOff(pq)) <= Held(pq)
  {
    if pq.queue.builders != [] {
      QueuedHead(pq.queue.builders);
    }
  }

  lemma {:induction false} ScrubHolds(pq: PeerQueue)
    requires QueueOK(pq) && pq.stage.Transmitting?
    ensures QueueOK(AfterScrub(pq)) && Held(AfterScrub(pq)) <= Held(pq)
  {
    ScrubShrinks(pq.queue.builders, pq.stage.m.streams);
    ScrubFreesReported(pq.queue.builders, pq.stage.m.streams);
  }

  /** A peer's queue that holds no more than before. */
  lemma {:induction false} PutKeeps(s: System, p: Peer, pq: PeerQueue)
    requires Inv(s) && QueueOK(pq) && Held(pq) <= Held(QueueOf(s, p))
    ensures Inv(Put(s, p, pq))
  {
    GrowKeeps(s, s, p, pq, 0);
  }

  /** A peer gives back what its queue no longer holds. */
  lemma {:induction false} GiveBackKeeps(s: System, p: Peer, amount: nat, pq: PeerQueue)
    requires Inv(s) && QueueOK(pq) && Held(pq) + amount <= Held(QueueOf(s, p))
    ensures Inv(Put(GiveBack(s, p, amount), p, pq))
  {
    var s' := Put(GiveBack(s, p, amount), p, pq);
    A.ApplyInv(s.alloc, A.DoRelease(p, amount));
    ReleaseClaim(s.alloc, p, amount);
    WithinMatched(s'.alloc, s.alloc, s.waiting);
    forall q ensures PeerCovered(s', q) && QueueOK(QueueOf(s', q)) {
      assert PeerCovered(s, q) && QueueOK(QueueOf(s, q));
      assert q != p ==> QueueOf(s', q) == QueueOf(s, q);
    }
  }

  /** Each step of the loop on its own queue. */
  lemma {:induction false} LoopKeeps(s: System, step: Step)
    requires Inv(s) && Enabled(s, step) && !step.Ask? && !step.Build? && !step.BuildFree?
    ensures Inv(Next(s, step))
  {
    var p := step.peer;
    var pq := QueueOf(s, p);
    assert QueueOK(pq);
    match step {
      case TakeOff(_) =>
        TakeOffHolds(pq);
        PutKeeps(s, p, TakenOff(pq));
      case ReportSent(_) => PutKeeps(s, p, Reported(pq, Sent(pq.stage.m.topic)));
      case ScrubQueue(_) =>
        ScrubHolds(pq);
        PutKeeps(s, p, AfterScrub(pq));
      case GiveBackFreed(_) =>
        var next := pq.(stage := Failing(pq.stage.m));
        if pq.stage.freed > 0 {
          GiveBackKeeps(s, p, pq.stage.freed, next);
        } else {
          PutKeeps(s, p, next);
        }
      case ReportFailed(_) => PutKeeps(s, p, Reported(pq, Failed(pq.stage.m.topic)));
      case GiveBackMessage(_) => GiveBackKeeps(s, p, pq.stage.bytes, pq.(stage := Resting));
    }
  }

  lemma {:induction false} NextKeeps(s: System, step: Step)
    requires Inv(s) && Enabled(s, step)
    ensures Inv(Next(s, step))
  {
    match step {
      case Ask(_, _, _) => AskKeeps(s, step);
      case Build(_, _) => BuildKeeps(s, step);
      case BuildFree(_, _, _, _) => BuildFreeKeeps(s, step);
      case _ => LoopKeeps(s, step);
    }
  }

  // -------------------------------------------------------------- main results

  ghost predicate IsRun(states: seq<System>, steps: seq<Step>) {
    && |states| == |steps| + 1
    && forall i :: 0 <= i < |steps| ==>
         WellFormed(states[i]) && Enabled(states[i], steps[i]) && states[i + 1] == Next(states[i], steps[i])
  }

  function Start(maxTotal: nat, maxPerPeer: nat): System {
    System(A.Init(maxTotal, maxPerPeer), map[], map[])
  }

  lemma {:induction false} StartInv(maxTotal: nat, maxPerPeer: nat)
    requires maxTotal < A.U64 && maxPerPeer < A.U64
    ensures Inv(Start(maxTotal, maxPerPeer))
  {
  }

  lemma {:induction false} RunKeeps(states: seq<System>, steps: seq<Step>)
    requires IsRun(states, steps) && Inv(states[0])
    ensures Inv(states[|steps|])
    decreases |steps|
  {
    if steps != [] {
      var n := |steps| - 1;
      RunKeeps(states[..|steps|], steps[..n]);
      NextKeeps(states[n], steps[n]);
    }
  }

  lemma {:induction false} SplitWaiting(a: A.State, p: Peer, ps: seq<A.Pending>, waiting: map<nat, Pending>)
    requires PeerMatched(waiting, p, ps)
    requires forall i, j :: 0 <= i < j < |ps| ==> ps[i].channel != ps[j].channel
    requires forall i :: 0 <= i < |ps| ==> !Granted(a, waiting[ps[i].channel])
    ensures PendingBytes(ps) + Sum(waiting, GrantedTo(a, p)) <= Sum(waiting, AskedBy(p))
    decreases |ps|
  {
    if ps == [] {
      SumAtMost(waiting, GrantedTo(a, p), AskedBy(p));
    } else {
      var init, r := ps[..|ps| - 1], ps[|ps| - 1];
      SumRemove(waiting, r.channel, GrantedTo(a, p));
      SumRemove(waiting, r.channel, AskedBy(p));
      assert PeerMatched(waiting - {r.channel}, p, init);
      SplitWaiting(a, p, init, waiting - {r.channel});
    }
  }

  lemma {:induction false} PendingDistinct(a: A.State, p: Peer, i: nat, j: nat)
    requires A.Inv(a) && p in a.peers && i < j < |a.peers[p].pending|
    ensures a.peers[p].pending[i].channel != a.peers[p].pending[j].channel
  {
    assert A.PeerInOrder(a, p);
    A.RequestedIsIncreasing(a.requests, p);
    var sent, chans := A.AnsweredTo(a.answers, p), A.Channels(a.peers[p].pending);
    assert A.RequestedBy(a.requests, p)[|sent| + i] == chans[i] && A.RequestedBy(a.requests, p)[|sent| + j] == chans[j];
  }

  ghost predicate PeerWithin(s: System, p: Peer) {
    Held(QueueOf(s, p)) + Sum(s.waiting, GrantedTo(s.alloc, p)) <= A.StatusOf(s.alloc, p).total <= s.alloc.maxPerPeer
  }

  /** What a peer has queued, in flight, and granted but not yet queued is within what it was allocated. */
  lemma {:induction false} PeerIsCovered(s: System, p: Peer)
    requires Inv(s)
    ensures PeerWithin(s, p)
  {
    assert PeerCovered(s, p);
    var ps := A.StatusOf(s.alloc, p).pending;
    if p in s.alloc.peers {
      assert A.PeerOK(s.alloc, s.alloc.peers[p]);
      assert PeerMatched(s.waiting, p, ps);
      forall i, j | 0 <= i < j < |ps| ensures ps[i].channel != ps[j].channel {
        PendingDistinct(s.alloc, p, i, j);
      }
      forall i | 0 <= i < |ps| ensures !Granted(s.alloc, s.waiting[ps[i].channel]) {
        if Granted(s.alloc, s.waiting[ps[i].channel]) {
          GrantedIsNotPending(s.alloc, s.waiting[ps[i].channel], p, i);
        }
      }
    }
    SplitWaiting(s.alloc, p, ps, s.waiting);
  }

  const heldOf: PeerQueue -> nat := (pq: PeerQueue) => Held(pq)

  /** What was granted to a transaction that is not queued yet. */
  function GrantedOf(a: A.State): Pending -> nat {
    (w: Pending) => if Granted(a, w) then TxSize(w.ops) else 0
  }

  function Others(waiting: map<nat, Pending>, p: Peer): map<nat, Pending> {
    map c | c in waiting && waiting[c].peer != p :: waiting[c]
  }

  /** Every transaction is its peer's. */
  lemma {:induction false} SplitByPeer(a: A.State, waiting: map<nat, Pending>, p: Peer)
    ensures Sum(waiting, GrantedOf(a)) == Sum(waiting, GrantedTo(a, p)) + Sum(Others(waiting, p), GrantedOf(a))
    ensures Sum(Others(waiting, p), GrantedTo(a, p)) == 0
    ensures forall q :: q != p ==> Sum(Others(waiting, p), GrantedTo(a, q)) == Sum(waiting, GrantedTo(a, q))
  {
    var rest := (w: Pending) => if w.peer != p && Granted(a, w) then TxSize(w.ops) else 0;
    SumAdd(waiting, GrantedOf(a), GrantedTo(a, p), rest);
    SumWithout(waiting, Others(waiting, p), rest, GrantedOf(a));
    SumWithout(Others(waiting, p), map[], GrantedTo(a, p), GrantedTo(a, p));
    forall q | q != p ensures Sum(Others(waiting, p), GrantedTo(a, q)) == Sum(waiting, GrantedTo(a, q)) {
      SumWithout(waiting, Others(waiting, p), GrantedTo(a, q), GrantedTo(a, q));
    }
  }

  ghost predicate CoveredIn(a: A.State, peers: map<Peer, A.Status>, queues: map<Peer, PeerQueue>,
                            waiting: map<nat, Pending>, p: Peer) {
    (if p in queues then Held(queues[p]) else 0) + Sum(waiting, GrantedTo(a, p)) <=
      if p in peers then peers[p].total else 0
  }

  /** If every peer is covered by itself, all of them are covered together. */
  lemma {:induction false} TotalIsCovered(a: A.State, peers: map<Peer, A.Status>, queues: map<Peer, PeerQueue>,
                                          waiting: map<nat, Pending>,
                                          ps: set<Peer>)
    requires AllCovered(a, peers, queues, waiting)
    requires queues.Keys <= ps && forall c :: c in waiting ==> waiting[c].peer in ps
    ensures Sum(queues, heldOf) + Sum(waiting, GrantedOf(a)) <= Sum(peers, A.totalOf)
    decreases ps
  {
    if ps == {} {
      assert queues == map[] && waiting == map[];
    } else {
      var p :| p in ps;
      WithoutPeer(a, peers, queues, waiting, p);
      TotalIsCovered(a, peers - {p}, queues - {p}, Others(waiting, p), ps - {p});
    }
  }

  ghost predicate AllCovered(a: A.State, peers: map<Peer, A.Status>, queues: map<Peer, PeerQueue>,
                             waiting: map<nat, Pending>) {
    forall p {:trigger CoveredIn(a, peers, queues, waiting, p)} :: CoveredIn(a, peers, queues, waiting, p)
  }

  /** One peer less. */
  lemma {:induction false} WithoutPeer(a: A.State, peers: map<Peer, A.Status>, queues: map<Peer, PeerQueue>,
                                       waiting: map<nat, Pending>, p: Peer)
    requires AllCovered(a, peers, queues, waiting)
    ensures AllCovered(a, peers - {p}, queues - {p}, Others(waiting, p))
    ensures Sum(queues - {p}, heldOf) + Sum(Others(waiting, p), GrantedOf(a)) <= Sum(peers - {p}, A.totalOf) ==>
              Sum(queues, heldOf) + Sum(waiting, GrantedOf(a)) <= Sum(peers, A.totalOf)
  {
    SplitByPeer(a, waiting, p);
    assert CoveredIn(a, peers, queues, waiting, p);
    forall q ensures CoveredIn(a, peers - {p}, queues - {p}, Others(waiting, p), q) {
      assert CoveredIn(a, peers, queues, waiting, q);
    }
    if p in queues {
      SumRemove(queues, p, heldOf);
    } else {
      assert queues - {p} == queues;
    }
    if p in peers {
      SumRemove(peers, p, A.totalOf);
    } else {
      assert peers - {p} == peers;
    }
  }

  /**
    In every reachable state: each peer's queued, in-flight and granted bytes are within
    its allocation and so within the per-peer limit; those of all peers together are within
    the global limit; and every message taken off a queue has been reported exactly once,
    except the one in flight.  What is off a queue counts until it is given back.
   */
  lemma {:induction false} QueuedBytesAreCovered(states: seq<System>, steps: seq<Step>, maxTotal: nat, maxPerPeer: nat)
    requires maxTotal < A.U64 && maxPerPeer < A.U64
    requires IsRun(states, steps) && states[0] == Start(maxTotal, maxPerPeer)
    ensures var s := states[|steps|];
            && (forall p :: PeerWithin(s, p))
            && Sum(s.queues, heldOf) + Sum(s.waiting, GrantedOf(s.alloc)) <= s.alloc.total <= s.alloc.maxTotal
            && (forall p :: ReportedOnce(QueueOf(s, p)))
  {
    StartInv(maxTotal, maxPerPeer);
    RunKeeps(states, steps);
    var s := states[|steps|];
    forall p ensures PeerWithin(s, p) {
      PeerIsCovered(s, p);
    }
    forall p ensures CoveredIn(s.alloc, s.alloc.peers, s.queues, s.waiting, p) {
      PeerIsCovered(s, p);
    }
    TotalIsCovered(s.alloc, s.alloc.peers, s.queues, s.waiting, s.queues.Keys
      + set c | c in s.waiting :: s.waiting[c].peer);
    forall p ensures ReportedOnce(QueueOf(s, p)) {
      assert QueueOK(QueueOf(s, p));
    }
  }
}
