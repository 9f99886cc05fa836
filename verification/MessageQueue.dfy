/**
  The queue of outgoing messages to one peer: transactions are batched into builders,
  builders are sent in order, and a message that cannot be sent takes its requests'
  responses out of the builders behind it.
 */
module MessageQueues {
  import opened Core
  import opened Sums
  import opened MessageBuilders

  const MAX_BLOCK_SIZE: nat := 512 * 1024

  // --------------------------------------------------------------- operations

  datatype Op =
    | BlockOp(id: RequestId, link: Cid, data: Option<Bytes>, send: bool)
    | StatusOp(id: RequestId, code: Code)
    | ExtensionOp(id: RequestId, ext: Extension, encoded: nat)
    | RequestOp(id: RequestId)
  {
    /** A block is only sent when there is one. */
    predicate OK() {
      BlockOp? && send ==> data.Some?
    }
  }

  /** The memory that is allocated for an operation. */
  function OpSize(op: Op): nat {
    match op
    case BlockOp(_, _, data, send) => if send then Size(data) else 0
    case StatusOp(_, _) => 0
    case ExtensionOp(_, _, encoded) => encoded
    case RequestOp(_) => 0
  }

  /** The block bytes that an operation puts into the message. */
  function OpBlockBytes(op: Op): nat {
    if op.BlockOp? && op.send then Size(op.data) else 0
  }

  function BuildOp(b: Contents, op: Op): Contents
    requires op.OK()
  {
    match op
    case BlockOp(id, link, data, send) =>
      AddLink(if send then AddBlock(b, link, data.value) else b, id, link, if data.Some? then Present else Missing)
    case StatusOp(id, code) => AddResponseCode(b, id, code)
    case ExtensionOp(id, ext, _) => AddExtensionData(b, id, ext)
    case RequestOp(id) => AddRequest(b, id)
  }

  ghost predicate OpsOK(ops: seq<Op>) {
    forall op :: op in ops ==> op.OK()
  }

  function TxSize(ops: seq<Op>): nat {
    if ops == [] then 0 else TxSize(ops[..|ops| - 1]) + OpSize(ops[|ops| - 1])
  }

  function BlockBytes(ops: seq<Op>): nat {
    if ops == [] then 0 else BlockBytes(ops[..|ops| - 1]) + OpBlockBytes(ops[|ops| - 1])
  }

  function BuildAll(b: Contents, ops: seq<Op>): Contents
    requires OpsOK(ops)
  {
    if ops == [] then b else BuildOp(BuildAll(b, ops[..|ops| - 1]), ops[|ops| - 1])
  }

  function OpLinks(op: Op, id: RequestId): seq<Metadatum> {
    if op.BlockOp? && op.id == id then [Metadatum(op.link, if op.data.Some? then Present else Missing)] else []
  }

  /** The metadata that the operations announce for a request, in order. */
  function LinksOf(ops: seq<Op>, id: RequestId): seq<Metadatum> {
    if ops == [] then [] else LinksOf(ops[..|ops| - 1], id) + OpLinks(ops[|ops| - 1], id)
  }

  lemma {:induction false} BuildOpFacts(b: Contents, op: Op, id: RequestId)
    requires op.OK() && Sized(b)
    ensures Sized(BuildOp(b, op))
    ensures BuildOp(b, op).blkSize == b.blkSize + OpBlockBytes(op) && OpBlockBytes(op) <= OpSize(op)
    ensures Entries(BuildOp(b, op).responses, id) == Entries(b.responses, id) + OpLinks(op, id)
  {
    if op.BlockOp? && op.send {
      AddBlockSized(b, op.link, op.data.value);
    }
  }

  // -------------------------------------------------- when the size is right

  predicate SendsBlock(op: Op, link: Cid) {
    op.BlockOp? && op.send && op.link == link
  }

  /** What was sent last for a link. */
  function LastSent(ops: seq<Op>, link: Cid): Option<Bytes> {
    if ops == [] then None
    else if SendsBlock(ops[|ops| - 1], link) then ops[|ops| - 1].data
    else LastSent(ops[..|ops| - 1], link)
  }

  /** Operation j sends the link of operation i again, whose block was not empty. */
  predicate Resends(ops: seq<Op>, i: nat, j: nat) {
    i < j < |ops| && ops[i].BlockOp? && ops[i].send && Size(ops[i].data) > 0 && SendsBlock(ops[j], ops[i].link)
  }

  ghost predicate SentOnce(ops: seq<Op>) {
    forall i: nat, j: nat :: !Resends(ops, i, j)
  }

  /** The bytes that later blocks for the same links have replaced. */
  function Replaced(ops: seq<Op>): nat {
    if ops == [] then 0
    else
      var init, op := ops[..|ops| - 1], ops[|ops| - 1];
      Replaced(init) + if op.BlockOp? && op.send then Size(LastSent(init, op.link)) else 0
  }

  lemma {:induction false} BlocksAreLastSent(ops: seq<Op>, link: Cid)
    requires OpsOK(ops)
    ensures var b := BuildAll(NOTHING, ops).blocks;
            LastSent(ops, link) == if link in b then Some(b[link]) else None
    decreases |ops|
  {
    if ops != [] {
      assert ops[|ops| - 1] in ops;
      BlocksAreLastSent(ops[..|ops| - 1], link);
    }
  }

  /** The size is the size of the blocks plus what was replaced. */
  lemma {:induction false} SizeIsBlocksAndReplaced(ops: seq<Op>)
    requires OpsOK(ops)
    ensures BuildAll(NOTHING, ops).blkSize == Sum(BuildAll(NOTHING, ops).blocks, sizeOf) + Replaced(ops)
    decreases |ops|
  {
    if ops != [] {
      var init, op := ops[..|ops| - 1], ops[|ops| - 1];
      assert op in ops;
      SizeIsBlocksAndReplaced(init);
      if op.BlockOp? && op.send {
        BlocksAreLastSent(init, op.link);
        SumUpdate(BuildAll(NOTHING, init).blocks, op.link, op.data.value, sizeOf);
      }
    }
  }

  /** A non-empty block was sent for the link last, or one before it was and has been sent again. */
  lemma {:induction false} SentNonEmpty(ops: seq<Op>, link: Cid, i: nat)
    requires i < |ops| && SendsBlock(ops[i], link) && Size(ops[i].data) > 0
    ensures Size(LastSent(ops, link)) > 0 || exists j :: Resends(ops, i, j)
    decreases |ops|
  {
    var n := |ops| - 1;
    if i < n {
      if SendsBlock(ops[n], link) {
        assert Resends(ops, i, n);
      } else {
        SentNonEmpty(ops[..n], link, i);
        if Size(LastSent(ops, link)) == 0 {
          var j :| Resends(ops[..n], i, j);
          assert Resends(ops, i, j);
        }
      }
    }
  }

  lemma {:induction false} LastSentIsSent(ops: seq<Op>, link: Cid) returns (i: nat)
    requires Size(LastSent(ops, link)) > 0
    ensures i < |ops| && SendsBlock(ops[i], link) && ops[i].data == LastSent(ops, link)
    decreases |ops|
  {
    i := |ops| - 1;
    if !SendsBlock(ops[i], link) {
      i := LastSentIsSent(ops[..i], link);
    }
  }

  lemma {:induction false} NothingReplaced(ops: seq<Op>)
    requires OpsOK(ops)
    ensures Replaced(ops) == 0 <==> SentOnce(ops)
    decreases |ops|
  {
    if ops != [] {
      var n := |ops| - 1;
      var init, op := ops[..n], ops[n];
      NothingReplaced(init);
      if Replaced(init) > 0 {
        var i, j :| Resends(init, i, j);
        assert Resends(ops, i, j);
      } else if op.BlockOp? && op.send && Size(LastSent(init, op.link)) > 0 {
        var i := LastSentIsSent(init, op.link);
        assert Resends(ops, i, n);
      } else {
        forall i: nat, j: nat ensures !Resends(ops, i, j) {
          assert !Resends(init, i, j);
          if i < n && Resends(ops, i, n) {
            SentNonEmpty(init, op.link, i);
          }
        }
      }
    }
  }

  /** The size of a message is that of its blocks exactly when no link is sent again after a non-empty block for it. */
  lemma {:induction false} SizeIsRightIff(ops: seq<Op>)
    requires OpsOK(ops)
    ensures BuildAll(NOTHING, ops).blkSize == Sum(BuildAll(NOTHING, ops).blocks, sizeOf) <==> SentOnce(ops)
  {
    SizeIsBlocksAndReplaced(ops);
    NothingReplaced(ops);
  }

  /** The same byte sent twice for a link is counted twice. */
  lemma {:induction false} RepeatedBlockCountsTwice()
    ensures var op := BlockOp(1, 7, Some([0]), true);
            && !SentOnce([op, op])
            && BuildAll(NOTHING, [op, op]).blkSize == Sum(BuildAll(NOTHING, [op, op]).blocks, sizeOf) + 1
  {
    var op := BlockOp(1, 7, Some([0]), true);
    assert Resends([op, op], 0, 1);
    SizeIsBlocksAndReplaced([op, op]);
    assert [op, op][..1] == [op] && [op][..0] == [];
    assert Replaced([op]) == Size(LastSent([], 7)) == 0;
    assert LastSent([op], 7) == Some([0]);
  }

  /** What a transaction does to a builder. */
  lemma {:induction false} BuildAllFacts(b: Contents, ops: seq<Op>, id: RequestId)
    requires OpsOK(ops) && Sized(b)
    ensures Sized(BuildAll(b, ops))
    ensures BuildAll(b, ops).blkSize == b.blkSize + BlockBytes(ops) && BlockBytes(ops) <= TxSize(ops)
    ensures Entries(BuildAll(b, ops).responses, id) == Entries(b.responses, id) + LinksOf(ops, id)
    decreases |ops|
  {
    if ops != [] {
      var init, op := ops[..|ops| - 1], ops[|ops| - 1];
      assert op in ops;
      BuildAllFacts(b, init, id);
      BuildOpFacts(BuildAll(b, init), op, id);
      Associative(Entries(b.responses, id), LinksOf(init, id), OpLinks(op, id));
    }
  }

  // ---------------------------------------------------------------- the queue

  /** A builder in the queue; `parts` records the block bytes of each of its transactions. */
  datatype Message = Message(topic: nat, contents: Contents, streams: set<RequestId>, parts: seq<nat>)

  datatype Queue = Queue(builders: seq<Message>, nextTopic: nat)

  predicate ShouldBeginNewResponse(builders: seq<Message>, size: nat) {
    |builders| == 0 || (size != 0 && builders[|builders| - 1].contents.blkSize + size > MAX_BLOCK_SIZE)
  }

  function Target(q: Queue, size: nat): (r: Queue)
    ensures r.builders != []
  {
    if ShouldBeginNewResponse(q.builders, size) then
      Queue(q.builders + [Message(q.nextTopic, NOTHING, {}, [])], q.nextTopic + 1)
    else q
  }

  function Last(q: Queue): Message
    requires q.builders != []
  {
    q.builders[|q.builders| - 1]
  }

  /** The response stream of a transaction; one that sends a request has none. */
  function StreamOf(id: RequestId, ops: seq<Op>): set<RequestId> {
    if exists op :: op in ops && op.RequestOp? then {} else {id}
  }

  function WithOps(m: Message, id: RequestId, ops: seq<Op>): Message
    requires OpsOK(ops)
  {
    Message(m.topic, BuildAll(m.contents, ops), m.streams + StreamOf(id, ops), m.parts + [BlockBytes(ops)])
  }

  /** One transaction; a closed stream adds nothing. */
  function BuildMessage(q: Queue, id: RequestId, ops: seq<Op>, closed: bool): Queue
    requires OpsOK(ops)
  {
    var t := Target(q, TxSize(ops));
    if closed then t
    else t.(builders := t.builders[|t.builders| - 1 := WithOps(Last(t), id, ops)])
  }

  /** The next message to send; an empty builder is dropped. */
  function Extract(q: Queue): (Queue, Option<Message>) {
    if q.builders == [] then (q, None)
    else (q.(builders := q.builders[1..]), if Empty(q.builders[0].contents) then None else Some(q.builders[0]))
  }

  ghost function ScrubMessage(m: Message, ids: set<RequestId>): Message {
    m.(contents := Scrub(m.contents, ids), streams := m.streams - ids)
  }

  /** Scrub every builder and drop those that become empty. */
  ghost function ScrubBuilders(ms: seq<Message>, ids: set<RequestId>): seq<Message> {
    if ms == [] then []
    else
      var m := ScrubMessage(ms[|ms| - 1], ids);
      ScrubBuilders(ms[..|ms| - 1], ids) + if Empty(m.contents) then [] else [m]
  }

  /** What scrubResponses reports: the bytes freed in the last builder only. */
  ghost function ReportedFreed(ms: seq<Message>, ids: set<RequestId>): int {
    if ms == [] then 0
    else ms[|ms| - 1].contents.blkSize - ScrubMessage(ms[|ms| - 1], ids).contents.blkSize
  }

  function QueuedBytes(ms: seq<Message>): nat {
    if ms == [] then 0 else QueuedBytes(ms[..|ms| - 1]) + ms[|ms| - 1].contents.blkSize
  }

  ghost predicate AllSized(ms: seq<Message>) {
    forall i :: 0 <= i < |ms| ==> Sized(ms[i].contents)
  }

  lemma {:induction false} ScrubMessageSize(m: Message, ids: set<RequestId>)
    requires Sized(m.contents)
    ensures var s := ScrubMessage(m, ids);
            Sized(s.contents) && s.contents.blkSize <= m.contents.blkSize
              && (Empty(s.contents) ==> s.contents.blkSize == 0)
  {
    ScrubSize(m.contents, ids);
  }

  /** The last builder adds what is left of it to the scrubbed queue. */
  lemma {:induction false} ScrubLast(ms: seq<Message>, ids: set<RequestId>)
    requires AllSized(ms) && ms != []
    ensures var s := ScrubMessage(ms[|ms| - 1], ids);
            && Sized(s.contents) && s.contents.blkSize <= ms[|ms| - 1].contents.blkSize
            && QueuedBytes(ScrubBuilders(ms, ids)) == QueuedBytes(ScrubBuilders(ms[..|ms| - 1], ids))
              + s.contents.blkSize
    ensures AllSized(ScrubBuilders(ms[..|ms| - 1], ids)) ==> AllSized(ScrubBuilders(ms, ids))
  {
    var x, s := ScrubBuilders(ms[..|ms| - 1], ids), ScrubMessage(ms[|ms| - 1], ids);
    ScrubMessageSize(ms[|ms| - 1], ids);
    if Empty(s.contents) {
      assert ScrubBuilders(ms, ids) == x;
    } else {
      assert ScrubBuilders(ms, ids) == x + [s];
      QueuedSnoc(x, s);
    }
  }

  lemma {:induction false} ScrubShrinks(ms: seq<Message>, ids: set<RequestId>)
    requires AllSized(ms)
    ensures AllSized(ScrubBuilders(ms, ids)) && QueuedBytes(ScrubBuilders(ms, ids)) <= QueuedBytes(ms)
    ensures ms != [] ==>
              QueuedBytes(ScrubBuilders(ms, ids)) <= QueuedBytes(ms[..|ms| - 1])
                + ScrubMessage(ms[|ms| - 1], ids).contents.blkSize
    decreases |ms|
  {
    if ms != [] {
      ScrubShrinks(ms[..|ms| - 1], ids);
      ScrubLast(ms, ids);
    }
  }

  /** Scrubbing frees at least what is reported. */
  lemma {:induction false} ScrubFreesReported(ms: seq<Message>, ids: set<RequestId>)
    requires AllSized(ms)
    ensures 0 <= ReportedFreed(ms, ids) <= QueuedBytes(ms)
    ensures QueuedBytes(ScrubBuilders(ms, ids)) + ReportedFreed(ms, ids) <= QueuedBytes(ms)
  {
    ScrubShrinks(ms, ids);
    if ms != [] {
      ScrubMessageSize(ms[|ms| - 1], ids);
    }
  }

  lemma {:induction false} QueuedSnoc(ms: seq<Message>, m: Message)
    ensures QueuedBytes(ms + [m]) == QueuedBytes(ms) + m.contents.blkSize
  {
  }

  /** The bytes that a scrub frees in each builder, together. */
  ghost function FreedBytes(ms: seq<Message>, ids: set<RequestId>): int {
    if ms == [] then 0 else FreedBytes(ms[..|ms| - 1], ids) + ReportedFreed(ms, ids)
  }

  ghost predicate KeepsSize(m: Message, ids: set<RequestId>) {
    ScrubMessage(m, ids).contents.blkSize == m.contents.blkSize
  }

  lemma {:induction false} ScrubFrees(ms: seq<Message>, ids: set<RequestId>)
    requires AllSized(ms)
    ensures QueuedBytes(ms) - QueuedBytes(ScrubBuilders(ms, ids)) == FreedBytes(ms, ids)
    decreases |ms|
  {
    if ms != [] {
      var init := ms[..|ms| - 1];
      assert AllSized(init);
      ScrubFrees(init, ids);
      ScrubLast(ms, ids);
    }
  }

  lemma {:induction false} FreesNothingIff(ms: seq<Message>, ids: set<RequestId>)
    requires AllSized(ms)
    ensures FreedBytes(ms, ids) >= 0
    ensures FreedBytes(ms, ids) == 0 <==> forall i :: 0 <= i < |ms| ==> KeepsSize(ms[i], ids)
    decreases |ms|
  {
    if ms != [] {
      var n := |ms| - 1;
      var init := ms[..n];
      assert forall i :: 0 <= i < n ==> init[i] == ms[i];
      FreesNothingIff(init, ids);
      ScrubMessageSize(ms[n], ids);
      assert ReportedFreed(ms, ids) == 0 <==> KeepsSize(ms[n], ids);
    }
  }

  /**
    A scrub reports what it freed exactly when every builder before the last keeps its
    size; what it leaves out is what those builders freed.
   */
  lemma {:induction false} ReportIsExactIff(ms: seq<Message>, ids: set<RequestId>)
    requires AllSized(ms) && ms != []
    ensures var init := ms[..|ms| - 1];
            && QueuedBytes(ms) - QueuedBytes(ScrubBuilders(ms, ids)) - ReportedFreed(ms, ids) ==
              FreedBytes(init, ids) >= 0
            && (QueuedBytes(ms) - QueuedBytes(ScrubBuilders(ms, ids)) == ReportedFreed(ms, ids)
                <==> forall i :: 0 <= i < |init| ==> KeepsSize(ms[i], ids))
  {
    var init := ms[..|ms| - 1];
    ScrubFrees(ms, ids);
    FreesNothingIff(init, ids);
    assert forall i :: 0 <= i < |init| ==> init[i] == ms[i];
  }

  /** One byte queued for a request in the first of two builders is freed and not reported. */
  lemma {:induction false} ReportMissesAByte(rest: Message)
    requires Sized(rest.contents) && KeepsSize(rest, {1})
    ensures var m := WithOps(Message(0, NOTHING, {}, []), 1, [BlockOp(1, 7, Some([0]), true)]);
            && AllSized([m, rest]) && ReportedFreed([m, rest], {1}) == 0
            && QueuedBytes([m, rest]) - QueuedBytes(ScrubBuilders([m, rest], {1})) == 1
  {
    var op := BlockOp(1, 7, Some([0]), true);
    var m := WithOps(Message(0, NOTHING, {}, []), 1, [op]);
    assert [op][..0] == [];
    assert m.contents == BuildOp(BuildAll(NOTHING, []), op) == AddLink(AddBlock(NOTHING, 7, [0]), 1, 7, Present);
    assert Entries(NOTHING.responses, 1) + [Metadatum(7, Present)] == [Metadatum(7, Present)];
    assert m.contents.responses == map[1 := [Metadatum(7, Present)]];
    NothingBounded(0);
    BuildAllFacts(NOTHING, [op], 1);
    assert Scrub(m.contents, {1}).blocks == map[];
    ReportIsExactIff([m, rest], {1});
    assert [m, rest][..1] == [m] && [m][..0] == [];
    assert BlockBytes([op]) == 1;
    assert FreedBytes([m], {1}) == FreedBytes([], {1}) + ReportedFreed([m], {1});
  }

  // ------------------------------------------------------------------ batching

  /** At most one transaction contributed block bytes. */
  ghost predicate OneBlockTx(parts: seq<nat>) {
    forall i, j :: 0 <= i < j < |parts| ==> parts[i] == 0 || parts[j] == 0
  }

  function Total(parts: seq<nat>): nat {
    if parts == [] then 0 else Total(parts[..|parts| - 1]) + parts[|parts| - 1]
  }

  ghost predicate Bounded(m: Message) {
    && Sized(m.contents) && m.contents.blkSize == Total(m.parts)
    && (m.contents.blkSize <= MAX_BLOCK_SIZE || OneBlockTx(m.parts))
  }

  /** The metadata for a request over a sequence of messages. */
  function MetaOf(ms: seq<Message>, id: RequestId): seq<Metadatum> {
    if ms == [] then [] else MetaOf(ms[..|ms| - 1], id) + Entries(ms[|ms| - 1].contents.responses, id)
  }

  datatype Step = Tx(id: RequestId, ops: seq<Op>) | Take

  /** A run without send errors: what was sent, and the operations of the transactions so far. */
  datatype Run = Run(queue: Queue, sent: seq<Message>, done: seq<Op>)

  function Next(r: Run, s: Step): Run
    requires s.Tx? ==> OpsOK(s.ops)
  {
    match s
    case Tx(id, ops) => Run(BuildMessage(r.queue, id, ops, false), r.sent, r.done + ops)
    case Take =>
      var (q, m) := Extract(r.queue);
      Run(q, if m.Some? then r.sent + [m.value] else r.sent, r.done)
  }

  function RunAll(r: Run, steps: seq<Step>): Run
    requires forall s :: s in steps && s.Tx? ==> OpsOK(s.ops)
    decreases |steps|
  {
    if steps == [] then r else RunAll(Next(r, steps[0]), steps[1..])
  }

  ghost predicate Topics(ms: seq<Message>, next: nat) {
    && (forall i :: 0 <= i < |ms| ==> ms[i].topic < next)
    && (forall i, j :: 0 <= i < j < |ms| ==> ms[i].topic < ms[j].topic)
  }

  ghost predicate AllBounded(ms: seq<Message>) {
    forall i :: 0 <= i < |ms| ==> Bounded(ms[i])
  }

  ghost predicate Carries(ms: seq<Message>, ops: seq<Op>) {
    forall id :: MetaOf(ms, id) == LinksOf(ops, id)
  }

  ghost predicate Batched(r: Run) {
    var all := r.sent + r.queue.builders;
    Topics(all, r.queue.nextTopic) && AllBounded(all) && Carries(all, r.done)
  }

  lemma {:induction false} LinksConcat(x: seq<Op>, y: seq<Op>, id: RequestId)
    ensures LinksOf(x + y, id) == LinksOf(x, id) + LinksOf(y, id)
    decreases |y|
  {
    if y == [] {
      assert x + y == x;
    } else {
      assert (x + y)[..|x + y| - 1] == x + y[..|y| - 1];
      LinksConcat(x, y[..|y| - 1], id);
    }
  }

  lemma {:induction false} MetaConcat(x: seq<Message>, y: seq<Message>, id: RequestId)
    ensures MetaOf(x + y, id) == MetaOf(x, id) + MetaOf(y, id)
    decreases |y|
  {
    if y == [] {
      assert x + y == x;
    } else {
      assert (x + y)[..|x + y| - 1] == x + y[..|y| - 1];
      MetaConcat(x, y[..|y| - 1], id);
    }
  }

  lemma {:induction false} MetaSnoc(x: seq<Message>, m: Message, id: RequestId)
    ensures MetaOf(x + [m], id) == MetaOf(x, id) + Entries(m.contents.responses, id)
  {
  }

  lemma {:induction false} TotalSnoc(parts: seq<nat>, n: nat)
    ensures Total(parts + [n]) == Total(parts) + n
  {
  }

  lemma {:induction false} NothingBounded(topic: nat)
    ensures Bounded(Message(topic, NOTHING, {}, []))
  {
  }

  /** A transaction that goes into this builder keeps its bound. */
  lemma {:induction false} WithOpsBounded(m: Message, id: RequestId, ops: seq<Op>)
    requires OpsOK(ops) && Bounded(m)
    requires m.parts == [] || TxSize(ops) == 0 || m.contents.blkSize + TxSize(ops) <= MAX_BLOCK_SIZE
    ensures Bounded(WithOps(m, id, ops))
  {
    BuildAllFacts(m.contents, ops, id);
    TotalSnoc(m.parts, BlockBytes(ops));
    var parts := m.parts + [BlockBytes(ops)];
    if OneBlockTx(m.parts) && BlockBytes(ops) == 0 {
      assert forall i :: 0 <= i < |m.parts| ==> parts[i] == m.parts[i];
    }
  }

  /** Opening a builder changes none of the facts. */
  lemma {:induction false} TargetBatched(r: Run, size: nat)
    requires Batched(r)
    ensures Batched(r.(queue := Target(r.queue, size)))
    ensures var m := Last(Target(r.queue, size));
            m.parts == [] || size == 0 || m.contents.blkSize + size <= MAX_BLOCK_SIZE
  {
    if ShouldBeginNewResponse(r.queue.builders, size) {
      NothingBounded(r.queue.nextTopic);
      var all, m := r.sent + r.queue.builders, Message(r.queue.nextTopic, NOTHING, {}, []);
      assert r.sent + (r.queue.builders + [m]) == all + [m];
      EmptyCarries(all, m, r.done);
    }
  }

  /** A message with nothing in it carries nothing. */
  lemma {:induction false} EmptyCarries(all: seq<Message>, m: Message, done: seq<Op>)
    requires Carries(all, done) && m.contents == NOTHING
    ensures Carries(all + [m], done)
  {
    forall id ensures MetaOf(all + [m], id) == LinksOf(done, id) {
      MetaSnoc(all, m, id);
    }
  }

  /** Adding a transaction to the last message. */
  lemma {:induction false} LastCarries(init: seq<Message>, m: Message, id: RequestId, done: seq<Op>, ops: seq<Op>)
    requires OpsOK(ops) && Sized(m.contents) && Carries(init + [m], done)
    ensures Carries(init + [WithOps(m, id, ops)], done + ops)
  {
    forall x ensures MetaOf(init + [WithOps(m, id, ops)], x) == LinksOf(done + ops, x) {
      MetaSnoc(init, m, x);
      MetaSnoc(init, WithOps(m, id, ops), x);
      BuildAllFacts(m.contents, ops, x);
      LinksConcat(done, ops, x);
      Associative(MetaOf(init, x), Entries(m.contents.responses, x), LinksOf(ops, x));
    }
  }

  lemma {:induction false} TxBatched(r: Run, id: RequestId, ops: seq<Op>)
    requires Batched(r) && OpsOK(ops)
    ensures Batched(Next(r, Tx(id, ops)))
  {
    var t := Target(r.queue, TxSize(ops));
    TargetBatched(r, TxSize(ops));
    var all, m := r.sent + t.builders, Last(t);
    var init, m' := r.sent + t.builders[..|t.builders| - 1], WithOps(Last(t), id, ops);
    assert all == init + [m] && Bounded((init + [m])[|init|]);
    WithOpsBounded(m, id, ops);
    LastCarries(init, m, id, r.done, ops);
    assert r.sent + BuildMessage(r.queue, id, ops, false).builders == init + [m'];
    assert forall i :: 0 <= i < |init| ==> (init + [m'])[i] == all[i];
  }

  /** An empty message carries nothing. */
  lemma {:induction false} DropCarries(x: seq<Message>, m: Message, y: seq<Message>, done: seq<Op>)
    requires Empty(m.contents) && Carries(x + [m] + y, done)
    ensures Carries(x + y, done)
  {
    forall id ensures MetaOf(x + y, id) == LinksOf(done, id) {
      MetaConcat(x + [m], y, id);
      MetaSnoc(x, m, id);
      MetaConcat(x, y, id);
    }
  }

  lemma {:induction false} DropOne(x: seq<Message>, m: Message, y: seq<Message>, next: nat)
    requires Topics(x + [m] + y, next) && AllBounded(x + [m] + y)
    ensures Topics(x + y, next) && AllBounded(x + y)
  {
    var all := x + [m] + y;
    assert forall i :: 0 <= i < |x + y| ==> (x + y)[i] == all[if i < |x| then i else i + 1];
  }

  lemma {:induction false} TakeBatched(r: Run)
    requires Batched(r)
    ensures Batched(Next(r, Take))
  {
    if r.queue.builders != [] {
      var m, rest := r.queue.builders[0], r.queue.builders[1..];
      assert r.sent + r.queue.builders == r.sent + [m] + rest;
      if Empty(m.contents) {
        DropCarries(r.sent, m, rest, r.done);
        DropOne(r.sent, m, rest, r.queue.nextTopic);
      }
    }
  }

  /**
    In every run without send errors: the messages carry each request's metadata in the
    order of its transactions, topics increase, and a message has more block bytes than the
    maximum only if they all come from one transaction.
   */
  lemma {:induction false} EveryRunIsBatched(r: Run, steps: seq<Step>)
    requires Batched(r) && forall s :: s in steps && s.Tx? ==> OpsOK(s.ops)
    ensures Batched(RunAll(r, steps))
    decreases |steps|
  {
    if steps != [] {
      match steps[0] {
        case Tx(id, ops) => TxBatched(r, id, ops);
        case Take => TakeBatched(r);
      }
      EveryRunIsBatched(Next(r, steps[0]), steps[1..]);
    }
  }

  lemma EmptyRunIsBatched()
    ensures Batched(Run(Queue([], 0), [], []))
  {
  }

  // ------------------------------------------------------------- the queue object

  datatype Event = Queued(topic: nat) | Sent(topic: nat) | Failed(topic: nat)

  /** The operations of a transaction, one after the other. */
  method ApplyOperations(b: Contents, ops: seq<Op>) returns (r: Contents)
    requires OpsOK(ops)
    ensures r == BuildAll(b, ops)
  {
    r := b;
    for i := 0 to |ops|
      invariant r == BuildAll(b, ops[..i])
    {
      assert ops[i] in ops && ops[..i + 1][..i] == ops[..i];
      r := BuildOp(r, ops[i]);
    }
    assert ops[..|ops|] == ops;
  }

  class MessageQueue {
    var builders: seq<Message>
    var nextTopic: nat
    var outgoingWork: bool        // a token is in the channel
    var senderOpen: bool
    var events: seq<Event>        // what was published
    var released: seq<nat>        // what was given back to the allocator
    var closedStreams: set<RequestId>
    const maxRetries: nat

    ghost function Abs(): Queue
      reads this
    {
      Queue(builders, nextTopic)
    }

    ghost predicate Valid()
      reads this
    {
      AllSized(builders)
    }

    constructor (retries: nat)
      ensures Valid() && Abs() == Queue([], 0) && events == [] && released == [] && maxRetries == retries
    {
      builders, nextTopic, outgoingWork, senderOpen := [], 0, false, false;
      events, released, closedStreams, maxRetries := [], [], {}, retries;
    }

    /** Put a transaction into the last builder, or into a new one; true if there is something to send. */
    method AddTransaction(id: RequestId, ops: seq<Op>) returns (work: bool)
      requires Valid() && OpsOK(ops)
      modifies this`builders, this`nextTopic
      ensures Valid() && Abs() == BuildMessage(old(Abs()), id, ops, id in closedStreams * StreamOf(id, ops))
      ensures work == !Empty(Last(Abs()).contents)
    {
      OpenBuilder(TxSize(ops));
      var n := |builders| - 1;
      if id !in closedStreams * StreamOf(id, ops) {
        BuildAllFacts(builders[n].contents, ops, id);
        var b := ApplyOperations(builders[n].contents, ops);
        builders := builders[n := Message(builders[n].topic, b, builders[n].streams + StreamOf(id, ops),
          builders[n].parts + [BlockBytes(ops)])];
      }
      work := !Empty(builders[n].contents);
    }

    /** Begin another message unless the last one has room. */
    method OpenBuilder(size: nat)
      requires Valid()
      modifies this`builders, this`nextTopic
      ensures Valid() && Abs() == Target(old(Abs()), size)
    {
      NothingBounded(nextTopic);
      if |builders| == 0 || (size != 0 && builders[|builders| - 1].contents.blkSize + size > MAX_BLOCK_SIZE) {
        builders, nextTopic := builders + [Message(nextTopic, NOTHING, {}, [])], nextTopic + 1;
      }
    }

    method SignalWork()
      modifies this`outgoingWork
      ensures outgoingWork
    {
      outgoingWork := true;
    }

    method ExtractOutgoingMessage() returns (m: Option<Message>)
      requires Valid()
      modifies this`builders, this`outgoingWork
      ensures Valid() && (Abs(), m) == Extract(old(Abs())) && (m.Some? ==> Sized(m.value.contents))
      ensures outgoingWork == (old(outgoingWork) || |old(builders)| > 1)
    {
      if |builders| == 0 {
        return None;
      }
      var builder := builders[0];
      assert Sized(builder.contents);
      builders := builders[1..];
      if |builders| > 0 {
        SignalWork();
      }
      if Empty(builder.contents) {
        return None;
      }
      return Some(builder);
    }

    /** Scrub every builder; the result is what the last one freed. */
    method ScrubResponses(requestIDs: seq<RequestId>) returns (totalFreed: nat)
      requires Valid()
      modifies this`builders
      ensures Valid() && builders == ScrubBuilders(old(builders), Ids(requestIDs))
      ensures totalFreed == ReportedFreed(old(builders), Ids(requestIDs))
    {
      ghost var ids := Ids(requestIDs);
      var newBuilders: seq<Message> := [];
      totalFreed := 0;
      for i := 0 to |builders|
        invariant builders == old(builders)
        invariant newBuilders == ScrubBuilders(builders[..i], ids) && totalFreed == ReportedFreed(builders[..i], ids)
      {
        var obj := new Builder.With(builders[i].contents);
        totalFreed := obj.ScrubResponses(requestIDs);
        var m := builders[i].(contents := obj.contents, streams := builders[i].streams - Ids(requestIDs));
        assert builders[..i + 1][..i] == builders[..i];
        if !Empty(m.contents) {
          newBuilders := newBuilders + [m];
        }
      }
      assert builders[..|builders|] == builders;
      ScrubShrinks(builders, ids);
      builders := newBuilders;
    }

    method PublishSent(m: Message)
      modifies this`events, this`released
      ensures events == old(events) + [Sent(m.topic)] && released == old(released) + [m.contents.blkSize]
    {
      events := events + [Sent(m.topic)];
      released := released + [m.contents.blkSize];
    }

    method CloseStreams(streams: set<RequestId>) returns (requestIDs: seq<RequestId>)
      modifies this`closedStreams
      ensures Ids(requestIDs) == streams && closedStreams == old(closedStreams) + streams
    {
      requestIDs := [];
      var todo := streams;
      while todo != {}
        invariant Ids(requestIDs) + todo == streams
        invariant closedStreams == old(closedStreams) + Ids(requestIDs)
        decreases todo
      {
        var id :| id in todo;
        assert Ids(requestIDs + [id]) == Ids(requestIDs) + {id};
        closedStreams, requestIDs, todo := closedStreams + {id}, requestIDs + [id], todo - {id};
      }
    }

    /** Close the message's streams, take their responses out of the queue, and report the error. */
    method PublishError(m: Message)
      requires Valid()
      modifies this`builders, this`events, this`released, this`closedStreams
      ensures Valid() && builders == ScrubBuilders(old(builders), m.streams)
      ensures closedStreams == old(closedStreams) + m.streams
      ensures events == old(events) + [Failed(m.topic)]
      ensures var freed := ReportedFreed(old(builders), m.streams);
              released == old(released) + (if freed > 0 then [freed as nat] else []) + [m.contents.blkSize]
    {
      var requestIDs := CloseStreams(m.streams);
      var totalFreed := ScrubResponses(requestIDs);
      if totalFreed > 0 {
        released := released + [totalFreed];
      }
      events := events + [Failed(m.topic)];
      released := released + [m.contents.blkSize];
    }

    /** What has been published and given back for an extracted message that is finished. */
    ghost predicate Finished(m: Message, rest: seq<Message>, released0: seq<nat>, events0: seq<Event>)
      reads this
    {
      || (events == events0 + [Sent(m.topic)] && builders == rest && released == released0 + [m.contents.blkSize])
      || (events == events0 + [Failed(m.topic)] && builders == ScrubBuilders(rest, m.streams)
          && released == released0 + (if ReportedFreed(rest, m.streams) > 0 then [ReportedFreed(rest, m.streams)]
            else []) + [m.contents.blkSize])
    }

    /** Open a sender if there is none; connecting may fail. */
    method InitializeSender() returns (ok: bool)
      modifies this`senderOpen
      ensures ok == senderOpen
    {
      if !senderOpen {
        var connected: bool := *;
        senderOpen := connected;
      }
      ok := senderOpen;
    }

    /** One attempt to send; true when the message is finished, one way or the other. */
    method AttemptSendAndRecovery(m: Message) returns (finished: bool)
      requires Valid()
      modifies this`builders, this`events, this`released, this`closedStreams, this`senderOpen
      ensures Valid()
      ensures finished ==> Finished(m, old(builders), old(released), old(events))
      ensures !finished ==> builders == old(builders) && events == old(events) && released == old(released)
    {
      var sendOk: bool := *;
      if sendOk {
        PublishSent(m);
        return true;
      }
      senderOpen := false;
      var shuttingDown: bool := *;
      if shuttingDown {
        PublishError(m);
        return true;
      }
      var ok := InitializeSender();
      if !ok {
        PublishError(m);
        return true;
      }
      return false;
    }

    /** Every message that is taken off the queue is announced, and then reported sent or failed exactly once. */
    method SendMessage()
      requires Valid()
      modifies this
      ensures Valid() && nextTopic == old(nextTopic)
      ensures var (q, m) := Extract(old(Abs()));
              if m.None? then builders == q.builders && events == old(events) && released == old(released)
              else Finished(m.value, q.builders, old(released), old(events) + [Queued(m.value.topic)])
    {
      var m := ExtractOutgoingMessage();
      if m.None? {
        return;
      }
      events := events + [Queued(m.value.topic)];
      var ok := InitializeSender();
      if !ok {
        PublishError(m.value);
        return;
      }
      ghost var rest, ev := builders, events;
      for i := 0 to maxRetries
        invariant Valid() && builders == rest && events == ev && released == old(released)
                  && nextTopic == old(nextTopic)
      {
        var finished := AttemptSendAndRecovery(m.value);
        if finished {
          return;
        }
      }
      PublishError(m.value);
    }
  }

  // ----------------------------------------------------------------- wake-ups

  /** Where the loop that sends messages is. */
  datatype LoopState = Idle | AboutToExtract | Sending

  /** The queue with its work token, the threads that are about to put one in, and the loop. */
  datatype Wake = Wake(queue: Queue, token: bool, signallers: nat, loop: LoopState)

  datatype WakeStep =
    | Built(id: RequestId, ops: seq<Op>, closed: bool)
    | Signalled
    | TokenTaken
    | Extracted
    | ScrubbedQueue(streams: set<RequestId>)  // after a send that failed
    | SendDone

  ghost predicate WakeNext(w: Wake, s: WakeStep, w': Wake) {
    match s
    case Built(id, ops, closed) =>
      && OpsOK(ops)
      && var q := BuildMessage(w.queue, id, ops, closed);
         w' == w.(queue := q, signallers := if Empty(Last(q).contents) then w.signallers else w.signallers + 1)
    case Signalled => w.signallers > 0 && w' == w.(token := true, signallers := w.signallers - 1)
    case TokenTaken => w.loop == Idle && w.token && w' == w.(token := false, loop := AboutToExtract)
    case Extracted =>
      && w.loop == AboutToExtract
      && var (q, m) := Extract(w.queue);
         w' == w.(queue := q, token := w.token || |q.builders| > 0, loop := if m.Some? then Sending else Idle)
    case ScrubbedQueue(streams) =>
      w.loop == Sending && w' == w.(queue := w.queue.(builders := ScrubBuilders(w.queue.builders, streams)))
    case SendDone => w.loop == Sending && w' == w.(loop := Idle)
  }

  ghost predicate HasContent(ms: seq<Message>) {
    exists i :: 0 <= i < |ms| && !Empty(ms[i].contents)
  }

  /** Content in the queue will be noticed. */
  ghost predicate Awake(w: Wake) {
    HasContent(w.queue.builders) ==> w.token || w.signallers > 0 || w.loop == AboutToExtract
  }

  /** A scrub brings no content. */
  lemma {:induction false} ScrubAddsNothing(ms: seq<Message>, ids: set<RequestId>)
    requires HasContent(ScrubBuilders(ms, ids))
    ensures HasContent(ms)
    decreases |ms|
  {
    var init, m := ms[..|ms| - 1], ms[|ms| - 1];
    var s := ScrubMessage(m, ids);
    if !Empty(s.contents) {
      assert !Empty(m.contents) by {
        EmptyStaysEmpty(m.contents, ids);
      }
    } else {
      assert ScrubBuilders(ms, ids) == ScrubBuilders(init, ids);
      ScrubAddsNothing(init, ids);
      var i :| 0 <= i < |init| && !Empty(init[i].contents);
      assert ms[i] == init[i];
    }
  }

  lemma {:induction false} EmptyStaysEmpty(b: Contents, ids: set<RequestId>)
    ensures Empty(b) ==> Empty(Scrub(b, ids))
  {
  }

  lemma {:induction false} AwakeStep(w: Wake, s: WakeStep, w': Wake)
    requires Awake(w) && WakeNext(w, s, w')
    ensures Awake(w')
  {
    match s {
      case Built(id, ops, closed) =>
        if HasContent(w'.queue.builders) && Empty(Last(w'.queue).contents) {
          var i :| 0 <= i < |w'.queue.builders| && !Empty(w'.queue.builders[i].contents);
          assert w.queue.builders[i] == w'.queue.builders[i];
        }
      case ScrubbedQueue(streams) =>
        if HasContent(w'.queue.builders) {
          ScrubAddsNothing(w.queue.builders, streams);
        }
      case _ =>
    }
  }

  /** In every run, a builder with content always has a token, a thread about to signal, or the loop on its way. */
  lemma {:induction false} NoWakeUpIsLost(ws: seq<Wake>, steps: seq<WakeStep>)
    requires |ws| == |steps| + 1 && Awake(ws[0])
    requires forall i :: 0 <= i < |steps| ==> WakeNext(ws[i], steps[i], ws[i + 1])
    ensures Awake(ws[|ws| - 1])
    decreases |steps|
  {
    if steps != [] {
      var n := |steps| - 1;
      NoWakeUpIsLost(ws[..|ws| - 1], steps[..n]);
      AwakeStep(ws[n], steps[n], ws[n + 1]);
    }
  }
}
