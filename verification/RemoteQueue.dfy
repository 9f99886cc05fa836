/**
  The queue of remote items: a linked list whose nodes are recycled through a pool.
  The nodes from the head are proved to form a sequence that queue and consume change
  as a queue does, and the recycled nodes to be apart from it until an item that was put
  back is consumed again.
 */
module RemoteQueues {
  import opened Core

  datatype RemoteItem = RemoteItem(link: Cid, action: LinkAction, block: Option<Bytes>)

  class RemotedLinkedItem {
    var link: Cid
    var action: LinkAction
    var block: Option<Bytes>
    var next: RemotedLinkedItem?

    constructor ()
      ensures block == None && next == null
    {
      link, action, block, next := 0, Missing, None, null;
    }

    ghost function Item(): RemoteItem
      reads this`link, this`action, this`block
    {
      RemoteItem(link, action, block)
    }
  }

  /** The nodes hold these items, in order. */
  ghost predicate Holds(s: seq<RemotedLinkedItem>, items: seq<RemoteItem>)
    reads s`link, s`action, s`block
  {
    |items| == |s| && forall i :: 0 <= i < |s| ==> s[i].Item() == items[i]
  }

  /** Node i leads to node i + 1, and the last one to nothing. */
  ghost predicate LinkAt(s: seq<RemotedLinkedItem>, i: nat)
    requires i < |s|
    reads s[i]
  {
    s[i].next == if i + 1 < |s| then s[i + 1] else null
  }

  /** The nodes from the given one to the end of its list. */
  ghost predicate ChainFrom(h: RemotedLinkedItem?, s: seq<RemotedLinkedItem>)
    reads s
  {
    h == (if s == [] then null else s[0]) && forall i :: 0 <= i < |s| ==> LinkAt(s, i)
  }

  /** From the given node on, the list stays among these nodes and does not end. */
  ghost predicate Ring(h: RemotedLinkedItem?, ring: set<RemotedLinkedItem>)
    reads ring`next
  {
    h != null && h in ring && forall n {:trigger StaysIn(n, ring)} :: n in ring ==> StaysIn(n, ring)
  }

  ghost predicate StaysIn(n: RemotedLinkedItem, ring: set<RemotedLinkedItem>)
    reads n`next
  {
    n.next != null && n.next in ring
  }

  lemma {:induction false} ChainTail(h: RemotedLinkedItem?, s: seq<RemotedLinkedItem>)
    requires h != null && ChainFrom(h, s)
    ensures s != [] && s[0] == h && ChainFrom(h.next, s[1..])
  {
    assert LinkAt(s, 0);
    forall i | 0 <= i < |s[1..]| ensures LinkAt(s[1..], i) {
      assert LinkAt(s, i + 1);
    }
  }

  lemma {:induction false} ChainCons(h: RemotedLinkedItem, s: seq<RemotedLinkedItem>)
    requires ChainFrom(h.next, s)
    ensures ChainFrom(h, [h] + s)
  {
    forall i | 0 <= i < |[h] + s| ensures LinkAt([h] + s, i) {
      assert i > 0 ==> LinkAt(s, i - 1);
    }
  }

  lemma {:induction false} ChainLeavesRing(h: RemotedLinkedItem?, s: seq<RemotedLinkedItem>,
                                           ring: set<RemotedLinkedItem>)
    requires ChainFrom(h, s) && Ring(h, ring)
    ensures false
    decreases |s|
  {
    ChainTail(h, s);
    assert StaysIn(h, ring);
    ChainLeavesRing(h.next, s[1..], ring);
  }

  /** Among nodes that lead nowhere else, a list ends exactly if it does not lead back into itself. */
  lemma {:induction false} EndsUnlessRing(h: RemotedLinkedItem?, nodes: set<RemotedLinkedItem>)
    requires h != null ==> h in nodes
    requires forall n :: n in nodes && n.next != null ==> n.next in nodes
    ensures (exists s :: ChainFrom(h, s)) <==> !exists ring :: ring <= nodes && Ring(h, ring)
  {
    if s, ring :| ChainFrom(h, s) && Ring(h, ring) {
      ChainLeavesRing(h, s, ring);
    }
    if !exists s :: ChainFrom(h, s) {
      assert h != null by {
        assert ChainFrom(null, []);
      }
      var ring := set n | n in nodes && !exists s :: ChainFrom(n, s);
      forall n | n in ring ensures StaysIn(n, ring) {
        assert ChainFrom(null, []);
        if s :| ChainFrom(n.next, s) {
          ChainCons(n, s);
        }
      }
      assert Ring(h, ring);
    }
  }

  ghost function NodesOf(s: seq<RemotedLinkedItem>): set<RemotedLinkedItem> {
    set n | n in s
  }

  /** The nodes are a list that holds these items. */
  ghost predicate IsList(s: seq<RemotedLinkedItem>, items: seq<RemoteItem>)
    reads s
  {
    Distinct(s) && Holds(s, items) && forall i :: 0 <= i < |s| ==> LinkAt(s, i)
  }

  lemma {:induction false} ListTail(s: seq<RemotedLinkedItem>, items: seq<RemoteItem>)
    requires s != [] && IsList(s, items)
    ensures IsList(s[1..], items[1..]) && s[0] !in s[1..] && s[0].Item() == items[0]
    ensures s[0].next == if |s| == 1 then null else s[1]
  {
    assert LinkAt(s, 0);
    forall i | 0 <= i < |s[1..]| ensures LinkAt(s[1..], i) {
      assert LinkAt(s, i + 1);
    }
  }

  lemma {:induction false} ListPrepend(n: RemotedLinkedItem, s: seq<RemotedLinkedItem>, items: seq<RemoteItem>)
    requires IsList(s, items) && n !in s && n.next == if s == [] then null else s[0]
    ensures IsList([n] + s, [n.Item()] + items)
  {
    forall i | 0 <= i < |[n] + s| ensures LinkAt([n] + s, i) {
      assert i > 0 ==> LinkAt(s, i - 1);
    }
  }

  /** A list whose last node leads to one more node. */
  lemma {:induction false} ListAppend(s: seq<RemotedLinkedItem>, items: seq<RemoteItem>, n: RemotedLinkedItem)
    requires Distinct(s) && Holds(s, items) && n !in s && n.next == null
    requires forall i :: 0 <= i < |s| - 1 ==> LinkAt(s, i)
    requires s != [] ==> s[|s| - 1].next == n
    ensures IsList(s + [n], items + [n.Item()])
  {
    forall i | 0 <= i < |s + [n]| ensures LinkAt(s + [n], i) {
      assert i < |s| - 1 ==> LinkAt(s, i);
    }
  }

  /** The block bytes held by a sequence of items. */
  function Held(s: seq<RemoteItem>): nat {
    if s == [] then 0 else Held(s[..|s| - 1]) + Size(s[|s| - 1].block)
  }

  lemma {:induction false} HeldConcat(a: seq<RemoteItem>, b: seq<RemoteItem>)
    ensures Held(a + b) == Held(a) + Held(b)
    decreases |b|
  {
    if b == [] {
      assert a + b == a;
    } else {
      assert (a + b)[..|a + b| - 1] == a + b[..|b| - 1];
      HeldConcat(a, b[..|b| - 1]);
    }
  }

  lemma {:induction false} HeldHead(s: seq<RemoteItem>)
    requires s != []
    ensures Held(s) == Size(s[0].block) + Held(s[1..])
  {
    assert s == s[..1] + s[1..];
    HeldConcat(s[..1], s[1..]);
    assert s[..1][..0] == [];
  }

  /** An entry announced the block of a link. */
  predicate Announced(md: seq<Metadatum>, link: Cid) {
    Metadatum(link, Present) in md
  }

  function IngestedEntry(entry: Metadatum, blocks: map<Cid, Bytes>, isDuplicate: bool): RemoteItem {
    RemoteItem(entry.link, entry.action,
               if entry.action == Present && !isDuplicate && entry.link in blocks
               then Some(blocks[entry.link]) else None)
  }

  /** The items for a response: a block goes with the first entry that announces it. */
  function Ingested(md: seq<Metadatum>, blocks: map<Cid, Bytes>): (r: seq<RemoteItem>)
    ensures |r| == |md|
  {
    seq(|md|, i requires 0 <= i < |md| => IngestedEntry(md[i], blocks, Announced(md[..i], md[i].link)))
  }

  lemma IngestedStep(md: seq<Metadatum>, blocks: map<Cid, Bytes>, k: nat)
    requires k < |md|
    ensures Ingested(md, blocks)[..k + 1] == Ingested(md, blocks)[..k]
            + [IngestedEntry(md[k], blocks, Announced(md[..k], md[k].link))]
    ensures forall c :: Announced(md[..k + 1], c) <==> Announced(md[..k], c) || md[k] == Metadatum(c, Present)
  {
    assert md[..k + 1] == md[..k] + [md[k]];
  }

  predicate Distinct<T(==)>(s: seq<T>) {
    forall i, j :: 0 <= i < j < |s| ==> s[i] != s[j]
  }

  /** How the last consumed item relates to the queue. */
  datatype LastConsumed = NoLast | Attached(item: RemoteItem) | Detached(item: RemoteItem) | Requeued

  /** The queue with more items; what is put behind a tail that is cut off is lost. */
  function Enqueued(contents: seq<RemoteItem>, cutOff: bool, added: seq<RemoteItem>): seq<RemoteItem> {
    if contents != [] && cutOff then contents else contents + added
  }

  /** New items start a new list when there is none. */
  predicate StaysCutOff(contents: seq<RemoteItem>, cutOff: bool, added: seq<RemoteItem>) {
    cutOff && (contents != [] || added == [])
  }

  /** A new list does not follow the last consumed node. */
  function LastAfter(last: LastConsumed, contents: seq<RemoteItem>, added: seq<RemoteItem>): LastConsumed {
    if contents == [] && added != [] && last.Attached? then Detached(last.item) else last
  }

  lemma {:induction false} EnqueuedStep(c0: seq<RemoteItem>, cut0: bool, last0: LastConsumed, added: seq<RemoteItem>,
                                        k: nat)
    requires k < |added|
    ensures Enqueued(Enqueued(c0, cut0, added[..k]), StaysCutOff(c0, cut0, added[..k]), [added[k]]) ==
            Enqueued(c0, cut0, added[..k + 1])
    ensures StaysCutOff(Enqueued(c0, cut0, added[..k]), StaysCutOff(c0, cut0, added[..k]), [added[k]]) ==
            StaysCutOff(c0, cut0, added[..k + 1])
    ensures LastAfter(LastAfter(last0, c0, added[..k]), Enqueued(c0, cut0, added[..k]), [added[k]]) ==
            LastAfter(last0, c0, added[..k + 1])
  {
    assert added[..k + 1] == added[..k] + [added[k]];
    Associative(c0, added[..k], [added[k]]);
  }

  /** The queue before new nodes are put at its end, and whether they can be. */
  datatype Before = Before(spine: seq<RemotedLinkedItem>, head: RemotedLinkedItem?, tail: RemotedLinkedItem?,
                           contents: seq<RemoteItem>, cutOff: bool, last: LastConsumed, takes: bool, apart: bool)

  /**
    Nodes with the items they hold, of which the first are queued already; apart if none is or
    becomes a recycled one.
   */
  datatype Batch = Batch(nodes: seq<RemotedLinkedItem>, items: seq<RemoteItem>, done: nat, apart: bool)

  /** The recycled nodes of all requests. */
  class NodePool {
    var items: set<RemotedLinkedItem>
    ghost var spoiled: bool  // a node was recycled while it was in use

    constructor ()
      ensures items == {} && !spoiled
    {
      items, spoiled := {}, false;
    }
  }

  class RemoteQueue {
    const pool: NodePool
    var head: RemotedLinkedItem?
    var tail: RemotedLinkedItem?
    var dataSize: int
    var lastConsumed: RemotedLinkedItem?

    ghost var spine: seq<RemotedLinkedItem>  // the nodes from the head
    ghost var contents: seq<RemoteItem>      // what they hold
    ghost var cutOff: bool                   // the tail is not reachable from the head or the last consumed node
    ghost var adrift: nat                    // the bytes of nodes that were cut off

    /** The list from the head is the spine, and dataSize counts the bytes it holds. */
    ghost predicate Valid()
      reads this, spine, lastConsumed
    {
      && IsList(spine, contents)
      && (spine == [] <==> head == null)
      && (spine != [] ==> head == spine[0] && (!cutOff ==> tail == spine[|spine| - 1]))
      && (cutOff ==> tail != null && tail !in spine)
      && dataSize == Held(contents) + adrift
      && LastOK()
    }

    /** The last consumed node is the head again, or it still leads to the head, or to nothing. */
    ghost predicate LastOK()
      reads this, spine, lastConsumed
    {
      lastConsumed != null ==>
        && lastConsumed.block == None
        && (lastConsumed != head ==>
              && lastConsumed !in spine
              && (lastConsumed.next == head || lastConsumed.next == null)
              && (cutOff ==> tail != lastConsumed)
              && (spine == [] && !cutOff ==> tail == lastConsumed))
    }

    ghost function Last(): LastConsumed
      reads this, lastConsumed
    {
      if lastConsumed == null then NoLast
      else if lastConsumed == head then Requeued
      else if lastConsumed.next == head then Attached(lastConsumed.Item())
      else Detached(lastConsumed.Item())
    }

    /** A node that is not in use and not recycled. */
    ghost predicate Spare(n: RemotedLinkedItem)
      reads this, pool
    {
      Unused(n) && n !in pool.items
    }

    ghost predicate Unused(n: RemotedLinkedItem)
      reads this
    {
      n !in spine && n != lastConsumed && (cutOff ==> n != tail)
    }

    /** No recycled node holds a block or is in use, and none has ever been. */
    ghost predicate PoolApart()
      reads this, pool, pool.items
    {
      !pool.spoiled && forall n :: n in pool.items ==> n.block == None && Unused(n)
    }

    /** The nodes in use; the tail of an empty list is not, since it is never looked at. */
    ghost function Used(): set<RemotedLinkedItem>
      reads this
    {
      NodesOf(spine) + Node(lastConsumed) + (if cutOff then Node(tail) else {})
    }

    /** The nodes in use and the recycled ones. */
    ghost function Repr(): set<RemotedLinkedItem>
      reads this, pool
    {
      Used() + pool.items
    }

    /** No node comes into use, and only nodes that were in use are recycled. */
    twostate predicate Shrinks()
      reads this, pool
    {
      Used() <= old(Used()) && pool.items <= old(Repr())
    }

    /** Whatever happens to other nodes does not matter to the queue. */
    twostate lemma {:induction false} Undisturbed()
      requires old(Valid()) && unchanged(this) && unchanged(old(Used()))
      ensures Valid() && Last() == old(Last()) && Used() == old(Used())
    {
    }

    lemma {:induction false} ApartIs()
      ensures PoolApart() <==> !pool.spoiled && pool.items !! Used() && forall n :: n in pool.items ==> n.block == None
    {
    }

    /** The node that the next one is linked to. */
    ghost function End(): set<RemotedLinkedItem>
      reads this
    {
      if head == null then {} else Node(tail)
    }

    static ghost function Node(n: RemotedLinkedItem?): set<RemotedLinkedItem> {
      if n == null then {} else {n}
    }

    constructor (pool: NodePool)
      ensures this.pool == pool && Valid() && contents == [] && Last() == NoLast && !cutOff && adrift == 0
      ensures head == null && tail == null && Used() == {}
    {
      this.pool := pool;
      head, tail, dataSize, lastConsumed := null, null, 0, null;
      spine, contents, cutOff, adrift := [], [], false, 0;
    }

    method First() returns (item: Option<RemoteItem>)
      ensures item == if head == null then None else Some(head.Item())
      ensures Valid() ==> item == if contents == [] then None else Some(contents[0])
    {
      if head == null {
        return None;
      }
      return Some(RemoteItem(head.link, head.action, head.block));
    }

    /**
      Take the first item off; its node stays at hand, without the block.  The recycled nodes
      stay apart unless the item was one that had been put back.
     */
    method Consume() returns (buffered: int)
      requires head != null
      modifies this`head, this`dataSize, this`lastConsumed, pool, this`spine, this`contents, head`block
      ensures lastConsumed == old(head) && head == old(head.next) && lastConsumed.block == None
      ensures buffered == dataSize == old(dataSize) - Size(old(head.block))
      ensures pool.items == old(pool.items) + Node(old(lastConsumed))
              && pool.spoiled == (old(pool.spoiled) || old(lastConsumed) == old(head))
      ensures old(Valid()) ==>
                && Valid() && contents == old(contents)[1..] && spine == old(spine)[1..]
                && Last() == Attached(old(contents)[0].(block := None)) && dataSize >= 0
                && (old(PoolApart() && Last() != Requeued) ==> PoolApart())
                && Shrinks()
    {
      Recycle();
      buffered := TakeHead();
    }

    /** The node that was kept for a retry goes back to the pool. */
    method Recycle()
      modifies this`lastConsumed, pool
      ensures lastConsumed == null && pool.items == old(pool.items) + Node(old(lastConsumed))
      ensures pool.spoiled == (old(pool.spoiled) || (old(lastConsumed) != null && old(lastConsumed) == head))
      ensures old(Valid()) ==> Valid() && (old(PoolApart() && Last() != Requeued) ==> PoolApart())
    {
      if lastConsumed != null {
        pool.spoiled := pool.spoiled || lastConsumed == head;
        pool.items := pool.items + {lastConsumed};
        lastConsumed := null;
      }
    }

    method TakeHead() returns (buffered: int)
      requires head != null && lastConsumed == null
      modifies this`head, this`dataSize, this`lastConsumed, this`spine, this`contents, head`block
      ensures lastConsumed == old(head) && head == old(head.next) && lastConsumed.block == None
      ensures buffered == dataSize == old(dataSize) - Size(old(head.block))
      ensures old(Valid()) ==>
                && Valid() && contents == old(contents)[1..] && spine == old(spine)[1..]
                && Last() == Attached(old(contents)[0].(block := None)) && dataSize >= 0
    {
      ghost var ok := Valid();
      if ok {
        HeldHead(contents);
        ListTail(spine, contents);
      }
      dataSize := dataSize - Size(head.block);
      head.block := None;
      lastConsumed := head;
      head := head.next;
      if ok {
        spine, contents := spine[1..], contents[1..];
      }
      buffered := dataSize;
    }

    /** Recycle everything, when the list from the head ends. */
    method Clear(ghost chain: seq<RemotedLinkedItem>)
      requires ChainFrom(head, chain)
      modifies this, pool, chain`block
      ensures head == null && lastConsumed == null
      ensures pool.items == old(pool.items) + NodesOf(chain) + old(Node(lastConsumed))
      ensures old(Valid()) ==>
                && Valid() && contents == [] && Last() == NoLast && !cutOff
                && dataSize == adrift == old(adrift) && Shrinks()
      ensures old(Valid() && PoolApart() && Last() != Requeued) ==> PoolApart()
    {
      ConsumeAll(chain);
      Recycle();
      cutOff := false;
    }

    method ConsumeAll(ghost chain: seq<RemotedLinkedItem>)
      requires ChainFrom(head, chain)
      modifies this`head, this`dataSize, this`lastConsumed, this`spine, this`contents, pool, chain`block
      ensures head == null
      ensures pool.items + Node(lastConsumed) == old(pool.items) + NodesOf(chain) + old(Node(lastConsumed))
      ensures old(Valid()) ==> Emptying(old(PoolApart() && Last() != Requeued), old(Repr()))
    {
      ghost var ok, clean, k := Valid(), PoolApart() && Last() != Requeued, 0;
      assert chain[0..] == chain;
      while head != null
        invariant k <= |chain| && ChainFrom(head, chain[k..])
        invariant pool.items + Node(lastConsumed) == old(pool.items) + NodesOf(chain[..k]) + old(Node(lastConsumed))
        invariant ok ==> Emptying(clean, old(Repr()))
        decreases |chain| - k
      {
        assert head == chain[k];
        assert chain[k..][1..] == chain[k + 1..] && chain[..k + 1] == chain[..k] + [chain[k]];
        ConsumeNext(chain[k..], ok, clean, old(Repr()));
        k := k + 1;
      }
      assert chain[..k] == chain;
    }

    /**
      While everything is consumed: a proper list, no node is left out, and recycled nodes that
      were out of use stay so.
     */
    ghost predicate Emptying(clean: bool, repr0: set<RemotedLinkedItem>)
      reads this, spine, lastConsumed, pool, pool.items
    {
      Valid() && Repr() <= repr0 && (clean ==> PoolApart() && Last() != Requeued)
    }

    method ConsumeNext(ghost rest: seq<RemotedLinkedItem>, ghost ok: bool, ghost clean: bool,
                       ghost repr0: set<RemotedLinkedItem>)
      requires head != null && ChainFrom(head, rest) && (ok ==> Emptying(clean, repr0))
      modifies this`head, this`dataSize, this`lastConsumed, this`spine, this`contents, pool, head`block
      ensures ChainFrom(head, rest[1..]) && lastConsumed == old(head)
      ensures pool.items + Node(lastConsumed) == old(pool.items) + old(Node(lastConsumed)) + {old(head)}
      ensures ok ==> Emptying(clean, repr0)
    {
      ChainTail(head, rest);
      var _ := Consume();
      forall i | 0 <= i < |rest| - 1 ensures LinkAt(rest[1..], i) {
        assert old(LinkAt(rest[1..], i));
      }
    }

    /** A list that leads back into itself stays one, however often it is consumed. */
    method ConsumeTimes(n: nat, ghost ring: set<RemotedLinkedItem>)
      requires Ring(head, ring)
      modifies this`head, this`dataSize, this`lastConsumed, this`spine, this`contents, pool, ring`block
      ensures Ring(head, ring)
    {
      for k := 0 to n
        invariant Ring(head, ring)
      {
        ConsumeOne(ring);
      }
    }

    method ConsumeOne(ghost ring: set<RemotedLinkedItem>)
      requires Ring(head, ring)
      modifies this`head, this`dataSize, this`lastConsumed, this`spine, this`contents, pool, head`block
      ensures Ring(head, ring)
    {
      assert StaysIn(head, ring);
      var _ := Consume();
    }

    /** A node that can be put at the end. */
    ghost predicate Takes(n: RemotedLinkedItem)
      reads this, spine, lastConsumed, n
    {
      Valid() && Unused(n) && n.next == null
    }

    /** The nodes and fields after one more node is queued, whatever state the queue is in. */
    method LinkIn(newItem: RemotedLinkedItem)
      requires head != null ==> tail != null
      modifies this`head, this`tail, this`dataSize, End()`next
      ensures tail == newItem && head == (if old(head) == null then newItem else old(head))
      ensures old(head) != null ==> old(tail).next == newItem
      ensures dataSize == old(dataSize) + Size(newItem.block)
    {
      dataSize := dataSize + Size(newItem.block);
      if head == null {
        tail := newItem;
        head := tail;
      } else {
        tail.next := newItem;
        tail := tail.next;
      }
    }

    /** Append one node; a node that is in use already may end up leading to itself. */
    method Append(newItem: RemotedLinkedItem)
      requires head != null ==> tail != null
      modifies this`head, this`tail, this`dataSize, this`spine, this`contents, this`cutOff, this`adrift, End()`next
      ensures tail == newItem && head == (if old(head) == null then newItem else old(head))
      ensures dataSize == old(dataSize) + Size(newItem.block)
      ensures (spine == old(spine) || spine == old(spine) + [newItem]) && (cutOff ==> old(cutOff))
      ensures old(Takes(newItem)) ==>
                Valid() && newItem.next == null && Grown(old(contents), old(cutOff), old(Last()), [newItem.Item()])
    {
      ghost var ok, adding := Takes(newItem), !(head != null && cutOff);
      LinkIn(newItem);
      if ok && adding {
        Lengthen(newItem);
      } else if ok {
        Strand(newItem);
      }
    }

    /** What is put behind a tail that is cut off only adds to the bytes that are counted. */
    ghost method Strand(newItem: RemotedLinkedItem)
      requires IsList(spine, contents) && spine != [] && head == spine[0] && cutOff
      requires tail == newItem && newItem !in spine && newItem != lastConsumed
      requires dataSize == Held(contents) + adrift + Size(newItem.block)
      requires lastConsumed != null ==> lastConsumed.block == None
      requires lastConsumed != null && lastConsumed != head ==>
                 lastConsumed !in spine && (lastConsumed.next == head || lastConsumed.next == null)
      modifies this`adrift
      ensures Valid()
    {
      adrift := adrift + Size(newItem.block);
    }

    /** Nodes that were not in use before another one was put at the end are not in use now, and lead where they led. */
    twostate lemma {:induction false} StillUnused(nodes: set<RemotedLinkedItem>)
      requires old(Valid()) && tail != null && lastConsumed == old(lastConsumed)
      requires (spine == old(spine) || spine == old(spine) + [tail]) && (cutOff ==> old(cutOff))
      requires forall n :: n in nodes ==> old(Unused(n)) && n != tail
      requires forall n :: n in nodes && n.next != old(n.next) ==> old(head) != null && n == old(tail)
      ensures forall n :: n in nodes ==> Unused(n) && n.next == old(n.next)
    {
    }

    /** The spine with the new last node in it. */
    ghost method Lengthen(newItem: RemotedLinkedItem)
      modifies this`spine, this`contents, this`cutOff
      requires Distinct(spine) && newItem !in spine && newItem.next == null && tail == newItem
      requires forall i :: 0 <= i < |spine| - 1 ==> LinkAt(spine, i)
      requires spine != [] ==> spine[|spine| - 1].next == newItem && head == spine[0]
      requires spine == [] ==> head == newItem
      requires Holds(spine, contents) && dataSize == Held(contents) + adrift + Size(newItem.block)
      requires lastConsumed != null ==> lastConsumed.block == None && lastConsumed != newItem
      requires lastConsumed != null && lastConsumed != head ==>
                 lastConsumed !in spine && (lastConsumed.next == head || lastConsumed.next == null)
      ensures Valid() && !cutOff && spine == old(spine) + [newItem] && contents == old(contents) + [newItem.Item()]
    {
      ListAppend(spine, contents, newItem);
      assert (contents + [newItem.Item()])[..|contents|] == contents;
      spine, contents, cutOff := spine + [newItem], contents + [newItem.Item()], false;
    }

    /** The nodes can be put at the end, one after the other. */
    ghost predicate TakesAll(newItems: seq<RemotedLinkedItem>, added: seq<RemoteItem>)
      reads this, spine, lastConsumed, newItems
    {
      && Valid() && Distinct(newItems) && Holds(newItems, added)
      && forall n :: n in newItems ==> Unused(n) && n.next == null
    }

    /** Append the new nodes in order: nodes that are not in use extend the queue by what they hold. */
    method Queue(newItems: seq<RemotedLinkedItem>, ghost added: seq<RemoteItem>) returns (buffered: int)
      requires head != null ==> tail != null
      modifies this`head, this`tail, this`dataSize, this`spine, this`contents, this`cutOff, this`adrift, End()`next,
               newItems`next
      ensures buffered == dataSize && (head != null ==> tail != null)
              && Within(old(spine), newItems, old(head), old(tail))
      ensures old(TakesAll(newItems, added)) ==> Valid() && Grown(old(contents), old(cutOff), old(Last()), added)
      ensures old(TakesAll(newItems, added) && PoolApart()) && (forall n :: n in newItems ==> n !in pool.items) ==>
              PoolApart()
    {
      ghost var was := Before(spine, head, tail, contents, cutOff, Last(), TakesAll(newItems, added),
                              PoolApart() && forall n :: n in newItems ==> n !in pool.items);
      assert added[..0] == [];
      QueueAll(was, newItems, added);
      assert was.takes ==> added[..|newItems|] == added;
      buffered := dataSize;
    }

    method QueueAll(ghost was: Before, newItems: seq<RemotedLinkedItem>, ghost added: seq<RemoteItem>)
      requires Queued(was, newItems, added, 0)
      modifies this`head, this`tail, this`dataSize, this`spine, this`contents, this`cutOff, this`adrift, End()`next,
               newItems`next
      ensures Queued(was, newItems, added, |newItems|)
    {
      for k := 0 to |newItems|
        invariant Queued(was, newItems, added, k)
        invariant if k > 0 then tail == newItems[k - 1] else tail == old(tail) && head == old(head)
      {
        QueueOne(was, newItems, added, k);
      }
    }

    /** So far the first k nodes are queued. */
    ghost predicate Queued(was: Before, newItems: seq<RemotedLinkedItem>, added: seq<RemoteItem>, k: nat)
      reads this, spine, lastConsumed, newItems, pool, pool.items
    {
      && (head != null ==> tail != null) && Within(was.spine, newItems, was.head, was.tail)
      && (was.takes ==>
            Waiting(Batch(newItems, added, k, was.apart)) && Grown(was.contents, was.cutOff, was.last, added[..k]))
    }

    /** The list has only gained new nodes. */
    ghost predicate Within(s0: seq<RemotedLinkedItem>, newItems: seq<RemotedLinkedItem>, head0: RemotedLinkedItem?,
                           tail0: RemotedLinkedItem?)
      reads this
    {
      && (tail == tail0 || tail in newItems) && (head == head0 || head in newItems)
      && forall n :: n in spine ==> n in s0 || n in newItems
    }

    /** The queue is what it was with the items added. */
    ghost predicate Grown(c0: seq<RemoteItem>, cut0: bool, last0: LastConsumed, added: seq<RemoteItem>)
      reads this, lastConsumed
    {
      contents == Enqueued(c0, cut0, added) && cutOff == StaysCutOff(c0, cut0, added)
        && Last() == LastAfter(last0, c0, added)
    }

    /** The nodes that are not done can be put at the end. */
    ghost predicate Waiting(b: Batch)
      reads this, spine, lastConsumed, b.nodes, pool, pool.items
    {
      && b.done <= |b.nodes| == |b.items| && Valid() && Distinct(b.nodes) && Holds(b.nodes, b.items)
      && (forall j :: b.done <= j < |b.nodes| ==> Unused(b.nodes[j]) && b.nodes[j].next == null)
      && (b.apart ==> PoolApart() && forall n :: n in b.nodes ==> n !in pool.items)
    }

    method QueueOne(ghost was: Before, newItems: seq<RemotedLinkedItem>, ghost added: seq<RemoteItem>, k: nat)
      requires k < |newItems| && Queued(was, newItems, added, k)
      modifies this`head, this`tail, this`dataSize, this`spine, this`contents, this`cutOff, this`adrift, End()`next
      ensures Queued(was, newItems, added, k + 1)
      ensures tail == newItems[k] && head == if old(head) == null then newItems[k] else old(head)
    {
      if was.takes {
        EnqueuedStep(was.contents, was.cutOff, was.last, added, k);
      }
      AppendAt(newItems, added, k, was.apart);
    }

    method AppendAt(newItems: seq<RemotedLinkedItem>, ghost added: seq<RemoteItem>, k: nat, ghost apart: bool)
      requires k < |newItems| && (head != null ==> tail != null)
      modifies this`head, this`tail, this`dataSize, this`spine, this`contents, this`cutOff, this`adrift, End()`next
      ensures tail == newItems[k] && head == if old(head) == null then newItems[k] else old(head)
      ensures spine == old(spine) || spine == old(spine) + [newItems[k]]
      ensures old(Waiting(Batch(newItems, added, k, apart))) ==>
                Waiting(Batch(newItems, added, k + 1, apart))
                  && Grown(old(contents), old(cutOff), old(Last()), [added[k]])
    {
      ghost var ok := Waiting(Batch(newItems, added, k, apart));
      assert ok ==> newItems[k].Item() == added[k];
      Append(newItems[k]);
      if ok {
        StillWaiting(Batch(newItems, added, k, apart));
      }
    }

    /** The first of the waiting nodes was put at the end. */
    twostate lemma {:induction false} StillWaiting(b: Batch)
      requires b.done < |b.nodes| && old(Waiting(b)) && Valid() && tail == b.nodes[b.done]
      requires lastConsumed == old(lastConsumed) && pool.items == old(pool.items) && pool.spoiled == old(pool.spoiled)
      requires (spine == old(spine) || spine == old(spine) + [tail]) && (cutOff ==> old(cutOff))
      requires forall n :: n in b.nodes || n in pool.items ==> n.Item() == old(n.Item())
      requires forall n :: (n in b.nodes || n in pool.items) && n.next != old(n.next) ==>
                 old(head) != null && n == old(tail)
      ensures Waiting(b.(done := b.done + 1))
    {
      assert Holds(b.nodes, b.items);
      StillUnused((set j | b.done < j < |b.nodes| :: b.nodes[j]) + if b.apart then pool.items else {});
    }

    /** The head after retryLast, whatever state the queue is in. */
    method Relink()
      modifies this`head
      ensures head == if lastConsumed == null then old(head) else lastConsumed
    {
      if lastConsumed != null {
        head := lastConsumed;
      }
    }

    /**
      Put the last consumed node back in front.  The queue is kept behind it exactly when
      the node still leads to the head; otherwise everything queued is cut off.
     */
    method RetryLast()
      requires Valid()
      modifies this`head, this`spine, this`contents, this`cutOff, this`adrift
      ensures Valid() && (old(PoolApart()) ==> PoolApart()) && (lastConsumed != null ==> Last() == Requeued)
      ensures Shrinks()
      ensures match old(Last())
              case Attached(item) => contents == [item] + old(contents) && spine == [lastConsumed] + old(spine)
                && cutOff == old(cutOff)
              case Detached(item) => contents == [item] && spine == [lastConsumed] && cutOff
                && adrift == old(adrift) + Held(old(contents))
              case _ => contents == old(contents) && spine == old(spine) && cutOff == old(cutOff)
    {
      ghost var last := Last();
      if last.Attached? {
        PushFront();
      } else if last.Detached? {
        StartOver();
      }
      Relink();
    }

    ghost method PushFront()
      requires Valid() && Last().Attached?
      modifies this`spine, this`contents
      ensures spine == [lastConsumed] + old(spine) && contents == [lastConsumed.Item()] + old(contents)
      ensures IsList(spine, contents) && dataSize == Held(contents) + adrift
      ensures if cutOff then tail !in spine else tail == spine[|spine| - 1]
    {
      ghost var c := [lastConsumed.Item()] + contents;
      HeldHead(c);
      assert c[1..] == contents;
      ListPrepend(lastConsumed, spine, contents);
      spine, contents := [lastConsumed] + spine, c;
    }

    ghost method StartOver()
      requires Valid() && Last().Detached?
      modifies this`spine, this`contents, this`cutOff, this`adrift
      ensures spine == [lastConsumed] && contents == [lastConsumed.Item()] && cutOff && tail != null && tail !in spine
      ensures IsList(spine, contents) && adrift == old(adrift) + Held(old(contents))
              && dataSize == Held(contents) + adrift
    {
      adrift := adrift + Held(contents);
      spine, contents, cutOff := [lastConsumed], [lastConsumed.Item()], true;
      assert contents[..0] == [];
    }

    /** A retried node that is consumed again is recycled while it is still held for a retry. */
    method ConsumeRetried()
      requires Valid() && Last().Attached?
      modifies this`head, this`dataSize, this`lastConsumed, pool, this`spine, this`contents, this`cutOff, this`adrift,
               lastConsumed`block
      ensures Valid() && contents == old(contents)
      ensures lastConsumed == old(lastConsumed) && lastConsumed in pool.items && pool.spoiled
    {
      RetryLast();
      var _ := Consume();
    }

    /** A node from the pool, whatever state the queue is in; its block is left as it is. */
    method Reuse(pick: RemotedLinkedItem)
      requires pick in pool.items
      modifies pool`items, pick`next
      ensures pick.next == null && pool.items == old(pool.items) - {pick}
    {
      pool.items := pool.items - {pick};
      pick.next := null;
    }

    /** A given node from the pool, or a new one. */
    method NewRemote(pick: RemotedLinkedItem?) returns (newItem: RemotedLinkedItem)
      requires pick != null ==> pick in pool.items
      modifies pool`items, pool.items`next
      ensures newItem.next == null && pool.items <= old(pool.items)
      ensures if pick == null then fresh(newItem) && newItem.block == None && pool.items == old(pool.items)
              else newItem == pick && pool.items == old(pool.items) - {pick} && newItem.block == old(pick.block)
      ensures old(Valid() && PoolApart()) ==> Valid() && PoolApart() && Spare(newItem) && newItem.block == None
    {
      if pick == null {
        newItem := new RemotedLinkedItem();
      } else {
        newItem := pick;
        Reuse(pick);
      }
    }

    /** Write a metadata entry to a node; only the first entry that announces a block sets it. */
    static method FillItem(newItem: RemotedLinkedItem, entry: Metadatum, blocks: map<Cid, Bytes>, isDuplicate: bool)
      modifies newItem`link, newItem`action, newItem`block
      ensures newItem.link == entry.link && newItem.action == entry.action
      ensures newItem.block == if entry.action == Present && !isDuplicate
                               then (if entry.link in blocks then Some(blocks[entry.link]) else None)
                               else old(newItem.block)
    {
      newItem.link := entry.link;
      newItem.action := entry.action;
      if entry.action == Present {
        if !isDuplicate {
          newItem.block := if entry.link in blocks then Some(blocks[entry.link]) else None;
        }
      }
    }

    /** The nodes for the first entries of a response, ready to be queued. */
    ghost predicate Prepared(items: seq<RemotedLinkedItem>, added: seq<RemoteItem>)
      reads this, spine, lastConsumed, pool, pool.items, items
    {
      && Valid() && PoolApart() && Distinct(items) && Holds(items, added)
      && forall n :: n in items ==> Spare(n) && n.next == null
    }

    /** A node for one more item; nothing keeps the pool from handing out one that is in use, but PoolApart. */
    method TakeNode(items: seq<RemotedLinkedItem>, pick: RemotedLinkedItem?, ghost added: seq<RemoteItem>)
      returns (newItem: RemotedLinkedItem)
      requires pick != null ==> pick in pool.items
      modifies pool`items, pool.items`next
      ensures pool.items <= old(pool.items) && (fresh(newItem) || newItem in old(pool.items))
      ensures old(Prepared(items, added)) ==> Prepared(items, added) && Ready(items, newItem)
    {
      ghost var ok := Prepared(items, added);
      newItem := NewRemote(pick);
      assert ok ==> forall n :: n in items ==> Spare(n) && n.next == null && n != newItem;
    }

    /** A node that can become one of the items. */
    ghost predicate Ready(items: seq<RemotedLinkedItem>, n: RemotedLinkedItem)
      reads this, pool, n
    {
      Spare(n) && n !in items && n.next == null && n.block == None
    }

    method WriteNode(items: seq<RemotedLinkedItem>, newItem: RemotedLinkedItem, entry: Metadatum,
                     blocks: map<Cid, Bytes>, isDuplicate: bool, ghost added: seq<RemoteItem>)
      modifies newItem`link, newItem`action, newItem`block
      ensures old(Prepared(items, added) && Ready(items, newItem)) ==>
                Prepared(items + [newItem], added + [IngestedEntry(entry, blocks, isDuplicate)])
    {
      ghost var ok := Prepared(items, added) && Ready(items, newItem);
      FillItem(newItem, entry, blocks, isDuplicate);
      if ok {
        assert Valid();
        assert Holds(items + [newItem], added + [newItem.Item()]);
      }
    }

    method AddItem(items: seq<RemotedLinkedItem>, pick: RemotedLinkedItem?, entry: Metadatum, blocks: map<Cid, Bytes>,
                   isDuplicate: bool, ghost added: seq<RemoteItem>)
      returns (newItem: RemotedLinkedItem)
      requires pick != null ==> pick in pool.items
      modifies pool`items, pool.items
      ensures pool.items <= old(pool.items) && (fresh(newItem) || newItem in old(pool.items))
      ensures old(Prepared(items, added)) ==>
              Prepared(items + [newItem], added + [IngestedEntry(entry, blocks, isDuplicate)])
    {
      newItem := TakeNode(items, pick, added);
      WriteNode(items, newItem, entry, blocks, isDuplicate, added);
    }

    /** The nodes for a response. */
    method NewItems(md: seq<Metadatum>, blocks: map<Cid, Bytes>) returns (items: seq<RemotedLinkedItem>)
      modifies pool`items, pool.items
      ensures pool.items <= old(pool.items) && |items| == |md| && forall n :: n in items ==>
              fresh(n) || n in old(pool.items)
      ensures old(Valid() && PoolApart()) ==> Prepared(items, Ingested(md, blocks))
    {
      ghost var ok := Valid() && PoolApart();
      var duplicates: set<Cid> := {};
      items := [];
      for k := 0 to |md|
        invariant pool.items <= old(pool.items) && |items| == k && forall n :: n in items ==>
                  fresh(n) || n in old(pool.items)
        invariant forall c :: c in duplicates <==> Announced(md[..k], c)
        invariant ok ==> Prepared(items, Ingested(md, blocks)[..k])
      {
        var pick: RemotedLinkedItem? := null;
        if * {
          if pool.items != {} {
            pick :| pick in pool.items;
          }
        }
        var newItem := AddItem(items, pick, md[k], blocks, md[k].link in duplicates, Ingested(md, blocks)[..k]);
        items := items + [newItem];
        IngestedStep(md, blocks, k);
        if md[k].action == Present {
          duplicates := duplicates + {md[k].link};
        }
      }
    }

    /** Recycle nodes that are not going to be queued. */
    method FreeList(items: seq<RemotedLinkedItem>)
      modifies pool`items, items`block
      ensures (forall n :: n in pool.items <==> n in old(pool.items) || n in items) && forall n :: n in items ==>
              n.block == None
      ensures old(Valid() && PoolApart()) && Distinct(items) && (forall n :: n in items ==> old(Spare(n))) ==>
              Valid() && PoolApart()
    {
      ghost var ok := Valid() && PoolApart() && Distinct(items) && forall n :: n in items ==> Spare(n);
      for k := 0 to |items|
        invariant (forall n :: n in pool.items <==> n in old(pool.items) || n in items[..k])
                  && forall j :: 0 <= j < k ==> items[j].block == None
        invariant ok ==> Valid() && PoolApart() && forall j :: k <= j < |items| ==> Spare(items[j])
      {
        FreeItem(items[k]);
        assert items[..k + 1] == items[..k] + [items[k]];
        assert ok ==> forall j :: k < j < |items| ==> Spare(items[j]);
      }
    }

    method FreeItem(n: RemotedLinkedItem)
      modifies pool`items, n`block
      ensures n.block == None && pool.items == old(pool.items) + {n}
      ensures old(Valid() && PoolApart() && Spare(n)) ==> Valid() && PoolApart()
    {
      n.block := None;
      pool.items := pool.items + {n};
    }

    /** Take in the items of a response; recycled nodes that are apart stay apart. */
    method Accept(md: seq<Metadatum>, blocks: map<Cid, Bytes>)
      requires head != null ==> tail != null
      modifies this, pool`items, End()`next, pool.items
      ensures head != null ==> tail != null
      ensures old(Valid() && PoolApart()) ==>
                && Valid() && PoolApart() && fresh(Repr() - old(Repr()))
                && Grown(old(contents), old(cutOff), old(Last()), Ingested(md, blocks))
    {
      ghost var ok := Valid() && PoolApart();
      var items := NewItems(md, blocks);
      assert ok ==> TakesAll(items, Ingested(md, blocks));
      var _ := Queue(items, Ingested(md, blocks));
    }

    /** The items of a response are queued, or dropped while the request is offline. */
    method Ingest(md: seq<Metadatum>, blocks: map<Cid, Bytes>, open: bool)
      requires head != null ==> tail != null
      modifies this, pool`items, End()`next, pool.items
      ensures head != null ==> tail != null
      ensures old(Valid() && PoolApart()) ==>
                && Valid() && PoolApart() && fresh(Repr() - old(Repr()))
                && Grown(old(contents), old(cutOff), old(Last()), if open then Ingested(md, blocks) else [])
    {
      if |md| == 0 {
        return;
      }
      if !open {
        Drop(md, blocks);
      } else {
        Accept(md, blocks);
      }
    }

    /** Drop the items of a response. */
    method Drop(md: seq<Metadatum>, blocks: map<Cid, Bytes>)
      modifies pool`items, pool.items
      ensures fresh(Repr() - old(Repr()))
      ensures old(Valid() && PoolApart()) ==>
                && Valid() && PoolApart() && contents == old(contents) && cutOff == old(cutOff) && Last() == old(Last())
    {
      var items := NewItems(md, blocks);
      FreeList(items);
    }
  }

  /** A retry after the queue ran empty and filled again loses what is queued. */
  method RetryCutsOff(a: Cid, b: Cid, block: Bytes) returns (q: RemoteQueue)
    ensures q.head != null && q.head.Item() == RemoteItem(a, Missing, None) && q.head.next == null
    ensures q.tail != null && q.tail != q.head && q.tail.Item() == RemoteItem(b, Present, Some(block))
  {
    var pool := new NodePool();
    q := new RemoteQueue(pool);
    var n := new RemotedLinkedItem();
    var m := new RemotedLinkedItem();
    RemoteQueue.FillItem(n, Metadatum(a, Missing), map[], false);
    RemoteQueue.FillItem(m, Metadatum(b, Present), map[b := block], false);
    q.LinkIn(n);
    var _ := q.Consume();
    q.LinkIn(m);
    q.Relink();
  }

  /** What is needed to tell the runs below: links and blocks of four responses. */
  datatype Story = Story(x: Cid, w: Cid, y: Cid, z: Cid, blockX: Bytes, blockY: Bytes)

  /**
    A retried item that is consumed again is recycled while its node is kept.  Two responses
    later the node has one response's block under another response's link.
   */
  method RecycledNodeMixesItems(s: Story) returns (item: Option<RemoteItem>)
    ensures item == Some(RemoteItem(s.z, Missing, Some(s.blockY)))
  {
    var q := MixedQueue(s);
    item := q.First();
  }

  /** Then the node also leads to itself, and the list never gets empty again. */
  method MixedQueue(s: Story) returns (q: RemoteQueue)
    ensures fresh(q) && q.head != null && q.head.next == q.head && Ring(q.head, {q.head})
    ensures q.head.Item() == RemoteItem(s.z, Missing, Some(s.blockY))
  {
    var n1;
    q, n1 := RecycledInUse(s);
    // the response after it gets the node as well, and its entry has no block to overwrite that one
    q.Reuse(n1);
    RemoteQueue.FillItem(n1, Metadatum(s.z, Missing), map[], false);
    q.LinkIn(n1);
  }

  method RecycledInUse(s: Story) returns (q: RemoteQueue, n1: RemotedLinkedItem)
    ensures fresh(q) && fresh(q.pool) && fresh(n1)
    ensures q.head == q.tail == n1 && n1 in q.pool.items && n1.block == Some(s.blockY)
  {
    var n2;
    q, n1, n2 := RetriedOnce(s);
    // the next response gets the recycled node
    q.Reuse(n1);
    RemoteQueue.FillItem(n1, Metadatum(s.y, Present), map[s.y := s.blockY], false);
    q.LinkIn(n1);
    // w is loaded, and the node is recycled again while it is queued
    var _ := q.Consume();
  }

  /**
    One request's retry reaches others, which retry nothing: the second one queues a block in
    the node, the first one recycles it again, and the third one gets it with the block.
   */
  method RecycledNodeReachesOthers(s: Story) returns (item: Option<RemoteItem>)
    ensures item == Some(RemoteItem(s.z, Missing, Some(s.blockY)))
  {
    var first, n1, n2 := RetriedOnce(s);
    var second := new RemoteQueue(first.pool);
    var third := new RemoteQueue(first.pool);
    second.Reuse(n1);
    RemoteQueue.FillItem(n1, Metadatum(s.y, Present), map[s.y := s.blockY], false);
    second.LinkIn(n1);
    var _ := first.Consume();
    third.Reuse(n1);
    RemoteQueue.FillItem(n1, Metadatum(s.z, Missing), map[], false);
    third.LinkIn(n1);
    item := third.First();
  }

  /** An item that is consumed, retried and consumed again, with another one behind it. */
  method RetriedOnce(s: Story) returns (q: RemoteQueue, n1: RemotedLinkedItem, n2: RemotedLinkedItem)
    ensures fresh(q) && fresh(q.pool) && fresh(n1) && fresh(n2) && n1 != n2
    ensures q.lastConsumed == n1 && n1 in q.pool.items && q.head == q.tail == n2 && n2.next == null
  {
    q, n1, n2 := TwoQueued(s);
    var _ := q.Consume();
    q.Relink();
    var _ := q.Consume();
  }

  method TwoQueued(s: Story) returns (q: RemoteQueue, n1: RemotedLinkedItem, n2: RemotedLinkedItem)
    ensures fresh(q) && fresh(q.pool) && fresh(n1) && fresh(n2) && n1 != n2
    ensures q.lastConsumed == null && q.head == n1 && n1.next == n2 && q.tail == n2 && n2.next == null
  {
    var pool := new NodePool();
    q := new RemoteQueue(pool);
    n1 := new RemotedLinkedItem();
    n2 := new RemotedLinkedItem();
    RemoteQueue.FillItem(n1, Metadatum(s.x, Present), map[s.x := s.blockX], false);
    RemoteQueue.FillItem(n2, Metadatum(s.w, Missing), map[], false);
    q.LinkIn(n1);
    q.LinkIn(n2);
  }
}
