/**
  The builder of outgoing messages: the parts that operations add to it, and the scrub
  that takes the responses of failed requests out again.
 */
module MessageBuilders {
  import opened Core
  import opened Sums

  type Code = nat
  type Extension = nat

  const sizeOf: Bytes -> nat := (b: Bytes) => |b|

  /** The contents of a builder.  Of the requests to be sent only the IDs are kept. */
  datatype Contents = Contents(
    blocks: map<Cid, Bytes>,
    blkSize: nat,
    codes: map<RequestId, Code>,
    responses: map<RequestId, seq<Metadatum>>,
    extensions: map<RequestId, seq<Extension>>,
    requests: set<RequestId>)

  const NOTHING := Contents(map[], 0, map[], map[], map[], {})

  function Entries<T>(m: map<RequestId, seq<T>>, id: RequestId): seq<T> {
    if id in m then m[id] else []
  }

  function AddRequest(b: Contents, id: RequestId): Contents {
    b.(requests := b.requests + {id})
  }

  function AddBlock(b: Contents, link: Cid, data: Bytes): Contents {
    b.(blkSize := b.blkSize + |data|, blocks := b.blocks[link := data])
  }

  function AddLink(b: Contents, id: RequestId, link: Cid, action: LinkAction): Contents {
    b.(responses := b.responses[id := Entries(b.responses, id) + [Metadatum(link, action)]])
  }

  function AddExtensionData(b: Contents, id: RequestId, ext: Extension): Contents {
    b.(extensions := b.extensions[id := Entries(b.extensions, id) + [ext]],
       responses := b.responses[id := Entries(b.responses, id)])
  }

  function AddResponseCode(b: Contents, id: RequestId, code: Code): Contents {
    b.(codes := b.codes[id := code], responses := b.responses[id := Entries(b.responses, id)])
  }

  predicate Empty(b: Contents) {
    b.requests == {} && b.blocks == map[] && b.responses == map[]
  }

  /** The size counts at least the blocks that are there; a repeated block is counted twice. */
  ghost predicate Sized(b: Contents) {
    b.blkSize >= Sum(b.blocks, sizeOf) && (b.blocks == map[] ==> b.blkSize == 0)
  }

  lemma {:induction false} AddBlockSized(b: Contents, link: Cid, data: Bytes)
    requires Sized(b)
    ensures Sized(AddBlock(b, link, data))
  {
    SumUpdate(b.blocks, link, data, sizeOf);
    assert link in AddBlock(b, link, data).blocks;
  }

  // -------------------------------------------------------------------- scrub

  /** Some response says that the block of this link is in the message. */
  ghost predicate MarkedPresent(responses: map<RequestId, seq<Metadatum>>, link: Cid) {
    exists id :: id in responses && Metadatum(link, Present) in responses[id]
  }

  ghost function Kept(blocks: map<Cid, Bytes>, responses: map<RequestId, seq<Metadatum>>): map<Cid, Bytes> {
    map c | c in blocks && MarkedPresent(responses, c) :: blocks[c]
  }

  function Ids(ids: seq<RequestId>): set<RequestId> {
    set id | id in ids
  }

  ghost function Scrub(b: Contents, ids: set<RequestId>): Contents {
    var responses := b.responses - ids;
    b.(codes := b.codes - ids, extensions := b.extensions - ids, responses := responses,
       blocks := Kept(b.blocks, responses), blkSize := Sum(Kept(b.blocks, responses), sizeOf))
  }

  lemma {:induction false} ScrubSize(b: Contents, ids: set<RequestId>)
    requires Sized(b)
    ensures Sized(Scrub(b, ids)) && Scrub(b, ids).blkSize <= b.blkSize
  {
    SumMonotone(Scrub(b, ids).blocks, b.blocks, sizeOf);
    if Scrub(b, ids).blocks == map[] {
      assert Sum(Scrub(b, ids).blocks, sizeOf) == 0;
    }
  }

  /** What scrubbing leaves, and that it frees no more than was counted. */
  lemma {:induction false} ScrubKeeps(b: Contents, ids: set<RequestId>)
    requires Sized(b)
    ensures var s := Scrub(b, ids);
            && Sized(s) && s.blkSize <= b.blkSize
            && (forall id :: id in ids ==> id !in s.responses && id !in s.codes && id !in s.extensions)
            && (forall id :: id !in ids ==>
                  && Entries(s.responses, id) == Entries(b.responses, id) && (id in s.responses <==> id in b.responses)
                  && Entries(s.extensions, id) == Entries(b.extensions, id)
                  && (id in s.codes <==> id in b.codes) && (id in s.codes ==> s.codes[id] == b.codes[id]))
            && s.requests == b.requests
            && (forall c :: c in s.blocks <==> c in b.blocks && MarkedPresent(s.responses, c))
            && (forall c :: c in s.blocks ==> s.blocks[c] == b.blocks[c])
  {
    ScrubSize(b, ids);
  }

  /** Scrubbing one request after another is scrubbing them together, as far as the responses go. */
  lemma {:induction false} ScrubTwice(b: Contents, x: set<RequestId>, y: set<RequestId>)
    ensures Scrub(Scrub(b, x), y) == Scrub(b, x + y)
  {
    assert b.responses - x - y == b.responses - (x + y);
    assert b.codes - x - y == b.codes - (x + y);
    assert b.extensions - x - y == b.extensions - (x + y);
    var r := b.responses - (x + y);
    forall c | MarkedPresent(r, c) ensures MarkedPresent(b.responses - x, c) {
      var id :| id in r && Metadatum(c, Present) in r[id];
      assert id in b.responses - x;
    }
    assert Kept(Scrub(b, x).blocks, r) == Kept(b.blocks, r);
  }

  class Builder {
    var contents: Contents

    constructor ()
      ensures contents == NOTHING && Sized(contents)
    {
      contents := NOTHING;
      assert Sum(NOTHING.blocks, sizeOf) == 0;
    }

    constructor With(c: Contents)
      ensures contents == c
    {
      contents := c;
    }

    /** Returns how much smaller the message got. */
    method ScrubResponses(requestIDs: seq<RequestId>) returns (freed: nat)
      requires Sized(contents)
      modifies this
      ensures contents == Scrub(old(contents), Ids(requestIDs)) && Sized(contents)
      ensures freed == old(contents.blkSize) - contents.blkSize
    {
      ghost var ids := Ids(requestIDs);
      ScrubKeeps(contents, ids);
      DeleteResponses(requestIDs);
      var oldSize := contents.blkSize;
      var savedBlocks, newBlkSize := SaveBlocks(contents.blocks, contents.responses);
      contents := contents.(blkSize := newBlkSize, blocks := savedBlocks);
      return oldSize - newBlkSize;
    }

    method DeleteResponses(requestIDs: seq<RequestId>)
      modifies this
      ensures contents == old(contents).(
                codes := old(contents.codes) - Ids(requestIDs),
                extensions := old(contents.extensions) - Ids(requestIDs),
                responses := old(contents.responses) - Ids(requestIDs))
    {
      for i := 0 to |requestIDs|
        invariant contents == old(contents).(
                    codes := old(contents.codes) - Ids(requestIDs[..i]),
                    extensions := old(contents.extensions) - Ids(requestIDs[..i]),
                    responses := old(contents.responses) - Ids(requestIDs[..i]))
      {
        var id := requestIDs[i];
        assert Ids(requestIDs[..i + 1]) == Ids(requestIDs[..i]) + {id};
        contents := contents.(codes := contents.codes - {id}, extensions := contents.extensions - {id},
          responses := contents.responses - {id});
      }
      assert requestIDs[..|requestIDs|] == requestIDs;
    }
  }

  /** The blocks that the responses mark present, and their size. */
  method SaveBlocks(blocks: map<Cid, Bytes>, responses: map<RequestId, seq<Metadatum>>)
    returns (saved: map<Cid, Bytes>, size: nat)
    ensures saved == Kept(blocks, responses) && size == Sum(saved, sizeOf)
  {
    saved, size := map[], 0;
    ghost var seen: set<Cid> := {};
    var todo := responses.Keys;
    while todo != {}
      invariant todo <= responses.Keys
      invariant saved == Saved(blocks, seen) && size == Sum(saved, sizeOf)
      invariant forall c :: c in seen <==> MarkedPresent(responses - todo, c)
      decreases todo
    {
      var id :| id in todo;
      saved, size, seen := SaveOne(blocks, responses[id], saved, size, seen);
      ghost var was := todo;
      todo := todo - {id};
      assert was == todo + {id};
      forall c ensures c in seen <==> MarkedPresent(responses - todo, c) {
        MarkedOneMore(responses, todo, id, c);
      }
    }
    assert responses - {} == responses;
  }

  ghost function Saved(blocks: map<Cid, Bytes>, seen: set<Cid>): map<Cid, Bytes> {
    map c | c in blocks && c in seen :: blocks[c]
  }

  lemma {:induction false} MarkedOneMore(responses: map<RequestId, seq<Metadatum>>, todo: set<RequestId>,
                                         id: RequestId, c: Cid)
    requires id in responses && id !in todo
    ensures MarkedPresent(responses - todo, c) <==>
            MarkedPresent(responses - (todo + {id}), c) || Metadatum(c, Present) in responses[id]
  {
    if Metadatum(c, Present) in responses[id] {
      assert id in responses - todo;
    }
    if MarkedPresent(responses - (todo + {id}), c) {
      var x :| x in responses - (todo + {id}) && Metadatum(c, Present) in responses[x];
      assert x in responses - todo;
    }
    if MarkedPresent(responses - todo, c) {
      var x :| x in responses - todo && Metadatum(c, Present) in responses[x];
      assert x != id ==> x in responses - (todo + {id});
    }
  }

  /** Go through the metadata of one response. */
  method SaveOne(blocks: map<Cid, Bytes>, metadata: seq<Metadatum>, before: map<Cid, Bytes>, sizeBefore: nat,
                 ghost seen: set<Cid>)
    returns (saved: map<Cid, Bytes>, size: nat, ghost seen': set<Cid>)
    requires before == Saved(blocks, seen) && sizeBefore == Sum(before, sizeOf)
    ensures saved == Saved(blocks, seen') && size == Sum(saved, sizeOf)
    ensures forall c :: c in seen' <==> c in seen || Metadatum(c, Present) in metadata
  {
    saved, size, seen' := before, sizeBefore, seen;
    for i := 0 to |metadata|
      invariant saved == Saved(blocks, seen') && size == Sum(saved, sizeOf)
      invariant forall c :: c in seen' <==> c in seen || Metadatum(c, Present) in metadata[..i]
    {
      var item := metadata[i];
      assert metadata[..i + 1] == metadata[..i] + [item];
      if item.action == Present {
        if item.link in blocks && item.link !in saved {
          SumUpdate(saved, item.link, blocks[item.link], sizeOf);
          saved := saved[item.link := blocks[item.link]];
          size := size + |blocks[item.link]|;
        }
        seen' := seen' + {item.link};
      }
    }
    assert metadata[..|metadata|] == metadata;
  }
}
