/**
  Version 2 of the wire format: translation between messages and the structures that are
  encoded, and what is and is not preserved by it.
 */
module MessageV2 {
  import opened Core
  import Loaders

  type Id = Bytes
  type Node = nat
  type Extensions = map<string, Option<Node>>

  datatype RequestType = NewRequest | CancelRequest | UpdateRequest | OtherRequest(name: string)

  // A None map, slice or node is a nil one; a None root is the undefined CID.
  datatype Request = Request(
    id: Id, root: Option<Cid>, selector: Option<Node>, priority: int, kind: RequestType, extensions: Option<Extensions>)

  datatype Response = Response(
    id: Id, status: int, metadata: Option<seq<Metadatum>>, extensions: Option<Extensions>)

  datatype Block = Block(cid: Cid, data: Bytes)

  datatype Message = Message(
    requests: Option<map<Id, Request>>, responses: Option<map<Id, Response>>, blocks: Option<map<Cid, Block>>)

  datatype WireExtensions = WireExtensions(keys: seq<string>, values: Extensions)

  datatype WireRequest = WireRequest(
    id: Bytes, kind: RequestType, priority: Option<int>, root: Option<Cid>, selector: Option<Node>,
    extensions: Option<WireExtensions>)

  datatype WireResponse = WireResponse(
    id: Bytes, status: int, metadata: Option<seq<Metadatum>>, extensions: Option<WireExtensions>)

  datatype WireBlock = WireBlock(prefix: Bytes, data: Bytes)

  datatype Wire = Wire(
    requests: Option<seq<WireRequest>>, responses: Option<seq<WireResponse>>, blocks: Option<seq<WireBlock>>)

  datatype Root = Root(gs2: Option<Wire>)

  /** How CIDs are made: the prefix of a CID, and the CID of some data under a prefix if there is one. */
  datatype Scheme = Scheme(prefixOf: Cid -> Bytes, derive: (Bytes, Bytes) -> Option<Cid>)

  /** A derived CID is derived again from its own prefix. */
  ghost predicate Stable(sc: Scheme) {
    forall p, data :: sc.derive(p, data).Some? ==>
      sc.derive(sc.prefixOf(sc.derive(p, data).value), data) == sc.derive(p, data)
  }

  // ---------------------------------------------------------------- up to nil or empty

  function Entries<K, V>(m: Option<map<K, V>>): map<K, V> {
    if m.Some? then m.value else map[]
  }

  function Items<T>(s: Option<seq<T>>): seq<T> {
    if s.Some? then s.value else []
  }

  predicate SameRequest(r: Request, s: Request) {
    r.(extensions := None) == s.(extensions := None) && Entries(r.extensions) == Entries(s.extensions)
  }

  predicate SameResponse(r: Response, s: Response) {
    && r.id == s.id && r.status == s.status
    && Items(r.metadata) == Items(s.metadata) && Entries(r.extensions) == Entries(s.extensions)
  }

  predicate SameBlock(b: Block, c: Block) {
    b == c
  }

  ghost predicate SameAt<K, V>(a: map<K, V>, b: map<K, V>, k: K, same: (V, V) -> bool) {
    (k in a <==> k in b) && (k in a ==> same(a[k], b[k]))
  }

  ghost predicate SameEntries<K(!new), V>(a: map<K, V>, b: map<K, V>, same: (V, V) -> bool) {
    forall k :: SameAt(a, b, k, same)
  }

  /** Messages that differ only in nil against empty. */
  ghost predicate Same(a: Message, b: Message) {
    && SameEntries(Entries(a.requests), Entries(b.requests), SameRequest)
    && SameEntries(Entries(a.responses), Entries(b.responses), SameResponse)
    && Entries(a.blocks) == Entries(b.blocks)
  }

  // ---------------------------------------------------------------- well-formed messages

  /** A UUID has 16 bytes (section 4.1 of RFC 4122). */
  predicate IsId(b: Bytes) {
    |b| == 16
  }

  /** The request is one that the constructors for its type can build. */
  predicate Built(r: Request) {
    match r.kind
    case NewRequest => true
    case CancelRequest => r.root == None && r.selector == None && r.priority == 0 && Entries(r.extensions) == map[]
    case UpdateRequest => r.root == None && r.selector == None && r.priority == 0
    case OtherRequest(_) => false
  }

  predicate RequestAt(id: Id, r: Request) {
    IsId(id) && r.id == id && Built(r)
  }

  predicate ResponseAt(id: Id, r: Response) {
    IsId(id) && r.id == id
  }

  predicate BlockAt(sc: Scheme, c: Cid, b: Block) {
    b.cid == c && sc.derive(sc.prefixOf(c), b.data) == Some(c)
  }

  ghost predicate WellFormed(sc: Scheme, m: Message) {
    && (forall id :: id in Entries(m.requests) ==> RequestAt(id, Entries(m.requests)[id]))
    && (forall id :: id in Entries(m.responses) ==> ResponseAt(id, Entries(m.responses)[id]))
    && (forall c :: c in Entries(m.blocks) ==> BlockAt(sc, c, Entries(m.blocks)[c]))
  }

  // ---------------------------------------------------------------- encoding

  /** No extensions encode as nothing; otherwise every name is listed once. */
  predicate EncodedExtensions(e: Option<Extensions>, w: Option<WireExtensions>) {
    if Entries(e) == map[] then w == None
    else w.Some? && w.value.values == Entries(e) && multiset(w.value.keys) == multiset(Entries(e).Keys)
  }

  predicate EncodedRequest(r: Request, w: WireRequest) {
    && w.id == r.id && w.kind == r.kind && w.root == r.root && w.selector == r.selector
    && w.priority == (if r.priority == 0 then None else Some(r.priority))
    && EncodedExtensions(r.extensions, w.extensions)
  }

  predicate EncodedResponse(r: Response, w: WireResponse) {
    && w.id == r.id && w.status == r.status
    && w.metadata == (if Items(r.metadata) == [] then None else r.metadata)
    && EncodedExtensions(r.extensions, w.extensions)
  }

  function EncodedBlock(sc: Scheme): (Block, WireBlock) -> bool {
    (b: Block, w: WireBlock) => w == WireBlock(sc.prefixOf(b.cid), b.data)
  }

  ghost predicate Written<V(!new), W(!new)>(v: V, ws: seq<W>, enc: (V, W) -> bool) {
    exists i :: 0 <= i < |ws| && enc(v, ws[i])
  }

  ghost predicate Read<K(!new), V(!new), W(!new)>(w: W, m: map<K, V>, enc: (V, W) -> bool) {
    exists k :: k in m && enc(m[k], w)
  }

  /** A list with one encoded item for every value of a map, in some order. */
  ghost predicate Listed<K(!new), V(!new), W(!new)>(m: map<K, V>, ws: seq<W>, enc: (V, W) -> bool) {
    && |ws| == |m|
    && (forall k :: k in m ==> Written(m[k], ws, enc))
    && (forall i :: 0 <= i < |ws| ==> Read(ws[i], m, enc))
  }

  ghost predicate EncodedMap<K(!new), V(!new), W(!new)>(m: map<K, V>, ws: Option<seq<W>>, enc: (V, W) -> bool) {
    if m == map[] then ws == None else ws.Some? && Listed(m, ws.value, enc)
  }

  ghost predicate Encoded(sc: Scheme, m: Message, root: Root) {
    && root.gs2.Some?
    && EncodedMap(Entries(m.requests), root.gs2.value.requests, EncodedRequest)
    && EncodedMap(Entries(m.responses), root.gs2.value.responses, EncodedResponse)
    && EncodedMap(Entries(m.blocks), root.gs2.value.blocks, EncodedBlock(sc))
  }

  // ---------------------------------------------------------------- decoding

  function DecodeExtensions(w: Option<WireExtensions>): Option<Extensions> {
    if w == None || w.value.values == map[] then None else Some(w.value.values)
  }

  function DecodeRequest(w: WireRequest): Option<(Id, Request)> {
    if !IsId(w.id) then None
    else
      match w.kind
      case CancelRequest => Some((w.id, Request(w.id, None, None, 0, CancelRequest, None)))
      case UpdateRequest => Some((w.id, Request(w.id, None, None, 0, UpdateRequest, DecodeExtensions(w.extensions))))
      case _ =>
        var priority := if w.priority.Some? then w.priority.value else 0;
        Some((w.id, Request(w.id, w.root, w.selector, priority, NewRequest, DecodeExtensions(w.extensions))))
  }

  function DecodeResponse(w: WireResponse): Option<(Id, Response)> {
    if !IsId(w.id) then None
    else Some((w.id, Response(w.id, w.status, w.metadata, DecodeExtensions(w.extensions))))
  }

  function DecodeBlock(sc: Scheme): WireBlock -> Option<(Cid, Block)> {
    (w: WireBlock) =>
      var c := sc.derive(w.prefix, w.data);
      if c.Some? then Some((c.value, Block(c.value, w.data))) else None
  }

  /** Items in their order, later ones replacing earlier ones under the same key. */
  function Collect<K, V, W>(ws: seq<W>, dec: W -> Option<(K, V)>): Option<map<K, V>> {
    if ws == [] then Some(map[])
    else
      var m := Collect(ws[..|ws| - 1], dec);
      var e := dec(ws[|ws| - 1]);
      if m.Some? && e.Some? then Some(m.value[e.value.0 := e.value.1]) else None
  }

  function DecodeMap<K, V, W>(ws: Option<seq<W>>, dec: W -> Option<(K, V)>): Option<Option<map<K, V>>> {
    if ws == None then Some(None)
    else
      var m := Collect(ws.value, dec);
      if m.Some? then Some(m) else None
  }

  /** None is an error. */
  function Decode(sc: Scheme, root: Root): Option<Message> {
    if root.gs2 == None then None
    else
      var requests := DecodeMap(root.gs2.value.requests, DecodeRequest);
      var responses := DecodeMap(root.gs2.value.responses, DecodeResponse);
      var blocks := DecodeMap(root.gs2.value.blocks, DecodeBlock(sc));
      if requests.Some? && responses.Some? && blocks.Some?
      then Some(Message(requests.value, responses.value, blocks.value)) else None
  }

  // ---------------------------------------------------------------- lists and maps

  ghost predicate From<K, V, W>(k: K, v: V, ws: seq<W>, dec: W -> Option<(K, V)>) {
    exists i :: 0 <= i < |ws| && dec(ws[i]) == Some((k, v))
  }

  /** Decoding a list succeeds exactly when every item does; what it yields is what the items yield. */
  lemma {:induction false} CollectIs<K(!new), V(!new), W>(ws: seq<W>, dec: W -> Option<(K, V)>)
    ensures Collect(ws, dec).Some? <==> forall i :: 0 <= i < |ws| ==> dec(ws[i]).Some?
    ensures Collect(ws, dec).Some? ==>
              var m := Collect(ws, dec).value;
              && (forall k :: k in m ==> From(k, m[k], ws, dec))
              && (forall i :: 0 <= i < |ws| ==> dec(ws[i]).value.0 in m)
    decreases |ws|
  {
    if ws != [] {
      var n := |ws| - 1;
      var init := ws[..n];
      CollectIs(init, dec);
      assert forall i :: 0 <= i < n ==> init[i] == ws[i];
      if Collect(ws, dec).Some? {
        var m, m0 := Collect(ws, dec).value, Collect(init, dec).value;
        forall k | k in m ensures From(k, m[k], ws, dec) {
          if k == dec(ws[n]).value.0 {
            assert dec(ws[n]) == Some((k, m[k]));
          } else {
            assert From(k, m0[k], init, dec);
            var i :| 0 <= i < n && dec(init[i]) == Some((k, m0[k]));
            assert dec(ws[i]) == Some((k, m[k]));
          }
        }
      }
    }
  }

  /** An item decodes to an entry like the one it was encoded from. */
  ghost predicate Undoes<K, V(!new), W(!new)>(k: K, v: V, enc: (V, W) -> bool, dec: W -> Option<(K, V)>,
                              same: (V, V) -> bool) {
    forall w :: enc(v, w) ==> dec(w).Some? && dec(w).value.0 == k && same(dec(w).value.1, v)
  }

  ghost predicate AllUndone<K(!new), V(!new), W(!new)>(m: map<K, V>, enc: (V, W) -> bool, dec: W -> Option<(K, V)>,
                              same: (V, V) -> bool) {
    forall k :: k in m ==> Undoes(k, m[k], enc, dec, same)
  }

  lemma {:induction false} ItemDecodes<K(!new), V(!new), W(!new)>(m: map<K, V>, w: W, enc: (V, W) -> bool,
                                         dec: W -> Option<(K, V)>, same: (V, V) -> bool)
    requires Read(w, m, enc) && AllUndone(m, enc, dec, same)
    ensures dec(w).Some? && dec(w).value.0 in m && same(dec(w).value.1, m[dec(w).value.0])
  {
  }

  /** If every entry's item decodes to that entry then the list, in whatever order, decodes to the map. */
  lemma {:induction false} ListRoundTrip<K(!new), V(!new), W(!new)>(m: map<K, V>, ws: seq<W>, enc: (V, W) -> bool,
                                           dec: W -> Option<(K, V)>, same: (V, V) -> bool)
    requires Listed(m, ws, enc) && AllUndone(m, enc, dec, same)
    ensures Collect(ws, dec).Some? && SameEntries(Collect(ws, dec).value, m, same)
  {
    CollectIs(ws, dec);
    assert forall i :: 0 <= i < |ws| ==> dec(ws[i]).Some? by {
      forall i | 0 <= i < |ws| ensures dec(ws[i]).Some? {
        assert Read(ws[i], m, enc);
        ItemDecodes(m, ws[i], enc, dec, same);
      }
    }
    var r := Collect(ws, dec).value;
    forall k ensures SameAt(r, m, k, same) {
      if k in r {
        assert From(k, r[k], ws, dec);
        EntryFrom(m, ws, enc, dec, same, k, r[k]);
      } else if k in m {
        var i := KeyWritten(m, ws, enc, dec, same, k);
      }
    }
  }

  lemma {:induction false} EntryFrom<K(!new), V(!new), W(!new)>(
    m: map<K, V>, ws: seq<W>, enc: (V, W) -> bool, dec: W -> Option<(K, V)>, same: (V, V) -> bool, k: K, v: V)
    requires Listed(m, ws, enc) && AllUndone(m, enc, dec, same) && From(k, v, ws, dec)
    ensures k in m && same(v, m[k])
  {
    var i :| 0 <= i < |ws| && dec(ws[i]) == Some((k, v));
    assert Read(ws[i], m, enc);
    ItemDecodes(m, ws[i], enc, dec, same);
  }

  lemma {:induction false} KeyWritten<K(!new), V(!new), W(!new)>(
    m: map<K, V>, ws: seq<W>, enc: (V, W) -> bool, dec: W -> Option<(K, V)>, same: (V, V) -> bool, k: K)
    returns (i: nat)
    requires Listed(m, ws, enc) && AllUndone(m, enc, dec, same) && k in m
    ensures i < |ws| && dec(ws[i]).Some? && dec(ws[i]).value.0 == k
  {
    assert Written(m[k], ws, enc);
    i :| 0 <= i < |ws| && enc(m[k], ws[i]);
    assert Undoes(k, m[k], enc, dec, same);
  }

  lemma {:induction false} MapRoundTrip<K(!new), V(!new), W(!new)>(m: map<K, V>, ws: Option<seq<W>>,
                                          enc: (V, W) -> bool, dec: W -> Option<(K, V)>, same: (V, V) -> bool)
    requires EncodedMap(m, ws, enc) && AllUndone(m, enc, dec, same)
    ensures DecodeMap(ws, dec).Some? && SameEntries(Entries(DecodeMap(ws, dec).value), m, same)
  {
    if m != map[] {
      ListRoundTrip(m, ws.value, enc, dec, same);
    }
  }

  /** An entry of a decoded map comes from an item of the list. */
  lemma {:induction false} DecodedFrom<K(!new), V(!new), W(!new)>(ws: Option<seq<W>>, dec: W -> Option<(K, V)>, k: K)
    returns (w: W)
    requires DecodeMap(ws, dec).Some? && k in Entries(DecodeMap(ws, dec).value)
    ensures dec(w) == Some((k, Entries(DecodeMap(ws, dec).value)[k]))
  {
    var m := Entries(DecodeMap(ws, dec).value);
    CollectIs(ws.value, dec);
    assert From(k, m[k], ws.value, dec);
    var i :| 0 <= i < |ws.value| && dec(ws.value[i]) == Some((k, m[k]));
    w := ws.value[i];
  }

  // ---------------------------------------------------------------- messages

  lemma RequestUndone(id: Id, r: Request)
    requires RequestAt(id, r)
    ensures Undoes(id, r, EncodedRequest, DecodeRequest, SameRequest)
  {
  }

  lemma ResponseUndone(id: Id, r: Response)
    requires ResponseAt(id, r)
    ensures Undoes(id, r, EncodedResponse, DecodeResponse, SameResponse)
  {
  }

  lemma BlockUndone(sc: Scheme, c: Cid, b: Block)
    requires BlockAt(sc, c, b)
    ensures Undoes(c, b, EncodedBlock(sc), DecodeBlock(sc), SameBlock)
  {
  }

  /** Whatever is received, a message that decodes is well-formed. */
  lemma {:induction false} DecodedIsWellFormed(sc: Scheme, root: Root)
    requires Stable(sc) && Decode(sc, root).Some?
    ensures WellFormed(sc, Decode(sc, root).value)
  {
    var m, w := Decode(sc, root).value, root.gs2.value;
    forall id | id in Entries(m.requests) ensures RequestAt(id, Entries(m.requests)[id]) {
      var _ := DecodedFrom(w.requests, DecodeRequest, id);
    }
    forall id | id in Entries(m.responses) ensures ResponseAt(id, Entries(m.responses)[id]) {
      var _ := DecodedFrom(w.responses, DecodeResponse, id);
    }
    forall c | c in Entries(m.blocks) ensures BlockAt(sc, c, Entries(m.blocks)[c]) {
      var b := DecodedFrom(w.blocks, DecodeBlock(sc), c);
      assert sc.derive(b.prefix, b.data) == Some(c);
    }
  }

  lemma {:induction false} SameWellFormed(sc: Scheme, a: Message, b: Message)
    requires WellFormed(sc, a) && Same(a, b)
    ensures WellFormed(sc, b)
  {
    forall id | id in Entries(b.requests) ensures RequestAt(id, Entries(b.requests)[id]) {
      assert SameAt(Entries(a.requests), Entries(b.requests), id, SameRequest);
    }
    forall id | id in Entries(b.responses) ensures ResponseAt(id, Entries(b.responses)[id]) {
      assert SameAt(Entries(a.responses), Entries(b.responses), id, SameResponse);
    }
  }

  lemma {:induction false} RequestsRoundTrip(m: map<Id, Request>, ws: Option<seq<WireRequest>>)
    requires EncodedMap(m, ws, EncodedRequest) && forall id :: id in m ==> RequestAt(id, m[id])
    ensures DecodeMap(ws, DecodeRequest).Some?
    ensures SameEntries(Entries(DecodeMap(ws, DecodeRequest).value), m, SameRequest)
  {
    forall id | id in m ensures Undoes(id, m[id], EncodedRequest, DecodeRequest, SameRequest) {
      RequestUndone(id, m[id]);
    }
    MapRoundTrip(m, ws, EncodedRequest, DecodeRequest, SameRequest);
  }

  lemma {:induction false} ResponsesRoundTrip(m: map<Id, Response>, ws: Option<seq<WireResponse>>)
    requires EncodedMap(m, ws, EncodedResponse) && forall id :: id in m ==> ResponseAt(id, m[id])
    ensures DecodeMap(ws, DecodeResponse).Some?
    ensures SameEntries(Entries(DecodeMap(ws, DecodeResponse).value), m, SameResponse)
  {
    forall id | id in m ensures Undoes(id, m[id], EncodedResponse, DecodeResponse, SameResponse) {
      ResponseUndone(id, m[id]);
    }
    MapRoundTrip(m, ws, EncodedResponse, DecodeResponse, SameResponse);
  }

  lemma {:induction false} SameBlocks(a: map<Cid, Block>, b: map<Cid, Block>)
    requires SameEntries(a, b, SameBlock)
    ensures a == b
  {
    forall c ensures c in a <==> c in b {
      assert SameAt(a, b, c, SameBlock);
    }
    forall c | c in a ensures a[c] == b[c] {
      assert SameAt(a, b, c, SameBlock);
    }
  }

  lemma {:induction false} BlocksRoundTrip(sc: Scheme, m: map<Cid, Block>, ws: Option<seq<WireBlock>>)
    requires EncodedMap(m, ws, EncodedBlock(sc)) && forall c :: c in m ==> BlockAt(sc, c, m[c])
    ensures DecodeMap(ws, DecodeBlock(sc)).Some? && Entries(DecodeMap(ws, DecodeBlock(sc)).value) == m
  {
    forall c | c in m ensures Undoes(c, m[c], EncodedBlock(sc), DecodeBlock(sc), SameBlock) {
      BlockUndone(sc, c, m[c]);
    }
    MapRoundTrip(m, ws, EncodedBlock(sc), DecodeBlock(sc), SameBlock);
    SameBlocks(Entries(DecodeMap(ws, DecodeBlock(sc)).value), m);
  }

  lemma Assembled(sc: Scheme, m: Message, root: Root)
    requires root.gs2.Some? && DecodeMap(root.gs2.value.requests, DecodeRequest).Some?
    requires SameEntries(Entries(DecodeMap(root.gs2.value.requests, DecodeRequest).value), Entries(m.requests),
             SameRequest)
    requires DecodeMap(root.gs2.value.responses, DecodeResponse).Some?
    requires SameEntries(Entries(DecodeMap(root.gs2.value.responses, DecodeResponse).value), Entries(m.responses),
             SameResponse)
    requires DecodeMap(root.gs2.value.blocks, DecodeBlock(sc)).Some?
    requires Entries(DecodeMap(root.gs2.value.blocks, DecodeBlock(sc)).value) == Entries(m.blocks)
    ensures Decode(sc, root).Some? && Same(Decode(sc, root).value, m)
  {
  }

  lemma {:induction false} WellFormedRoundTrip(sc: Scheme, m: Message, root: Root)
    requires Encoded(sc, m, root) && WellFormed(sc, m)
    ensures Decode(sc, root).Some? && Same(Decode(sc, root).value, m)
  {
    RequestsRoundTrip(Entries(m.requests), root.gs2.value.requests);
    ResponsesRoundTrip(Entries(m.responses), root.gs2.value.responses);
    BlocksRoundTrip(sc, Entries(m.blocks), root.gs2.value.blocks);
    Assembled(sc, m, root);
  }

  /** A message survives the wire, up to nil or empty, exactly when it is well-formed. */
  lemma {:induction false} RoundTrip(sc: Scheme, m: Message, root: Root)
    requires Stable(sc) && Encoded(sc, m, root)
    ensures Decode(sc, root).Some? && Same(Decode(sc, root).value, m) <==> WellFormed(sc, m)
  {
    if WellFormed(sc, m) {
      WellFormedRoundTrip(sc, m, root);
    }
    if Decode(sc, root).Some? && Same(Decode(sc, root).value, m) {
      DecodedIsWellFormed(sc, root);
      SameWellFormed(sc, Decode(sc, root).value, m);
    }
  }

  // ---------------------------------------------------------------- content addressing

  /** A CID names some data when it is derived from that data. */
  ghost function Names(sc: Scheme): (Cid, Bytes) -> bool {
    (c: Cid, data: Bytes) => exists p :: sc.derive(p, data) == Some(c)
  }

  function BlockData(m: Message): map<Cid, Bytes> {
    map c | c in Entries(m.blocks) :: Entries(m.blocks)[c].data
  }

  lemma {:induction false} DecodedBlocksAreNamed(sc: Scheme, root: Root, c: Cid)
    requires Decode(sc, root).Some? && c in BlockData(Decode(sc, root).value)
    ensures Names(sc)(c, BlockData(Decode(sc, root).value)[c])
  {
    var b := DecodedFrom(root.gs2.value.blocks, DecodeBlock(sc), c);
    assert sc.derive(b.prefix, b.data) == Some(c);
  }

  /** What is ingested came in a message. */
  ghost predicate Received(sc: Scheme, e: Loaders.Event) {
    e.OnIngest? ==> exists root :: Decode(sc, root).Some? && BlockData(Decode(sc, root).value) == e.blocks
  }

  /**
    End to end: whatever messages the remotes of any number of requests send, every stored block
    is named by its link, if none of the requests retries a load that used the remote.
   */
  lemma {:induction false} ReceivedBlocksAreAddressed(sc: Scheme, ls: seq<Loaders.Loader>, stores: seq<nat>,
                                                      turns: seq<Loaders.Turn>)
    requires Loaders.AllValid(ls) && Loaders.InRange(ls, stores, turns) && Loaders.AllAddressed(ls, Names(sc))
    requires Loaders.NoRemoteRetry(ls, stores, turns)
    requires forall t :: t in turns ==> Received(sc, t.event)
    ensures forall i, c :: 0 <= i < |ls| && c in Loaders.RunAll(ls, stores, turns)[i].store ==>
              exists p :: sc.derive(p, Loaders.RunAll(ls, stores, turns)[i].store[c]) == Some(c)
  {
    forall t | t in turns ensures Loaders.EventAddressed(t.event, Names(sc)) {
      ReceivedIsNamed(sc, t.event);
    }
    Loaders.StoreIsAddressed(ls, stores, turns, Names(sc));
    var r := Loaders.RunAll(ls, stores, turns);
    forall i, c | 0 <= i < |ls| && c in r[i].store ensures exists p :: sc.derive(p, r[i].store[c]) == Some(c) {
      assert Loaders.Addressed(r[i], Names(sc)) && Names(sc)(c, r[i].store[c]);
    }
  }

  lemma {:induction false} ReceivedIsNamed(sc: Scheme, e: Loaders.Event)
    requires Received(sc, e)
    ensures Loaders.EventAddressed(e, Names(sc))
  {
    if e.OnIngest? {
      var root :| Decode(sc, root).Some? && BlockData(Decode(sc, root).value) == e.blocks;
      forall c | c in e.blocks ensures Names(sc)(c, e.blocks[c]) {
        DecodedBlocksAreNamed(sc, root, c);
      }
    }
  }

  // ---------------------------------------------------------------- extensions

  method NewGraphSyncExtensions(e: Option<Extensions>) returns (w: Option<WireExtensions>)
    ensures EncodedExtensions(e, w)
  {
    var all := Entries(e);
    if all == map[] {
      return None;
    }
    var keys: seq<string>, values: Extensions, rest := [], map[], all.Keys;
    while rest != {}
      invariant rest <= all.Keys
      invariant multiset(keys) + multiset(rest) == multiset(all.Keys)
      invariant values == map k | k in all && k !in rest :: all[k]
    {
      var name :| name in rest;
      keys, values, rest := keys + [name], values[name := all[name]], rest - {name};
    }
    w := Some(WireExtensions(keys, values));
  }

  /** A list of named extensions with exactly the entries of a map. */
  predicate ListsExtensions(exts: seq<(string, Option<Node>)>, values: Extensions) {
    && (forall i :: 0 <= i < |exts| ==> exts[i].0 in values && exts[i].1 == values[exts[i].0])
    && (forall n :: n in values ==> (n, values[n]) in exts)
  }

  method ToExtensionsList(w: WireExtensions) returns (exts: seq<(string, Option<Node>)>)
    ensures ListsExtensions(exts, w.values) && |exts| == |w.values|
  {
    exts := [];
    var rest := w.values.Keys;
    while rest != {}
      invariant rest <= w.values.Keys && |exts| + |rest| == |w.values|
      invariant forall i :: 0 <= i < |exts| ==> exts[i].0 in w.values && exts[i].1 == w.values[exts[i].0]
      invariant forall n :: n in w.values && n !in rest ==> (n, w.values[n]) in exts
    {
      var name :| name in rest;
      exts, rest := exts + [(name, w.values[name])], rest - {name};
    }
  }

  method ToExtensionsMap(exts: seq<(string, Option<Node>)>) returns (m: Option<Extensions>)
    ensures exts == [] ==> m == None
    ensures exts != [] ==> m == Collect(exts, e => Some(e))
  {
    if |exts| == 0 {
      return None;
    }
    var r: Extensions := map[];
    for i := 0 to |exts|
      invariant Collect(exts[..i], e => Some(e)) == Some(r)
    {
      CollectStep(exts, i, e => Some(e));
      r := r[exts[i].0 := exts[i].1];
    }
    assert exts[..|exts|] == exts;
    m := Some(r);
  }

  /** The order in which the extensions are listed does not matter. */
  lemma {:induction false} ListedExtensionsCollect(exts: seq<(string, Option<Node>)>, values: Extensions)
    requires ListsExtensions(exts, values)
    ensures Collect(exts, e => Some(e)) == Some(values)
  {
    var dec := (e: (string, Option<Node>)) => Some(e);
    CollectIs(exts, dec);
    var m := Collect(exts, dec).value;
    forall n | n in m ensures n in values && m[n] == values[n] {
      assert From(n, m[n], exts, dec);
    }
    forall n | n in values ensures n in m {
      var i :| 0 <= i < |exts| && exts[i] == (n, values[n]);
      assert dec(exts[i]).value.0 in m;
    }
    assert m == values;
  }

  method ExtensionsFromIPLD(w: Option<WireExtensions>) returns (e: Option<Extensions>)
    ensures e == DecodeExtensions(w)
  {
    if w == None {
      return None;
    }
    var exts := ToExtensionsList(w.value);
    ListedExtensionsCollect(exts, w.value.values);
    e := ToExtensionsMap(exts);
  }

  // ---------------------------------------------------------------- the two translations

  lemma {:induction false} WrittenSnoc<V(!new), W(!new)>(v: V, ws: seq<W>, w: W, enc: (V, W) -> bool)
    requires Written(v, ws, enc) || enc(v, w)
    ensures Written(v, ws + [w], enc)
  {
    if enc(v, w) {
      assert (ws + [w])[|ws|] == w;
    } else {
      var i :| 0 <= i < |ws| && enc(v, ws[i]);
      assert (ws + [w])[i] == ws[i];
    }
  }

  /** The list so far has one item for every entry whose key is not among the rest. */
  ghost predicate Listing<K(!new), V(!new), W(!new)>(m: map<K, V>, rest: set<K>, ws: seq<W>, enc: (V, W) -> bool) {
    && rest <= m.Keys && |ws| + |rest| == |m|
    && (forall k :: k in m && k !in rest ==> Written(m[k], ws, enc))
    && (forall i :: 0 <= i < |ws| ==> Read(ws[i], m, enc))
  }

  lemma {:induction false} ListingSnoc<K(!new), V(!new), W(!new)>(m: map<K, V>, rest: set<K>, ws: seq<W>,
                                         enc: (V, W) -> bool, k: K, w: W)
    requires Listing(m, rest, ws, enc) && k in rest && enc(m[k], w)
    ensures Listing(m, rest - {k}, ws + [w], enc)
  {
    forall j | j in m && j !in rest - {k} ensures Written(m[j], ws + [w], enc) {
      WrittenSnoc(m[j], ws, w, enc);
    }
    assert Read(w, m, enc);
    forall i | 0 <= i < |ws + [w]| ensures Read((ws + [w])[i], m, enc) {
      assert i < |ws| ==> Read(ws[i], m, enc);
    }
  }

  method RequestsToIPLD(m: map<Id, Request>) returns (ws: Option<seq<WireRequest>>)
    ensures EncodedMap(m, ws, EncodedRequest)
  {
    if m == map[] {
      return None;
    }
    var out: seq<WireRequest>, rest := [], m.Keys;
    while rest != {}
      invariant Listing(m, rest, out, EncodedRequest)
    {
      var k :| k in rest;
      var r := m[k];
      var exts := NewGraphSyncExtensions(r.extensions);
      var w := WireRequest(r.id, r.kind, None, None, None, exts);
      if r.root != None {
        w := w.(root := r.root);
      }
      if r.selector != None {
        w := w.(selector := r.selector);
      }
      if r.priority != 0 {
        w := w.(priority := Some(r.priority));
      }
      ListingSnoc(m, rest, out, EncodedRequest, k, w);
      out, rest := out + [w], rest - {k};
    }
    ws := Some(out);
  }

  method ResponsesToIPLD(m: map<Id, Response>) returns (ws: Option<seq<WireResponse>>)
    ensures EncodedMap(m, ws, EncodedResponse)
  {
    if m == map[] {
      return None;
    }
    var out: seq<WireResponse>, rest := [], m.Keys;
    while rest != {}
      invariant Listing(m, rest, out, EncodedResponse)
    {
      var k :| k in rest;
      var r := m[k];
      var exts := NewGraphSyncExtensions(r.extensions);
      var w := WireResponse(r.id, r.status, None, exts);
      if |Items(r.metadata)| > 0 {
        w := w.(metadata := r.metadata);
      }
      ListingSnoc(m, rest, out, EncodedResponse, k, w);
      out, rest := out + [w], rest - {k};
    }
    ws := Some(out);
  }

  method BlocksToIPLD(sc: Scheme, m: map<Cid, Block>) returns (ws: Option<seq<WireBlock>>)
    ensures EncodedMap(m, ws, EncodedBlock(sc))
  {
    if m == map[] {
      return None;
    }
    var out: seq<WireBlock>, rest := [], m.Keys;
    while rest != {}
      invariant Listing(m, rest, out, EncodedBlock(sc))
    {
      var k :| k in rest;
      var w := WireBlock(sc.prefixOf(m[k].cid), m[k].data);
      ListingSnoc(m, rest, out, EncodedBlock(sc), k, w);
      out, rest := out + [w], rest - {k};
    }
    ws := Some(out);
  }

  method ToIPLD(sc: Scheme, m: Message) returns (root: Root)
    ensures Encoded(sc, m, root)
  {
    var requests := RequestsToIPLD(Entries(m.requests));
    var responses := ResponsesToIPLD(Entries(m.responses));
    var blocks := BlocksToIPLD(sc, Entries(m.blocks));
    root := Root(Some(Wire(requests, responses, blocks)));
  }

  lemma {:induction false} CollectStep<K, V, W>(ws: seq<W>, i: nat, dec: W -> Option<(K, V)>)
    requires i < |ws|
    ensures Collect(ws[..i + 1], dec) ==
            var m := Collect(ws[..i], dec);
            var e := dec(ws[i]);
            if m.Some? && e.Some? then Some(m.value[e.value.0 := e.value.1]) else None
  {
    assert ws[..i + 1][..i] == ws[..i];
  }

  method RequestsFromIPLD(ws: Option<seq<WireRequest>>) returns (r: Option<Option<map<Id, Request>>>)
    ensures r == DecodeMap(ws, DecodeRequest)
  {
    if ws == None {
      return Some(None);
    }
    var m: map<Id, Request> := map[];
    for i := 0 to |ws.value|
      invariant Collect(ws.value[..i], DecodeRequest) == Some(m)
    {
      var w := ws.value[i];
      CollectStep(ws.value, i, DecodeRequest);
      if !IsId(w.id) {
        CollectIs(ws.value, DecodeRequest);
        return None;
      }
      if w.kind == CancelRequest {
        m := m[w.id := Request(w.id, None, None, 0, CancelRequest, None)];
        continue;
      }
      var exts := ExtensionsFromIPLD(w.extensions);
      if w.kind == UpdateRequest {
        m := m[w.id := Request(w.id, None, None, 0, UpdateRequest, exts)];
        continue;
      }
      var priority := if w.priority.Some? then w.priority.value else 0;
      m := m[w.id := Request(w.id, w.root, w.selector, priority, NewRequest, exts)];
    }
    assert ws.value[..|ws.value|] == ws.value;
    r := Some(Some(m));
  }

  method ResponsesFromIPLD(ws: Option<seq<WireResponse>>) returns (r: Option<Option<map<Id, Response>>>)
    ensures r == DecodeMap(ws, DecodeResponse)
  {
    if ws == None {
      return Some(None);
    }
    var m: map<Id, Response> := map[];
    for i := 0 to |ws.value|
      invariant Collect(ws.value[..i], DecodeResponse) == Some(m)
    {
      var w := ws.value[i];
      CollectStep(ws.value, i, DecodeResponse);
      if !IsId(w.id) {
        CollectIs(ws.value, DecodeResponse);
        return None;
      }
      var exts := ExtensionsFromIPLD(w.extensions);
      m := m[w.id := Response(w.id, w.status, w.metadata, exts)];
    }
    assert ws.value[..|ws.value|] == ws.value;
    r := Some(Some(m));
  }

  method BlocksFromIPLD(sc: Scheme, ws: Option<seq<WireBlock>>) returns (r: Option<Option<map<Cid, Block>>>)
    ensures r == DecodeMap(ws, DecodeBlock(sc))
  {
    if ws == None {
      return Some(None);
    }
    var m: map<Cid, Block> := map[];
    for i := 0 to |ws.value|
      invariant Collect(ws.value[..i], DecodeBlock(sc)) == Some(m)
    {
      var w := ws.value[i];
      CollectStep(ws.value, i, DecodeBlock(sc));
      var c := sc.derive(w.prefix, w.data);
      if c == None {
        CollectIs(ws.value, DecodeBlock(sc));
        return None;
      }
      m := m[c.value := Block(c.value, w.data)];
    }
    assert ws.value[..|ws.value|] == ws.value;
    r := Some(Some(m));
  }

  method FromIPLD(sc: Scheme, root: Root) returns (m: Option<Message>)
    ensures m == Decode(sc, root)
  {
    if root.gs2 == None {
      return None;
    }
    var w := root.gs2.value;
    var requests := RequestsFromIPLD(w.requests);
    var responses := ResponsesFromIPLD(w.responses);
    var blocks := BlocksFromIPLD(sc, w.blocks);
    if requests == None || responses == None || blocks == None {
      return None;
    }
    m := Some(Message(requests.value, responses.value, blocks.value));
  }

  /** Sending a message and receiving it yields the same message exactly when it is well-formed. */
  method SendAndReceive(sc: Scheme, m: Message) returns (r: Option<Message>)
    requires Stable(sc)
    ensures r.Some? && Same(r.value, m) <==> WellFormed(sc, m)
    ensures r.Some? ==> WellFormed(sc, r.value)
  {
    var root := ToIPLD(sc, m);
    r := FromIPLD(sc, root);
    RoundTrip(sc, m, root);
    if r.Some? {
      DecodedIsWellFormed(sc, root);
    }
  }
}
