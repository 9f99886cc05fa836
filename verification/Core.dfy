/** Identifiers and small wrappers shared by every component. */
module Core {

  /** Content identifiers, path segments, peers and request IDs are only ever compared. */
  type Cid = nat
  type Segment = nat
  type Peer = nat
  type RequestId = nat

  type Path = seq<Segment>
  type Bytes = seq<bv8>

  datatype Option<+T> = None | Some(value: T)

  /** What the remote says about a link it met (graphsync.LinkAction). */
  datatype LinkAction = Present | DuplicateNotSent | Missing | DuplicateDAGSkipped {
    /** Whether the remote loaded the block and walked into it. */
    predicate DidFollowLink() {
      Present? || DuplicateNotSent?
    }
  }

  /** One entry of a response's link metadata (GraphSyncLinkMetadatum). */
  datatype Metadatum = Metadatum(link: Cid, action: LinkAction)

  function Size(b: Option<Bytes>): nat {
    if b.Some? then |b.value| else 0
  }

  lemma Associative<T>(a: seq<T>, b: seq<T>, c: seq<T>)
    ensures a + (b + c) == a + b + c
  {
  }
}
