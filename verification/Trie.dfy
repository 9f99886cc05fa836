/**
  The traversal record as a value: a trie of path segments whose nodes may hold a
  link.  The heap structure that builds it is in TraversalRecord.dfy.
 */
module Trie {
  import opened Core

  datatype Trie = Trie(link: Option<Cid>, successful: bool, children: seq<Edge>)
  datatype Edge = Edge(seg: Segment, sub: Trie)

  /** One recorded load. */
  datatype Visit = Visit(path: Path, link: Cid, successful: bool)

  const EMPTY := Trie(None, false, [])

  /** The index of the child for `seg`, searching from `from`; the number of children if absent. */
  function IndexOf(t: Trie, seg: Segment, from: nat := 0): (r: nat)
    requires from <= |t.children|
    ensures from <= r <= |t.children|
    ensures r < |t.children| ==> t.children[r].seg == seg
    ensures forall j :: from <= j < r ==> t.children[j].seg != seg
    decreases |t.children| - from
  {
    if from == |t.children| || t.children[from].seg == seg then from
    else IndexOf(t, seg, from + 1)
  }

  /** The index is the only position that its contract allows. */
  lemma IndexOfIs(t: Trie, seg: Segment, i: nat)
    requires i <= |t.children|
    requires i < |t.children| ==> t.children[i].seg == seg
    requires forall j :: 0 <= j < i ==> t.children[j].seg != seg
    ensures IndexOf(t, seg) == i
  {
  }

  /** `index` finds every child by its segment. */
  ghost predicate IndexedBy(t: Trie, index: map<Segment, nat>) {
    forall s: Segment :: (s in index <==> IndexOf(t, s) < |t.children|) && (s in index ==> index[s] == IndexOf(t, s))
  }

  /** The trie with another subtree below child i. */
  function WithChild(t: Trie, i: nat, sub: Trie): Trie
    requires i < |t.children|
  {
    t.(children := t.children[i := Edge(t.children[i].seg, sub)])
  }

  lemma {:induction false} WithChildIndexed(t: Trie, i: nat, sub: Trie, index: map<Segment, nat>)
    requires i < |t.children| && IndexedBy(t, index)
    ensures IndexedBy(WithChild(t, i, sub), index)
  {
    forall s: Segment ensures IndexOf(WithChild(t, i, sub), s) == IndexOf(t, s) {
      IndexOfIs(WithChild(t, i, sub), s, IndexOf(t, s));
    }
  }

  /** The trie with an empty child for a new segment. */
  function AddEmpty(t: Trie, seg: Segment): Trie {
    t.(children := t.children + [Edge(seg, EMPTY)])
  }

  lemma {:induction false} AddEmptyIndexed(t: Trie, seg: Segment, index: map<Segment, nat>)
    requires IndexedBy(t, index) && seg !in index
    ensures IndexedBy(AddEmpty(t, seg), index[seg := |t.children|])
  {
    forall s: Segment
      ensures IndexOf(AddEmpty(t, seg), s) ==
              if s == seg then |t.children| else if s in index then index[s] else |t.children| + 1
    {
      var i := if s == seg then |t.children| else if s in index then index[s] else |t.children| + 1;
      IndexOfIs(AddEmpty(t, seg), s, i);
    }
  }

  /** Inserting below a node means inserting into the child, once the child exists. */
  lemma InsertInChild(t: Trie, p: Path, link: Cid, ok: bool)
    requires p != []
    ensures var i := IndexOf(t, p[0]);
            var t' := if i < |t.children| then t else AddEmpty(t, p[0]);
            Insert(t, p, link, ok) == WithChild(t', i, Insert(t'.children[i].sub, p[1..], link, ok))
  {
  }

  /** Sibling segments are distinct, everywhere. */
  ghost predicate WellFormed(t: Trie) {
    && (forall i, j :: 0 <= i < j < |t.children| ==> t.children[i].seg != t.children[j].seg)
    && (forall i :: 0 <= i < |t.children| ==> WellFormed(t.children[i].sub))
  }

  /** Every leaf holds a link, so AllLinks never dereferences a missing one. */
  ghost predicate LeavesLinked(t: Trie) {
    && (t.children == [] ==> t.link.Some?)
    && (forall i :: 0 <= i < |t.children| ==> LeavesLinked(t.children[i].sub))
  }

  /** The shape of every record that RecordNextStep can build. */
  ghost predicate Recorded(t: Trie) {
    WellFormed(t) && (t == EMPTY || LeavesLinked(t))
  }

  // ---------------------------------------------------------------- insertion

  function Insert(t: Trie, p: Path, link: Cid, successful: bool): Trie
    decreases |p|
  {
    if p == [] then t.(link := Some(link), successful := successful)
    else
      var i := IndexOf(t, p[0]);
      if i == |t.children| then
        t.(children := t.children + [Edge(p[0], Insert(EMPTY, p[1..], link, successful))])
      else
        t.(children := t.children[i := Edge(p[0], Insert(t.children[i].sub, p[1..], link, successful))])
  }

  function Build(t: Trie, steps: seq<Visit>): Trie
    decreases |steps|
  {
    if steps == [] then t
    else
      var last := steps[|steps| - 1];
      Insert(Build(t, steps[..|steps| - 1]), last.path, last.link, last.successful)
  }

  lemma {:induction false} InsertKeepsShape(t: Trie, p: Path, link: Cid, ok: bool)
    requires Recorded(t)
    ensures WellFormed(Insert(t, p, link, ok)) && LeavesLinked(Insert(t, p, link, ok))
    decreases |p|
  {
    if p != [] {
      var i := IndexOf(t, p[0]);
      if i == |t.children| {
        InsertKeepsShape(EMPTY, p[1..], link, ok);
      } else {
        InsertKeepsShape(t.children[i].sub, p[1..], link, ok);
      }
    }
  }

  /** Whatever is recorded, the trie keeps its shape. */
  lemma {:induction false} BuildIsRecorded(steps: seq<Visit>)
    ensures Recorded(Build(EMPTY, steps))
    ensures steps != [] ==> LeavesLinked(Build(EMPTY, steps))
    decreases |steps|
  {
    if steps != [] {
      var last := steps[|steps| - 1];
      BuildIsRecorded(steps[..|steps| - 1]);
      InsertKeepsShape(Build(EMPTY, steps[..|steps| - 1]), last.path, last.link, last.successful);
    }
  }

  // ------------------------------------------------------------------- lookup

  function Lookup(t: Trie, q: Path): Option<(Cid, bool)>
    decreases |q|
  {
    if q == [] then (if t.link.Some? then Some((t.link.value, t.successful)) else None)
    else
      var i := IndexOf(t, q[0]);
      if i == |t.children| then None else Lookup(t.children[i].sub, q[1..])
  }

  /** Recording changes the lookup at its own path only. */
  lemma {:induction false} InsertLookup(t: Trie, p: Path, link: Cid, ok: bool, q: Path)
    ensures Lookup(Insert(t, p, link, ok), q) == if q == p then Some((link, ok)) else Lookup(t, q)
    decreases |p|
  {
    var t' := Insert(t, p, link, ok);
    if p != [] && q != [] {
      var i, j := IndexOf(t, p[0]), IndexOf(t, q[0]);
      IndexOfIs(t', p[0], i);
      if q[0] == p[0] {
        assert (q == p) == (q[1..] == p[1..]) by {
          if q[1..] == p[1..] {
            assert q == [q[0]] + q[1..] && p == [p[0]] + p[1..];
          }
        }
        if i == |t.children| {
          InsertLookup(EMPTY, p[1..], link, ok, q[1..]);
          assert Lookup(EMPTY, q[1..]) == None;
        } else {
          InsertLookup(t.children[i].sub, p[1..], link, ok, q[1..]);
        }
      } else {
        IndexOfIs(t', q[0], if j < |t.children| then j else |t'.children|);
      }
    }
  }

  // ------------------------------------------------------------ the plain walk

  /**
    The pre-order walk of the recorded links below `path`, with the subtree under
    every link whose path is in `cut` left out.
   */
  function Walk(t: Trie, path: Path, cut: set<Path>): seq<Visit>
    decreases t, |t.children| + 1
  {
    if t.link.Some? then
      [Visit(path, t.link.value, t.successful)] + if path in cut then [] else WalkFrom(t, 0, path, cut)
    else WalkFrom(t, 0, path, cut)
  }

  function WalkFrom(t: Trie, i: nat, path: Path, cut: set<Path>): seq<Visit>
    requires i <= |t.children|
    decreases t, |t.children| - i
  {
    if i == |t.children| then []
    else Walk(t.children[i].sub, path + [t.children[i].seg], cut) + WalkFrom(t, i + 1, path, cut)
  }

  function Links(vs: seq<Visit>): (r: seq<Cid>)
    ensures |r| == |vs| && forall i :: 0 <= i < |vs| ==> r[i] == vs[i].link
  {
    seq(|vs|, i requires 0 <= i < |vs| => vs[i].link)
  }

  lemma LinksConcat(a: seq<Visit>, b: seq<Visit>)
    ensures Links(a + b) == Links(a) + Links(b)
  {
  }

  ghost predicate IsPrefix(p: Path, q: Path) {
    |p| <= |q| && q[..|p|] == p
  }

  /** The path leaves `base` through one of the children from lo to hi. */
  ghost predicate Through(t: Trie, lo: nat, hi: nat, base: Path, path: Path)
    requires lo <= hi <= |t.children|
  {
    exists j :: lo <= j < hi && IsPrefix(base + [t.children[j].seg], path)
  }

  /** Everything walked below a node has the node's path as a prefix. */
  lemma {:induction false} WalkPrefix(t: Trie, path: Path, cut: set<Path>)
    ensures forall v :: v in Walk(t, path, cut) ==> IsPrefix(path, v.path)
    decreases t, |t.children| + 1
  {
    WalkFromBranch(t, 0, path, cut);
    forall v | v in Walk(t, path, cut) ensures IsPrefix(path, v.path) {
      if v in WalkFrom(t, 0, path, cut) {
        var j :| 0 <= j < |t.children| && IsPrefix(path + [t.children[j].seg], v.path);
        assert path == (path + [t.children[j].seg])[..|path|];
      }
    }
  }

  /** Everything walked below the children from i on goes through one of those children. */
  lemma {:induction false} WalkFromBranch(t: Trie, i: nat, path: Path, cut: set<Path>)
    requires i <= |t.children|
    ensures forall v :: v in WalkFrom(t, i, path, cut) ==>
              Through(t, i, |t.children|, path, v.path)
    decreases t, |t.children| - i
  {
    if i < |t.children| {
      WalkPrefix(t.children[i].sub, path + [t.children[i].seg], cut);
      WalkFromBranch(t, i + 1, path, cut);
    }
  }

  // ----------------------------------------------------- AllLinks and GetLinks

  /** TraversalRecord.AllLinks.  The source dereferences a nil link on a linkless leaf. */
  function AllLinks(t: Trie): seq<Cid>
    requires LeavesLinked(t)
    decreases t, |t.children| + 1
  {
    if t.children == [] then [t.link.value]
    else (if t.link.Some? then [t.link.value] else []) + AllLinksFrom(t, 0)
  }

  function AllLinksFrom(t: Trie, i: nat): seq<Cid>
    requires LeavesLinked(t) && i <= |t.children|
    decreases t, |t.children| - i
  {
    if i == |t.children| then [] else AllLinks(t.children[i].sub) + AllLinksFrom(t, i + 1)
  }

  lemma {:induction false} AllLinksIsWalk(t: Trie, path: Path)
    requires LeavesLinked(t)
    ensures AllLinks(t) == Links(Walk(t, path, {}))
    decreases t, |t.children| + 1
  {
    AllLinksFromIsWalk(t, 0, path);
  }

  lemma {:induction false} AllLinksFromIsWalk(t: Trie, i: nat, path: Path)
    requires LeavesLinked(t) && i <= |t.children|
    ensures AllLinksFrom(t, i) == Links(WalkFrom(t, i, path, {}))
    decreases t, |t.children| - i
  {
    if i < |t.children| {
      AllLinksIsWalk(t.children[i].sub, path + [t.children[i].seg]);
      AllLinksFromIsWalk(t, i + 1, path);
    }
  }

  /** TraversalRecord.GetLinks. */
  function GetLinks(t: Trie, p: Path): seq<Cid>
    requires Recorded(t)
    decreases |p|
  {
    if p == [] then (if t.link.Some? then [t.link.value] else [])
    else
      var i := IndexOf(t, p[0]);
      if i == |t.children| then []
      else if |p| == 1 then AllLinks(t.children[i].sub)
      else GetLinks(t.children[i].sub, p[1..])
  }

  /** The visits of `w` at or below `p` are exactly those from a to b. */
  ghost predicate Slice(w: seq<Visit>, a: nat, b: nat, p: Path) {
    && a <= b <= |w|
    && forall k :: 0 <= k < |w| ==> (IsPrefix(p, w[k].path) <==> a <= k < b)
  }

  ghost predicate NoneBelow(w: seq<Visit>, p: Path) {
    forall k :: 0 <= k < |w| ==> !IsPrefix(p, w[k].path)
  }

  lemma {:induction false} SliceInside(w: seq<Visit>, x: seq<Visit>, y: seq<Visit>, z: seq<Visit>, a: nat, b: nat,
                                       p: Path)
    requires w == x + y + z && NoneBelow(x, p) && Slice(y, a, b, p) && NoneBelow(z, p)
    ensures Slice(w, |x| + a, |x| + b, p)
    ensures w[|x| + a..|x| + b] == y[a..b]
  {
  }

  /** Visits that leave `base` by other segments than p[0] are not below base + p. */
  lemma {:induction false} OffBranch(t: Trie, lo: nat, hi: nat, base: Path, p: Path, w: seq<Visit>)
    requires p != [] && lo <= hi <= |t.children|
    requires forall j :: lo <= j < hi ==> t.children[j].seg != p[0]
    requires forall v :: v in w ==> Through(t, lo, hi, base, v.path)
    ensures NoneBelow(w, base + p)
  {
    forall k | 0 <= k < |w| ensures !IsPrefix(base + p, w[k].path) {
      assert w[k] in w;
      var j :| lo <= j < hi && IsPrefix(base + [t.children[j].seg], w[k].path);
      assert w[k].path[|base|] == (base + [t.children[j].seg])[|base|];
      assert (base + p)[|base|] == p[0];
    }
  }

  /** The walk around the i-th child: what comes before it, the child, and what comes after. */
  lemma {:induction false} WalkAround(t: Trie, i: nat, base: Path, p: Path) returns (pre: seq<Visit>, post: seq<Visit>)
    requires i < |t.children| && p != [] && t.children[i].seg == p[0]
    requires forall j :: 0 <= j < |t.children| && j != i ==> t.children[j].seg != p[0]
    ensures Walk(t, base, {}) == pre + Walk(t.children[i].sub, base + [p[0]], {}) + post
    ensures NoneBelow(pre, base + p) && NoneBelow(post, base + p)
    ensures post == WalkFrom(t, i + 1, base, {})
  {
    var before := SplitAt(t, 0, i, base);
    OffBranch(t, 0, i, base, p, before);
    post := WalkFrom(t, i + 1, base, {});
    WalkFromBranch(t, i + 1, base, {});
    OffBranch(t, i + 1, |t.children|, base, p, post);
    pre := before;
    if t.link.Some? {
      var own := [Visit(base, t.link.value, t.successful)];
      pre := own + before;
      assert own + (before + Walk(t.children[i].sub, base + [p[0]], {}) + post)
          == pre + Walk(t.children[i].sub, base + [p[0]], {}) + post;
    }
  }

  lemma {:induction false} NoChild(t: Trie, base: Path, p: Path)
    requires p != [] && IndexOf(t, p[0]) == |t.children|
    ensures NoneBelow(Walk(t, base, {}), base + p)
  {
    var all := WalkFrom(t, 0, base, {});
    WalkFromBranch(t, 0, base, {});
    OffBranch(t, 0, |t.children|, base, p, all);
  }

  lemma {:induction false} GetLinksFrom(t: Trie, base: Path, p: Path, w: seq<Visit>) returns (a: nat, b: nat)
    requires Recorded(t) && p != [] && w == Walk(t, base, {})
    ensures Slice(w, a, b, base + p)
    ensures GetLinks(t, p) == Links(w[a..b])
    decreases |p|, 3
  {
    var i := IndexOf(t, p[0]);
    if i == |t.children| {
      NoChild(t, base, p);
      a, b := |w|, |w|;
    } else {
      a, b := GetLinksVia(t, i, base, p, w);
    }
  }

  lemma {:induction false} GetLinksVia(t: Trie, i: nat, base: Path, p: Path, w: seq<Visit>) returns (a: nat, b: nat)
    requires WellFormed(t) && p != [] && w == Walk(t, base, {}) && i == IndexOf(t, p[0]) < |t.children|
    requires Recorded(t.children[i].sub) && LeavesLinked(t.children[i].sub)
    ensures Slice(w, a, b, base + p)
    ensures (if |p| == 1 then AllLinks(t.children[i].sub) else GetLinks(t.children[i].sub, p[1..])) == Links(w[a..b])
    decreases |p|, 2
  {
    var c := Walk(t.children[i].sub, base + [p[0]], {});
    var lo, hi := GetLinksBelow(t.children[i].sub, base, p, c);
    a, b := SliceOfChild(t, i, base, p, w, lo, hi);
  }

  /** What is a slice of a child's walk is the same slice of the whole walk, further on. */
  lemma {:induction false} SliceOfChild(t: Trie, i: nat, base: Path, p: Path, w: seq<Visit>, lo: nat, hi: nat)
    returns (a: nat, b: nat)
    requires WellFormed(t) && p != [] && w == Walk(t, base, {}) && i == IndexOf(t, p[0]) < |t.children|
    requires Slice(Walk(t.children[i].sub, base + [p[0]], {}), lo, hi, base + p)
    ensures Slice(w, a, b, base + p) && w[a..b] == Walk(t.children[i].sub, base + [p[0]], {})[lo..hi]
  {
    var c := Walk(t.children[i].sub, base + [p[0]], {});
    var pre, post := WalkAround(t, i, base, p);
    assert w == pre + c + post;
    SliceInside(w, pre, c, post, lo, hi, base + p);
    a, b := |pre| + lo, |pre| + hi;
  }

  lemma {:induction false} GetLinksBelow(sub: Trie, base: Path, p: Path, c: seq<Visit>) returns (a: nat, b: nat)
    requires Recorded(sub) && LeavesLinked(sub) && p != [] && c == Walk(sub, base + [p[0]], {})
    ensures Slice(c, a, b, base + p)
    ensures (if |p| == 1 then AllLinks(sub) else GetLinks(sub, p[1..])) == Links(c[a..b])
    decreases |p|, 1
  {
    var below := base + [p[0]];
    if |p| == 1 {
      assert base + p == below;
      WalkPrefix(sub, below, {});
      AllLinksIsWalk(sub, below);
      a, b := 0, |c|;
      assert c[a..b] == c;
    } else {
      a, b := GetLinksFrom(sub, below, p[1..], c);
      assert below + p[1..] == base + p;
    }
  }

  /** The walk of the children before the i-th one. */
  lemma {:induction false} SplitAt(t: Trie, from: nat, i: nat, base: Path) returns (pre: seq<Visit>)
    requires from <= i < |t.children|
    ensures WalkFrom(t, from, base, {})
         == pre + Walk(t.children[i].sub, base + [t.children[i].seg], {}) + WalkFrom(t, i + 1, base, {})
    ensures forall v :: v in pre ==> Through(t, from, i, base, v.path)
    decreases i - from
  {
    if from == i {
      pre := [];
    } else {
      var here := Walk(t.children[from].sub, base + [t.children[from].seg], {});
      WalkPrefix(t.children[from].sub, base + [t.children[from].seg], {});
      var rest := SplitAt(t, from + 1, i, base);
      pre := here + rest;
      assert here + (rest + Walk(t.children[i].sub, base + [t.children[i].seg], {}) + WalkFrom(t, i + 1, base, {}))
          == pre + Walk(t.children[i].sub, base + [t.children[i].seg], {}) + WalkFrom(t, i + 1, base, {});
    }
  }

  /**
    GetLinks of a non-empty path is the contiguous piece of AllLinks recorded at or
    below that path, and empty when the path is unknown.
   */
  lemma {:induction false} GetLinksIsSlice(t: Trie, p: Path)
    requires Recorded(t) && LeavesLinked(t) && p != []
    ensures exists a: nat, b: nat ::
              && Slice(Walk(t, [], {}), a, b, p)
              && |AllLinks(t)| == |Walk(t, [], {})|
              && GetLinks(t, p) == AllLinks(t)[a..b]
  {
    var a, b := GetLinksFrom(t, [], p, Walk(t, [], {}));
    assert [] + p == p;
    AllLinksIsWalk(t, []);
    assert Links(Walk(t, [], {}))[a..b] == Links(Walk(t, [], {})[a..b]);
  }

  // ---------------------------------------------------- recording in pre-order

  /** No repeats, no path before its own prefix, and paths sharing a prefix are contiguous. */
  ghost predicate PreOrder(ps: seq<Path>) {
    && (forall i, j :: 0 <= i < j < |ps| ==> Earlier(ps[i], ps[j]))
    && (forall i, j, k :: 0 <= i < j < k < |ps| ==> Between(ps[i], ps[j], ps[k]))
  }

  /** `q` is neither `p` nor one of its prefixes. */
  ghost predicate Earlier(p: Path, q: Path) {
    !IsPrefix(q, p)
  }

  /** What the outer two paths share, the middle one shares too. */
  ghost predicate Between(p: Path, q: Path, r: Path) {
    forall c: Path :: IsPrefix(c, p) && IsPrefix(c, r) ==> IsPrefix(c, q)
  }

  function Paths(vs: seq<Visit>): (r: seq<Path>)
    ensures |r| == |vs| && forall i :: 0 <= i < |vs| ==> r[i] == vs[i].path
  {
    seq(|vs|, i requires 0 <= i < |vs| => vs[i].path)
  }

  /** `p` may be added to the right of everything in the trie. */
  ghost predicate RightOpen(t: Trie, p: Path)
    decreases |p|
  {
    if p == [] then t == EMPTY
    else
      var i := IndexOf(t, p[0]);
      i == |t.children| || (i == |t.children| - 1 && RightOpen(t.children[i].sub, p[1..]))
  }

  /** The walk of the first m children. */
  ghost function WalkUpTo(t: Trie, m: nat, base: Path): seq<Visit>
    requires m <= |t.children|
  {
    if m == 0 then []
    else WalkUpTo(t, m - 1, base) + Walk(t.children[m - 1].sub, base + [t.children[m - 1].seg], {})
  }

  lemma {:induction false} WalkCutAt(t: Trie, m: nat, base: Path)
    requires m <= |t.children|
    ensures WalkFrom(t, 0, base, {}) == WalkUpTo(t, m, base) + WalkFrom(t, m, base, {})
  {
    if m > 0 {
      WalkCutAt(t, m - 1, base);
    }
  }

  lemma {:induction false} WalkUpToSame(t: Trie, t': Trie, m: nat, base: Path)
    requires m <= |t.children| && m <= |t'.children|
    requires forall i :: 0 <= i < m ==> t.children[i] == t'.children[i]
    ensures WalkUpTo(t, m, base) == WalkUpTo(t', m, base)
  {
    if m > 0 {
      WalkUpToSame(t, t', m - 1, base);
    }
  }

  /** Replacing or adding the last child changes only the end of the walk. */
  lemma {:induction false} LastChildWalk(t: Trie, t': Trie, i: nat, seg: Segment, was: Trie, now: Trie, v: Visit,
                                         base: Path)
    requires i <= |t.children| && |t'.children| == i + 1 && t'.link == t.link && t'.successful == t.successful
    requires forall j :: 0 <= j < i ==> t.children[j] == t'.children[j]
    requires if i < |t.children| then i == |t.children| - 1 && t.children[i] == Edge(seg, was) else was == EMPTY
    requires t'.children[i] == Edge(seg, now)
    requires Walk(now, base + [seg], {}) == Walk(was, base + [seg], {}) + [v]
    ensures Walk(t', base, {}) == Walk(t, base, {}) + [v]
  {
    var u, a, b := WalkUpTo(t, i, base), WalkFrom(t, i, base, {}), WalkFrom(t', i, base, {});
    WalkCutAt(t, i, base);
    WalkCutAt(t', i, base);
    WalkUpToSame(t, t', i, base);
    assert b == a + [v] by {
      assert WalkFrom(t', i + 1, base, {}) == [];
      assert b == Walk(now, base + [seg], {});
      assert a == Walk(was, base + [seg], {});
    }
    assert u + b == u + a + [v];
    if t.link.Some? {
      var own := [Visit(base, t.link.value, t.successful)];
      assert own + (u + a + [v]) == own + (u + a) + [v];
    }
  }

  /** Recording to the right of everything appends to the walk. */
  lemma {:induction false} InsertAppends(t: Trie, p: Path, link: Cid, ok: bool, base: Path)
    requires RightOpen(t, p)
    ensures Walk(Insert(t, p, link, ok), base, {}) == Walk(t, base, {}) + [Visit(base + p, link, ok)]
    decreases |p|
  {
    if p == [] {
      assert base + p == base;
    } else {
      var i := IndexOf(t, p[0]);
      var was := if i == |t.children| then EMPTY else t.children[i].sub;
      assert RightOpen(was, p[1..]) by {
        EmptyIsOpen(p[1..]);
      }
      InsertAppends(was, p[1..], link, ok, base + [p[0]]);
      assert base + [p[0]] + p[1..] == base + p;
      LastChildWalk(t, Insert(t, p, link, ok), i, p[0], was, Insert(was, p[1..], link, ok), Visit(base + p, link, ok),
        base);
    }
  }

  lemma EmptyIsOpen(p: Path)
    ensures RightOpen(EMPTY, p)
  {
  }

  lemma {:induction false} LinkedWalkNonEmpty(t: Trie, base: Path)
    requires LeavesLinked(t)
    ensures Walk(t, base, {}) != []
    decreases t
  {
    if t.children != [] {
      LinkedWalkNonEmpty(t.children[0].sub, base + [t.children[0].seg]);
    }
  }

  lemma {:induction false} PrefixAt(q: Path, r: Path, n: nat)
    ensures IsPrefix(q, r) && n < |q| ==> q[n] == r[n]
  {
  }

  lemma {:induction false} PrefixOfPrefix(q: Path, base: Path, r: Path)
    requires IsPrefix(base, r) && |q| <= |base|
    ensures IsPrefix(q, r) <==> IsPrefix(q, base)
  {
  }

  lemma {:induction false} PreOrderSuffix(ps: seq<Path>, k: nat)
    requires PreOrder(ps) && k <= |ps|
    ensures PreOrder(ps[k..])
  {
  }

  /** If `p` comes next in pre-order after everything walked, it lies to the right of it. */
  lemma {:induction false} NextIsRightOpen(t: Trie, p: Path, base: Path)
    requires Recorded(t)
    requires PreOrder(Paths(Walk(t, base, {})) + [base + p])
    ensures RightOpen(t, p)
    decreases |p|
  {
    if p == [] {
      NothingBefore(t, base);
    } else if IndexOf(t, p[0]) < |t.children| {
      var i := IndexOf(t, p[0]);
      var below := base + [p[0]];
      var c := Walk(t.children[i].sub, below, {});
      var pre := NextInLastChild(t, i, p, base);
      assert (Paths(Walk(t, base, {})) + [base + p])[|pre|..] == Paths(c) + [below + p[1..]] by {
        assert below + p[1..] == base + p;
      }
      PreOrderSuffix(Paths(Walk(t, base, {})) + [base + p], |pre|);
      NextIsRightOpen(t.children[i].sub, p[1..], below);
    }
  }

  /** A path is never next after something recorded below it. */
  lemma {:induction false} NothingBefore(t: Trie, base: Path)
    requires Recorded(t) && PreOrder(Paths(Walk(t, base, {})) + [base + []])
    ensures t == EMPTY
  {
    if LeavesLinked(t) {
      OwnPathIsNotNext(t, base);
    }
  }

  lemma {:induction false} OwnPathIsNotNext(t: Trie, base: Path)
    requires LeavesLinked(t)
    ensures !PreOrder(Paths(Walk(t, base, {})) + [base + []])
  {
    var w := Walk(t, base, {});
    var ps := Paths(w) + [base + []];
    LinkedWalkNonEmpty(t, base);
    WalkPrefix(t, base, {});
    assert w[0] in w && ps[0] == w[0].path && ps[|w|] == base;
    assert !Earlier(ps[0], ps[|w|]);
  }

  /** If the next path goes below child i, child i is the last one. */
  lemma {:induction false} NextInLastChild(t: Trie, i: nat, p: Path, base: Path) returns (pre: seq<Visit>)
    requires Recorded(t) && p != [] && i < |t.children| && IndexOf(t, p[0]) == i
    requires PreOrder(Paths(Walk(t, base, {})) + [base + p])
    ensures i == |t.children| - 1
    ensures Walk(t, base, {}) == pre + Walk(t.children[i].sub, base + [p[0]], {})
  {
    if i + 1 < |t.children| {
      LaterSibling(t, i, p, base);
    }
    var post;
    pre, post := WalkAround(t, i, base, p[..1]);
  }

  lemma {:induction false} LaterSibling(t: Trie, i: nat, p: Path, base: Path)
    requires WellFormed(t) && LeavesLinked(t) && p != [] && i + 1 < |t.children| && IndexOf(t, p[0]) == i
    ensures !PreOrder(Paths(Walk(t, base, {})) + [base + p])
  {
    var w := Walk(t, base, {});
    var ps := Paths(w) + [base + p];
    var below := base + [p[0]];
    var c := Walk(t.children[i].sub, below, {});
    var pre, post := WalkAround(t, i, base, p[..1]);
    assert base + p[..1] == below;
    LinkedWalkNonEmpty(t.children[i].sub, below);
    LinkedWalkNonEmpty(t.children[i + 1].sub, base + [t.children[i + 1].seg]);
    WalkPrefix(t.children[i].sub, below, {});
    assert c[0] in c && ps[|pre|] == c[0].path;
    assert IsPrefix(below, ps[|w|]) by {
      assert (base + p)[..|below|] == below;
    }
    assert ps[|pre| + |c|] == post[0].path;
    assert !Between(ps[|pre|], ps[|pre| + |c|], ps[|w|]) by {
      assert !IsPrefix(below, ps[|pre| + |c|]);
    }
  }

  // --------------------------------------------- walks are pre-order sequences

  lemma {:induction false} ConsPreOrder(base: Path, ps: seq<Path>)
    requires PreOrder(ps)
    requires forall i :: 0 <= i < |ps| ==> IsPrefix(base, ps[i]) && |ps[i]| > |base|
    ensures PreOrder([base] + ps)
  {
  }

  /** If the outer two paths share nothing beyond a common base of all three, the middle one is between. */
  lemma {:induction false} SharedBase(base: Path, p: Path, q: Path, r: Path)
    requires IsPrefix(base, p) && IsPrefix(base, q)
    requires |p| == |base| || (IsPrefix(base, r) && |p| > |base| && |r| > |base| && p[|base|] != r[|base|])
    ensures Between(p, q, r)
  {
  }

  lemma {:induction false} ConcatPreOrder(base: Path, seg: Segment, ps: seq<Path>, qs: seq<Path>)
    requires PreOrder(ps) && PreOrder(qs)
    requires forall i :: 0 <= i < |ps| ==> IsPrefix(base + [seg], ps[i])
    requires forall i :: 0 <= i < |qs| ==> IsPrefix(base, qs[i]) && |qs[i]| > |base| && qs[i][|base|] != seg
    ensures PreOrder(ps + qs)
  {
    var r := ps + qs;
    var n := |base|;
    forall i | 0 <= i < |r| ensures IsPrefix(base, r[i]) && |r[i]| > n && (r[i][n] == seg <==> i < |ps|) {
      if i < |ps| {
        assert base == (base + [seg])[..n];
        PrefixAt(base + [seg], ps[i], n);
      }
    }
    forall i, j | 0 <= i < j < |r| ensures Earlier(r[i], r[j]) {
      if j < |ps| {
        assert Earlier(ps[i], ps[j]);
      } else if i < |ps| {
        PrefixAt(r[j], r[i], n);
      } else {
        assert Earlier(qs[i - |ps|], qs[j - |ps|]);
      }
    }
    forall i, j, k | 0 <= i < j < k < |r| ensures Between(r[i], r[j], r[k]) {
      if k < |ps| {
        assert Between(ps[i], ps[j], ps[k]);
      } else if i < |ps| {
        SharedBase(base, r[i], r[j], r[k]);
      } else {
        assert Between(qs[i - |ps|], qs[j - |ps|], qs[k - |ps|]);
      }
    }
  }

  lemma {:induction false} WalkFromPreOrder(t: Trie, i: nat, base: Path)
    requires WellFormed(t) && i <= |t.children|
    ensures PreOrder(Paths(WalkFrom(t, i, base, {})))
    decreases t, |t.children| - i
  {
    if i < |t.children| {
      var e := t.children[i];
      var here, rest := Walk(e.sub, base + [e.seg], {}), WalkFrom(t, i + 1, base, {});
      WalkPreOrder(e.sub, base + [e.seg]);
      WalkFromPreOrder(t, i + 1, base);
      WalkPrefix(e.sub, base + [e.seg], {});
      BelowBase(t, i + 1, base);
      forall k | 0 <= k < |rest| ensures IsPrefix(base, rest[k].path) && |rest[k].path| > |base|
        && rest[k].path[|base|] != e.seg {
        var j :| i + 1 <= j < |t.children| && rest[k].path[|base|] == t.children[j].seg;
      }
      ConcatPreOrder(base, e.seg, Paths(here), Paths(rest));
      assert Paths(here + rest) == Paths(here) + Paths(rest);
    }
  }

  lemma {:induction false} BelowBase(t: Trie, i: nat, base: Path)
    requires i <= |t.children|
    ensures forall k :: 0 <= k < |WalkFrom(t, i, base, {})| ==>
              var p := WalkFrom(t, i, base, {})[k].path;
              IsPrefix(base, p) && |p| > |base| && exists j :: i <= j < |t.children| && p[|base|] == t.children[j].seg
  {
    var w := WalkFrom(t, i, base, {});
    WalkFromBranch(t, i, base, {});
    forall k | 0 <= k < |w|
      ensures IsPrefix(base, w[k].path) && |w[k].path| > |base|
      ensures exists j :: i <= j < |t.children| && w[k].path[|base|] == t.children[j].seg
    {
      assert w[k] in w;
      var j :| i <= j < |t.children| && IsPrefix(base + [t.children[j].seg], w[k].path);
      assert base == (base + [t.children[j].seg])[..|base|];
      assert w[k].path[|base|] == w[k].path[..|base| + 1][|base|];
    }
  }

  lemma {:induction false} WalkPreOrder(t: Trie, base: Path)
    requires WellFormed(t)
    ensures PreOrder(Paths(Walk(t, base, {})))
    decreases t, |t.children| + 1
  {
    var rest := WalkFrom(t, 0, base, {});
    WalkFromPreOrder(t, 0, base);
    if t.link.Some? {
      BelowBase(t, 0, base);
      ConsPreOrder(base, Paths(rest));
      assert Paths(Walk(t, base, {})) == [base] + Paths(rest);
    }
  }

  /**
    The record gives back the recorded steps, in the order they were recorded, exactly
    when they were recorded in pre-order.
   */
  lemma {:induction false} RecordInOrder(steps: seq<Visit>)
    ensures Walk(Build(EMPTY, steps), [], {}) == steps <==> PreOrder(Paths(steps))
    decreases |steps|
  {
    BuildIsRecorded(steps);
    WalkPreOrder(Build(EMPTY, steps), []);
    if PreOrder(Paths(steps)) {
      RecordedInOrder(steps);
    }
  }

  lemma {:induction false} RecordedInOrder(steps: seq<Visit>)
    requires PreOrder(Paths(steps))
    ensures Walk(Build(EMPTY, steps), [], {}) == steps
    decreases |steps|
  {
    if steps != [] {
      var init, last := steps[..|steps| - 1], steps[|steps| - 1];
      OrderedInit(steps);
      RecordedInOrder(init);
      BuildIsRecorded(init);
      RecordNextInOrder(Build(EMPTY, init), init, last);
      assert steps == init + [last];
    }
  }

  lemma {:induction false} OrderedInit(steps: seq<Visit>)
    requires steps != [] && PreOrder(Paths(steps))
    ensures PreOrder(Paths(steps[..|steps| - 1]))
    ensures PreOrder(Paths(steps[..|steps| - 1]) + [steps[|steps| - 1].path])
  {
    var init, last := steps[..|steps| - 1], steps[|steps| - 1];
    PreOrderPrefix(Paths(steps), |steps| - 1);
    assert Paths(steps)[..|steps| - 1] == Paths(init);
    assert Paths(steps) == Paths(init) + [last.path];
  }

  lemma {:induction false} RecordNextInOrder(t: Trie, init: seq<Visit>, last: Visit)
    requires Recorded(t) && Walk(t, [], {}) == init
    requires PreOrder(Paths(init) + [last.path])
    ensures Walk(Insert(t, last.path, last.link, last.successful), [], {}) == init + [last]
  {
    assert [] + last.path == last.path;
    NextIsRightOpen(t, last.path, []);
    InsertAppends(t, last.path, last.link, last.successful, []);
  }

  lemma {:induction false} PreOrderPrefix(ps: seq<Path>, k: nat)
    requires PreOrder(ps) && k <= |ps|
    ensures PreOrder(ps[..k])
  {
  }

  /** Recorded in pre-order, AllLinks is the recorded link sequence. */
  lemma {:induction false} AllLinksOfRecord(steps: seq<Visit>)
    requires steps != [] && PreOrder(Paths(steps))
    ensures LeavesLinked(Build(EMPTY, steps))
    ensures AllLinks(Build(EMPTY, steps)) == Links(steps)
  {
    BuildIsRecorded(steps);
    RecordInOrder(steps);
    AllLinksIsWalk(Build(EMPTY, steps), []);
  }
}
