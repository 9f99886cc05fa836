/**
  The verifier that replays a traversal record against the remote's metadata: a stack
  of trie nodes, proved to follow the plain pre-order walk of the record.
 */
module Verifier {
  import opened Core
  import opened Trie

  /** The links from the root to the node that is expected next; the root's segment is unused. */
  type Stack = seq<Edge>

  datatype Item = Item(link: Cid, followed: bool)

  /** The errors of VerifyNext. */
  datatype Refusal =
    | NothingLeft
    | IncorrectResponse(local: Cid, remote: Cid, path: Path)
    | AdditionalData

  datatype Verdict = Accepted(stack: Stack) | Refused(why: Refusal)

  function Tip(s: Stack): Trie
    requires s != []
  {
    s[|s| - 1].sub
  }

  /** Each node of the stack is the child of the node before it that its segment names. */
  ghost predicate Linked(s: Stack) {
    forall i {:trigger LinkedAt(s, i)} :: 1 <= i < |s| ==> LinkedAt(s, i)
  }

  ghost predicate LinkedAt(s: Stack, i: nat)
    requires 1 <= i < |s|
  {
    IsChild(s[i - 1].sub, s[i])
  }

  /** Without the tip the nodes are still linked, and the tip is a child of what is then the tip. */
  lemma {:induction false} Popped(s: Stack)
    requires s != [] && Linked(s)
    ensures Linked(s[..|s| - 1]) && (|s| > 1 ==> IsChild(s[|s| - 2].sub, s[|s| - 1]))
  {
    var init := s[..|s| - 1];
    assert |s| > 1 ==> LinkedAt(s, |s| - 1);
    forall i | 1 <= i < |init| ensures LinkedAt(init, i) {
      assert LinkedAt(s, i);
    }
  }

  ghost predicate IsChild(parent: Trie, e: Edge) {
    IndexOf(parent, e.seg) < |parent.children| && parent.children[IndexOf(parent, e.seg)] == e
  }

  /** What NewVerifier establishes and VerifyNext keeps. */
  ghost predicate Valid(s: Stack) {
    && Linked(s)
    && (forall i :: 0 <= i < |s| ==> Recorded(s[i].sub))
    && (s != [] ==> Tip(s).link.Some? || (|s| == 1 && Tip(s) == EMPTY))
  }

  function AppendUntilLink(s: Stack): (r: Stack)
    requires s != []
    ensures |r| >= |s| && r[0] == s[0]
    decreases Tip(s)
  {
    if Tip(s).link.None? && |Tip(s).children| > 0 then AppendUntilLink(s + [Tip(s).children[0]]) else s
  }

  function New(t: Trie): Stack {
    AppendUntilLink([Edge(0, t)])
  }

  function NextLink(s: Stack, exploreChildren: bool): (r: Stack)
    requires s != [] && Linked(s)
    ensures r != [] ==> r[0] == s[0]
    decreases |s|, if exploreChildren then 1 else 0
  {
    var last := s[|s| - 1];
    if |last.sub.children| > 0 && exploreChildren then AppendUntilLink(s + [last.sub.children[0]])
    else
      Popped(s);
      NextSibling(s[..|s| - 1], last.seg)
  }

  /** The rest of NextLink, once the child `seg` is popped. */
  function NextSibling(s: Stack, seg: Segment): (r: Stack)
    requires Linked(s) && (s != [] ==> IndexOf(Tip(s), seg) < |Tip(s).children|)
    ensures r != [] ==> s != [] && r[0] == s[0]
    decreases |s|, 2
  {
    if s == [] then []
    else
      var i := IndexOf(Tip(s), seg);
      if i == |Tip(s).children| - 1 then NextLink(s, false)
      else AppendUntilLink(s + [Tip(s).children[i + 1]])
  }

  function CurrentPath(s: Stack): Path {
    if Done(s) then [] else Segments(s)
  }

  /** The segments of the stack, without the root's. */
  function Segments(s: Stack): (p: Path)
    ensures |s| > 0 ==> |p| == |s| - 1
  {
    if |s| <= 1 then [] else Segments(s[..|s| - 1]) + [s[|s| - 1].seg]
  }

  lemma {:induction false} SegmentsStep(s: Stack, i: nat)
    requires 1 <= i < |s|
    ensures Segments(s[..i + 1]) == Segments(s[..i]) + [s[i].seg]
  {
    assert s[..i + 1][..i] == s[..i];
  }

  predicate Done(s: Stack) {
    |s| == 0 || (|s| == 1 && s[0].sub.link.None?)
  }

  /**
    What holds of a stack of a record that goes on growing: a root without a link counts as
    done even when links have been recorded below it since.
   */
  ghost predicate Live(s: Stack) {
    && Linked(s)
    && (forall i :: 0 <= i < |s| ==> Recorded(s[i].sub))
    && (s != [] ==> Tip(s).link.Some? || |s| == 1)
  }

  function VerifyNext(s: Stack, item: Item): Verdict
    requires Live(s)
  {
    if Done(s) then Refused(NothingLeft)
    else if Tip(s).link.value != item.link then
      Refused(IncorrectResponse(Tip(s).link.value, item.link, CurrentPath(s)))
    else if !Tip(s).successful && item.followed then Refused(AdditionalData)
    else Accepted(NextLink(s, item.followed))
  }

  // ------------------------------------------------- a record that goes on growing

  /** The node at a path; an empty one where there is none. */
  function Node(t: Trie, q: Path): Trie
    decreases |q|
  {
    if q == [] then t
    else
      var i := IndexOf(t, q[0]);
      if i < |t.children| then Node(t.children[i].sub, q[1..]) else EMPTY
  }

  predicate HasPath(t: Trie, q: Path)
    decreases |q|
  {
    q == [] || (IndexOf(t, q[0]) < |t.children| && HasPath(t.children[IndexOf(t, q[0])].sub, q[1..]))
  }

  /** The nodes from the root to a path. */
  function StackAt(t: Trie, q: Path): (s: Stack)
    ensures |s| == |q| + 1 && s[0] == Edge(0, t)
  {
    seq(|q| + 1, i requires 0 <= i <= |q| => Edge(if i == 0 then 0 else q[i - 1], Node(t, q[..i])))
  }

  /** The same nodes after the record has changed: they are nodes of the record and not copies. */
  function Reread(s: Stack, t: Trie): Stack {
    if s == [] then [] else StackAt(t, Segments(s))
  }

  /** A stack that the verifier of a record can have while the record grows. */
  ghost predicate LiveIn(s: Stack, t: Trie) {
    Live(s) && (s != [] ==> s[0] == Edge(0, t))
  }

  lemma {:induction false} NodeStep(t: Trie, q: Path, x: Segment)
    requires HasPath(t, q)
    ensures var n := Node(t, q);
            && (HasPath(t, q + [x]) <==> IndexOf(n, x) < |n.children|)
            && (HasPath(t, q + [x]) ==> Node(t, q + [x]) == n.children[IndexOf(n, x)].sub)
    decreases |q|
  {
    if q == [] {
      assert (q + [x])[1..] == [];
    } else {
      assert (q + [x])[1..] == q[1..] + [x];
      NodeStep(t.children[IndexOf(t, q[0])].sub, q[1..], x);
    }
  }

  lemma {:induction false} HasPrefix(t: Trie, q: Path, i: nat)
    requires HasPath(t, q) && i <= |q|
    ensures HasPath(t, q[..i])
    decreases |q|
  {
    if i > 0 {
      HasPrefix(t.children[IndexOf(t, q[0])].sub, q[1..], i - 1);
      assert q[..i][1..] == q[1..][..i - 1];
    }
  }

  lemma {:induction false} StackAtLinked(t: Trie, q: Path)
    requires HasPath(t, q)
    ensures Linked(StackAt(t, q)) && Segments(StackAt(t, q)) == q
  {
    var s := StackAt(t, q);
    forall i | 1 <= i < |s| ensures LinkedAt(s, i) {
      HasPrefix(t, q, i);
      HasPrefix(t, q, i - 1);
      assert q[..i] == q[..i - 1] + [q[i - 1]];
      NodeStep(t, q[..i - 1], q[i - 1]);
    }
    SegmentsAre(s);
  }

  lemma {:induction false} SegmentsAre(s: Stack)
    requires s != []
    ensures forall i :: 0 <= i < |s| - 1 ==> Segments(s)[i] == s[i + 1].seg
    decreases |s|
  {
    if |s| > 1 {
      SegmentsAre(s[..|s| - 1]);
    }
  }

  lemma {:induction false} SegmentsPrefix(s: Stack, i: nat)
    requires i < |s|
    ensures Segments(s[..i + 1]) == Segments(s)[..i]
  {
    SegmentsAre(s);
    SegmentsAre(s[..i + 1]);
  }

  /** A stack is determined by its root and its segments. */
  lemma {:induction false} StackIs(s: Stack)
    requires s != [] && Linked(s) && s[0].seg == 0
    ensures HasPath(s[0].sub, Segments(s)) && s == StackAt(s[0].sub, Segments(s))
    decreases |s|
  {
    if |s| > 1 {
      var init, last, t := s[..|s| - 1], s[|s| - 1], s[0].sub;
      Popped(s);
      StackIs(init);
      var q := Segments(init);
      assert IsChild(init[|init| - 1].sub, last);
      assert q[..|q|] == q && Tip(init) == Node(t, q);
      NodeStep(t, q, last.seg);
      StackAtSnoc(t, q, last.seg);
      assert s == init + [last];
    }
  }

  lemma {:induction false} StackAtSnoc(t: Trie, q: Path, x: Segment)
    ensures StackAt(t, q + [x]) == StackAt(t, q) + [Edge(x, Node(t, q + [x]))]
  {
    var r := StackAt(t, q + [x]);
    forall i | 0 <= i < |r| ensures r[i] == (StackAt(t, q) + [Edge(x, Node(t, q + [x]))])[i] {
      if i <= |q| {
        assert (q + [x])[..i] == q[..i];
      } else {
        assert (q + [x])[..i] == q + [x];
      }
    }
  }

  /** Recording keeps every node at its path, and its link if it has one. */
  lemma {:induction false} InsertKeepsNodes(t: Trie, p: Path, link: Cid, ok: bool, q: Path)
    requires HasPath(t, q)
    ensures HasPath(Insert(t, p, link, ok), q)
    ensures Node(t, q).link.Some? ==> Node(Insert(t, p, link, ok), q).link.Some?
    decreases |q|
  {
    var t' := Insert(t, p, link, ok);
    if q != [] {
      var i := IndexOf(t, q[0]);
      assert forall j :: 0 <= j < |t.children| ==> t'.children[j].seg == t.children[j].seg;
      IndexOfIs(t', q[0], i);
      if p != [] && IndexOf(t, p[0]) == i {
        InsertKeepsNodes(t.children[i].sub, p[1..], link, ok, q[1..]);
      } else {
        assert t'.children[i] == t.children[i];
      }
    }
  }

  lemma {:induction false} NodeRecorded(t: Trie, q: Path)
    requires Recorded(t) && HasPath(t, q)
    ensures Recorded(Node(t, q))
    decreases |q|
  {
    if q != [] {
      NodeRecorded(t.children[IndexOf(t, q[0])].sub, q[1..]);
    }
  }

  /** The verifier of a record stays one while steps are recorded. */
  lemma {:induction false} RereadLive(s: Stack, t: Trie, p: Path, link: Cid, ok: bool)
    requires LiveIn(s, t) && Recorded(t)
    ensures LiveIn(Reread(s, Insert(t, p, link, ok)), Insert(t, p, link, ok))
    ensures Segments(Reread(s, Insert(t, p, link, ok))) == Segments(s)
  {
    if s != [] {
      var t', q := Insert(t, p, link, ok), Segments(s);
      InsertKeepsShape(t, p, link, ok);
      StackIs(s);
      InsertKeepsNodes(t, p, link, ok, q);
      StackAtLinked(t', q);
      var r := StackAt(t', q);
      forall i | 0 <= i < |r| ensures Recorded(r[i].sub) {
        HasPrefix(t', q, i);
        NodeRecorded(t', q[..i]);
      }
      assert q[..|q|] == q;
    }
  }

  /** The path of the first link of a record. */
  function FirstPath(t: Trie): Path {
    if t.link.None? && |t.children| > 0 then [t.children[0].seg] + FirstPath(t.children[0].sub) else []
  }

  lemma {:induction false} AppendSegments(s: Stack)
    requires s != []
    ensures Segments(AppendUntilLink(s)) == Segments(s) + FirstPath(Tip(s))
    decreases Tip(s)
  {
    if Tip(s).link.None? && |Tip(s).children| > 0 {
      var s' := s + [Tip(s).children[0]];
      assert s'[..|s|] == s;
      AppendSegments(s');
      Associative(Segments(s), [Tip(s).children[0].seg], FirstPath(Tip(s).children[0].sub));
    }
  }

  // ------------------------------------------- what is left of the plain walk

  /** The walk of everything that comes after the subtree of the tip. */
  ghost function After(s: Stack, cut: set<Path>): seq<Visit>
    requires Linked(s)
  {
    if |s| <= 1 then []
    else
      var popped, last := s[..|s| - 1], s[|s| - 1];
      Popped(s);
      WalkFrom(Tip(popped), IndexOf(Tip(popped), last.seg) + 1, Segments(popped), cut) + After(popped, cut)
  }

  ghost function Remaining(s: Stack, cut: set<Path>): seq<Visit>
    requires Linked(s)
  {
    if s == [] then [] else Walk(Tip(s), Segments(s), cut) + After(s, cut)
  }

  lemma {:induction false} PushChild(s: Stack, i: nat)
    requires s != [] && Linked(s) && WellFormed(Tip(s)) && i < |Tip(s).children|
    ensures Linked(s + [Tip(s).children[i]])
    ensures IndexOf(Tip(s), Tip(s).children[i].seg) == i
  {
    var r := s + [Tip(s).children[i]];
    IndexOfIs(Tip(s), Tip(s).children[i].seg, i);
    forall k | 1 <= k < |r| ensures LinkedAt(r, k) {
      assert k < |s| ==> LinkedAt(s, k);
    }
  }

  /** With child i pushed, what remains is the walk of the children from i on, then what came after. */
  lemma {:induction false} PushRemaining(s: Stack, i: nat, cut: set<Path>)
    requires s != [] && Linked(s) && WellFormed(Tip(s)) && i < |Tip(s).children|
    ensures Linked(s + [Tip(s).children[i]])
    ensures Remaining(s + [Tip(s).children[i]], cut) == WalkFrom(Tip(s), i, Segments(s), cut) + After(s, cut)
  {
    PushChild(s, i);
    var e := Tip(s).children[i];
    var s' := s + [e];
    assert s'[..|s'| - 1] == s;
    var here, later := Walk(e.sub, Segments(s) + [e.seg], cut), WalkFrom(Tip(s), i + 1, Segments(s), cut);
    Associative(here, later, After(s, cut));
  }

  lemma {:induction false} AppendRemaining(s: Stack, cut: set<Path>)
    requires s != [] && Linked(s) && forall i :: 0 <= i < |s| ==> Recorded(s[i].sub)
    requires |s| > 1 ==> LeavesLinked(Tip(s))
    ensures Valid(AppendUntilLink(s)) && AppendUntilLink(s) != []
    ensures Remaining(AppendUntilLink(s), cut) == Remaining(s, cut)
    decreases Tip(s)
  {
    if Tip(s).link.None? && |Tip(s).children| > 0 {
      PushRemaining(s, 0, cut);
      AppendRemaining(s + [Tip(s).children[0]], cut);
    }
  }

  /** Descending through child i to the first link. */
  lemma {:induction false} Descend(s: Stack, i: nat, cut: set<Path>)
    requires s != [] && Linked(s) && (forall k :: 0 <= k < |s| ==> Recorded(s[k].sub)) && i < |Tip(s).children|
    ensures var r := AppendUntilLink(s + [Tip(s).children[i]]);
            Valid(r) && !Done(r) && Remaining(r, cut) == WalkFrom(Tip(s), i, Segments(s), cut) + After(s, cut)
  {
    PushRemaining(s, i, cut);
    AppendRemaining(s + [Tip(s).children[i]], cut);
  }

  /** Moving on skips the tip, and its subtree unless the children are explored. */
  lemma {:induction false} NextRemaining(s: Stack, explore: bool, cut: set<Path>)
    requires s != [] && Linked(s) && forall i :: 0 <= i < |s| ==> Recorded(s[i].sub)
    ensures Valid(NextLink(s, explore))
    ensures NextLink(s, explore) == [] || !Done(NextLink(s, explore))
    ensures Remaining(NextLink(s, explore), cut)
         == (if explore then WalkFrom(Tip(s), 0, Segments(s), cut) else []) + After(s, cut)
    decreases |s|, explore
  {
    if |Tip(s).children| > 0 && explore {
      Descend(s, 0, cut);
    } else {
      PopRemaining(s, cut);
      assert explore ==> WalkFrom(Tip(s), 0, Segments(s), cut) == [];
      assert NextLink(s, explore) == NextLink(s, false);
    }
  }

  lemma {:induction false} PopRemaining(s: Stack, cut: set<Path>)
    requires s != [] && Linked(s) && forall i :: 0 <= i < |s| ==> Recorded(s[i].sub)
    ensures Valid(NextLink(s, false))
    ensures NextLink(s, false) == [] || !Done(NextLink(s, false))
    ensures Remaining(NextLink(s, false), cut) == After(s, cut)
    decreases |s|
  {
    if |s| > 1 {
      var popped, last := s[..|s| - 1], s[|s| - 1];
      Popped(s);
      var i := IndexOf(Tip(popped), last.seg);
      assert NextLink(s, false) == NextSibling(popped, last.seg);
      if i == |Tip(popped).children| - 1 {
        PopRemaining(popped, cut);
        assert WalkFrom(Tip(popped), i + 1, Segments(popped), cut) == [];
      } else {
        Descend(popped, i + 1, cut);
      }
    }
  }

  /** The path of the tip is not met again later in the walk. */
  lemma {:induction false} AfterAvoids(s: Stack, q: Path, cut: set<Path>)
    requires Linked(s) && forall i :: 0 <= i < |s| ==> WellFormed(s[i].sub)
    requires IsPrefix(Segments(s), q)
    ensures forall v :: v in After(s, cut) ==> v.path != q
  {
    if |s| > 1 {
      var up, seg := s[..|s| - 1], s[|s| - 1].seg;
      Popped(s);
      var i := IndexOf(Tip(up), seg);
      var base := Segments(up);
      assert IsPrefix(base, q) by {
        PrefixOfPrefix(base, Segments(s), q);
      }
      AfterAvoids(up, q, cut);
      PrefixAt(Segments(s), q, |base|);
      WalkFromBranch(Tip(up), i + 1, base, cut);
      forall v | v in WalkFrom(Tip(up), i + 1, base, cut) ensures v.path != q {
        var j :| i + 1 <= j < |Tip(up).children| && IsPrefix(base + [Tip(up).children[j].seg], v.path);
        PrefixAt(base + [Tip(up).children[j].seg], v.path, |base|);
      }
    }
  }

  lemma {:induction false} ChildrenAvoid(t: Trie, q: Path, cut: set<Path>)
    ensures forall v :: v in WalkFrom(t, 0, q, cut) ==> v.path != q
  {
    WalkFromBranch(t, 0, q, cut);
  }

  // ------------------- the walk depends on the cut only at the paths it visits

  ghost predicate Agree(vs: seq<Visit>, cut: set<Path>, cut': set<Path>) {
    forall v :: v in vs ==> (v.path in cut <==> v.path in cut')
  }

  lemma {:induction false} WalkCongruent(t: Trie, path: Path, cut: set<Path>, cut': set<Path>)
    requires Agree(Walk(t, path, cut), cut, cut')
    ensures Walk(t, path, cut) == Walk(t, path, cut')
    decreases t, |t.children| + 1
  {
    if t.link.Some? {
      assert Walk(t, path, cut)[0] in Walk(t, path, cut);
      if path !in cut {
        WalkFromCongruent(t, 0, path, cut, cut');
      }
    } else {
      WalkFromCongruent(t, 0, path, cut, cut');
    }
  }

  lemma {:induction false} WalkFromCongruent(t: Trie, i: nat, path: Path, cut: set<Path>, cut': set<Path>)
    requires i <= |t.children| && Agree(WalkFrom(t, i, path, cut), cut, cut')
    ensures WalkFrom(t, i, path, cut) == WalkFrom(t, i, path, cut')
    decreases t, |t.children| - i
  {
    if i < |t.children| {
      WalkCongruent(t.children[i].sub, path + [t.children[i].seg], cut, cut');
      WalkFromCongruent(t, i + 1, path, cut, cut');
    }
  }

  lemma {:induction false} AfterCongruent(s: Stack, cut: set<Path>, cut': set<Path>)
    requires Linked(s) && Agree(After(s, cut), cut, cut')
    ensures After(s, cut) == After(s, cut')
  {
    if |s| > 1 {
      Popped(s);
      var parent := s[|s| - 2].sub;
      WalkFromCongruent(parent, IndexOf(parent, s[|s| - 1].seg) + 1, Segments(s[..|s| - 1]), cut, cut');
      AfterCongruent(s[..|s| - 1], cut, cut');
    }
  }

  // ------------------------------------------------------------ runs of items

  /** The stack after accepting every item, or None if one is refused. */
  function Run(s: Stack, items: seq<Item>): Option<Stack>
    requires Valid(s)
    decreases |items|
  {
    if items == [] then Some(s)
    else
      var v := VerifyNext(s, items[0]);
      if v.Accepted? then
        NextRemaining(s, items[0].followed, {});
        Run(v.stack, items[1..])
      else None
  }

  /**
    The items are a prefix of the walk with the cut subtrees left out: same links, an
    item followed exactly when its path is not cut, and no followed item where the
    record has no data.
   */
  ghost predicate Matches(items: seq<Item>, w: seq<Visit>, cut: set<Path>) {
    && |items| <= |w|
    && forall i :: 0 <= i < |items| ==> MatchesAt(items[i], w[i], cut)
  }

  ghost predicate MatchesAt(item: Item, v: Visit, cut: set<Path>) {
    && item.link == v.link
    && (item.followed <==> v.path !in cut)
    && (item.followed ==> v.successful)
  }

  /** What remains is empty exactly when done, and otherwise starts with the tip. */
  lemma HeadRemaining(s: Stack, cut: set<Path>)
    requires Valid(s)
    ensures Done(s) ==> Remaining(s, cut) == []
    ensures !Done(s) ==>
              Remaining(s, cut) == [Visit(CurrentPath(s), Tip(s).link.value, Tip(s).successful)]
                                   + ((if CurrentPath(s) in cut then [] else WalkFrom(Tip(s), 0, Segments(s), cut))
                                     + After(s, cut))
  {
  }

  lemma {:induction false} StepRemaining(s: Stack, item: Item, cut: set<Path>)
    requires Valid(s)
    ensures Done(s) <==> Remaining(s, cut) == []
    ensures !Done(s) ==> Remaining(s, cut)[0] == Visit(CurrentPath(s), Tip(s).link.value, Tip(s).successful)
    ensures VerifyNext(s, item).Accepted? ==> Valid(VerifyNext(s, item).stack)
    ensures VerifyNext(s, item).Accepted? && (item.followed <==> CurrentPath(s) !in cut) ==>
              Remaining(VerifyNext(s, item).stack, cut) == Remaining(s, cut)[1..]
  {
    HeadRemaining(s, cut);
    if s != [] {
      NextRemaining(s, item.followed, cut);
    }
  }

  /** Items that match the walk are accepted, and the stack moves along the walk. */
  lemma {:induction false} MatchingIsAccepted(s: Stack, items: seq<Item>, cut: set<Path>)
    requires Valid(s) && Matches(items, Remaining(s, cut), cut)
    ensures Run(s, items).Some? && Valid(Run(s, items).value)
    ensures Remaining(Run(s, items).value, cut) == Remaining(s, cut)[|items|..]
    decreases |items|
  {
    if items != [] {
      StepRemaining(s, items[0], cut);
      var w := Remaining(s, cut);
      assert MatchesAt(items[0], w[0], cut);
      var s' := VerifyNext(s, items[0]).stack;
      assert Matches(items[1..], Remaining(s', cut), cut) by {
        forall i | 0 <= i < |items| - 1 ensures MatchesAt(items[1..][i], w[1..][i], cut) {
          assert MatchesAt(items[i + 1], w[i + 1], cut);
        }
      }
      MatchingIsAccepted(s', items[1..], cut);
    }
  }

  /** Accepted items match the walk, with the paths of the unfollowed ones cut. */
  lemma {:induction false} AcceptedIsMatching(s: Stack, items: seq<Item>) returns (cut: set<Path>)
    requires Valid(s) && Run(s, items).Some?
    ensures Matches(items, Remaining(s, cut), cut)
    decreases |items|
  {
    if items == [] {
      cut := {};
    } else {
      StepRemaining(s, items[0], {});
      var cut' := AcceptedIsMatching(VerifyNext(s, items[0]).stack, items[1..]);
      cut := if items[0].followed then cut' - {Segments(s)} else cut' + {Segments(s)};
      MatchingCons(s, items, cut', cut);
    }
  }

  lemma {:induction false} MatchingCons(s: Stack, items: seq<Item>, cut': set<Path>, cut: set<Path>)
    requires Valid(s) && items != [] && VerifyNext(s, items[0]).Accepted?
    requires Linked(VerifyNext(s, items[0]).stack)
    requires Matches(items[1..], Remaining(VerifyNext(s, items[0]).stack, cut'), cut')
    requires cut == if items[0].followed then cut' - {Segments(s)} else cut' + {Segments(s)}
    ensures Matches(items, Remaining(s, cut), cut)
  {
    RecutRemaining(s, items[0].followed, cut', cut);
    StepRemaining(s, items[0], cut);
    var w, w' := Remaining(s, cut), Remaining(VerifyNext(s, items[0]).stack, cut');
    assert w[1..] == w';
    forall i | 0 < i < |items| ensures MatchesAt(items[i], w[i], cut) {
      assert MatchesAt(items[1..][i - 1], w'[i - 1], cut');
      assert w[i] == w'[i - 1] && w'[i - 1] in w';
    }
  }

  /** Changing the cut at the path just visited does not change what remains. */
  lemma {:induction false} RecutRemaining(s: Stack, followed: bool, cut: set<Path>, cut': set<Path>)
    requires Valid(s) && !Done(s)
    requires forall p :: p != Segments(s) ==> (p in cut <==> p in cut')
    ensures Linked(NextLink(s, followed))
    ensures Remaining(NextLink(s, followed), cut) == Remaining(NextLink(s, followed), cut')
    ensures forall v :: v in Remaining(NextLink(s, followed), cut) ==> v.path != Segments(s)
  {
    var q := Segments(s);
    NextRemaining(s, followed, cut);
    NextRemaining(s, followed, cut');
    AfterAvoids(s, q, cut);
    AfterCongruent(s, cut, cut');
    if followed {
      ChildrenAvoid(Tip(s), q, cut);
      WalkFromCongruent(Tip(s), 0, q, cut, cut');
    }
  }

  // -------------------------------------------------------------- main results

  lemma {:induction false} NewRemaining(t: Trie, cut: set<Path>)
    requires Recorded(t)
    ensures Valid(New(t)) && Remaining(New(t), cut) == Walk(t, [], cut)
  {
    AppendRemaining([Edge(0, t)], cut);
  }

  /**
    The verifier accepts exactly the prefixes of the pre-order walk of the record with
    unfollowed subtrees cut out.
   */
  lemma {:induction false} AcceptsExactlyCutWalks(t: Trie, items: seq<Item>)
    requires Recorded(t)
    ensures Valid(New(t))
    ensures Run(New(t), items).Some? <==> exists cut: set<Path> :: Matches(items, Walk(t, [], cut), cut)
  {
    NewRemaining(t, {});
    if Run(New(t), items).Some? {
      var cut := AcceptedIsMatching(New(t), items);
      NewRemaining(t, cut);
      assert Matches(items, Walk(t, [], cut), cut);
    }
    forall cut: set<Path> | Matches(items, Walk(t, [], cut), cut) ensures Run(New(t), items).Some? {
      NewRemaining(t, cut);
      MatchingIsAccepted(New(t), items, cut);
    }
  }

  /**
    After a matching prefix: the verifier is done exactly when the walk is, its path is
    where the next link was recorded, and it judges the next item against that link.
   */
  lemma {:induction false} AfterPrefix(t: Trie, items: seq<Item>, cut: set<Path>, next: Item)
    requires Recorded(t) && Matches(items, Walk(t, [], cut), cut)
    ensures Valid(New(t)) && Run(New(t), items).Some? && Valid(Run(New(t), items).value)
    ensures var s, w, n := Run(New(t), items).value, Walk(t, [], cut), |items|;
            && (Done(s) <==> n == |w|)
            && (n == |w| ==> VerifyNext(s, next) == Refused(NothingLeft))
            && (n < |w| ==>
                  && CurrentPath(s) == w[n].path
                  && Lookup(t, CurrentPath(s)) == Some((w[n].link, w[n].successful))
                  && (VerifyNext(s, next) == Refused(IncorrectResponse(w[n].link, next.link, w[n].path)) <==>
                        next.link != w[n].link)
                  && (VerifyNext(s, next) == Refused(AdditionalData) <==>
                        next.link == w[n].link && next.followed && !w[n].successful)
                  && (VerifyNext(s, next).Accepted? <==> next.link == w[n].link && (next.followed ==> w[n].successful)))
  {
    NewRemaining(t, cut);
    MatchingIsAccepted(New(t), items, cut);
    StepRemaining(Run(New(t), items).value, next, cut);
    var w := Walk(t, [], cut);
    if |items| < |w| {
      assert w[|items|] in w;
      WalkLookup(t, [], cut, w[|items|]);
      assert w[|items|].path == [] + w[|items|].path;
    }
  }

  /** Every visit of the walk is a link that was recorded at that path. */
  lemma {:induction false} WalkLookup(t: Trie, base: Path, cut: set<Path>, v: Visit)
    requires WellFormed(t) && v in Walk(t, base, cut)
    ensures IsPrefix(base, v.path) && Lookup(t, v.path[|base|..]) == Some((v.link, v.successful))
    decreases t, |t.children| + 1
  {
    if v in WalkFrom(t, 0, base, cut) {
      WalkFromLookup(t, 0, base, cut, v);
    }
  }

  lemma {:induction false} WalkFromLookup(t: Trie, i: nat, base: Path, cut: set<Path>, v: Visit)
    requires WellFormed(t) && i <= |t.children| && v in WalkFrom(t, i, base, cut)
    ensures IsPrefix(base, v.path) && Lookup(t, v.path[|base|..]) == Some((v.link, v.successful))
    decreases t, |t.children| - i
  {
    var e := t.children[i];
    if v in Walk(e.sub, base + [e.seg], cut) {
      WalkLookup(e.sub, base + [e.seg], cut, v);
      PrefixOfPrefix(base, base + [e.seg], v.path);
      PrefixAt(base + [e.seg], v.path, |base|);
      IndexOfIs(t, e.seg, i);
      assert v.path[|base|..][1..] == v.path[|base| + 1..];
    } else {
      WalkFromLookup(t, i + 1, base, cut, v);
    }
  }

  /** Accepting an item strictly shortens the walk of linked nodes that is left. */
  lemma {:induction false} AcceptShrinks(s: Stack, item: Item)
    requires Valid(s) && VerifyNext(s, item).Accepted?
    ensures Linked(VerifyNext(s, item).stack)
    ensures |Remaining(VerifyNext(s, item).stack, {})| < |Remaining(s, {})|
  {
    NextRemaining(s, item.followed, {});
  }

  /** With every link loaded and every item followed, the complete run is exactly AllLinks. */
  lemma {:induction false} AllFollowedIsAllLinks(t: Trie, items: seq<Item>)
    requires Recorded(t) && LeavesLinked(t)
    requires forall v :: v in Walk(t, [], {}) ==> v.successful
    requires forall i :: 0 <= i < |items| ==> items[i].followed
    ensures Valid(New(t))
    ensures (Run(New(t), items).Some? && Done(Run(New(t), items).value))
       <==> (|items| == |AllLinks(t)| && forall i :: 0 <= i < |items| ==> items[i].link == AllLinks(t)[i])
  {
    var w := Walk(t, [], {});
    AllLinksIsWalk(t, []);
    NewRemaining(t, {});
    if |items| == |AllLinks(t)| && forall i :: 0 <= i < |items| ==> items[i].link == AllLinks(t)[i] {
      forall i | 0 <= i < |items| ensures MatchesAt(items[i], w[i], {}) {
        assert w[i] in w;
      }
      AfterPrefix(t, items, {}, Item(0, true));
    }
    if Run(New(t), items).Some? {
      AllFollowedMatches(New(t), items);
      AfterPrefix(t, items, {}, Item(0, true));
    }
  }

  lemma {:induction false} AllFollowedMatches(s: Stack, items: seq<Item>)
    requires Valid(s) && Run(s, items).Some?
    requires forall i :: 0 <= i < |items| ==> items[i].followed
    ensures Matches(items, Remaining(s, {}), {})
    decreases |items|
  {
    if items != [] {
      StepRemaining(s, items[0], {});
      var s' := VerifyNext(s, items[0]).stack;
      AllFollowedMatches(s', items[1..]);
      forall i | 0 <= i < |items| ensures MatchesAt(items[i], Remaining(s, {})[i], {}) {
        if i > 0 {
          assert MatchesAt(items[1..][i - 1], Remaining(s', {})[i - 1], {});
        }
      }
    }
  }

  lemma {:induction false} NewLive(t: Trie)
    requires Recorded(t)
    ensures LiveIn(New(t), t)
  {
    NewRemaining(t, {});
  }

  lemma {:induction false} NextLive(s: Stack, t: Trie, followed: bool)
    requires LiveIn(s, t) && s != []
    ensures LiveIn(NextLink(s, followed), t)
  {
    NextRemaining(s, followed, {});
  }

  // ---------------------------------------------------- recording under a verifier

  /** Recording at the path leaves the first link of the record where it is. */
  predicate FirstStays(t: Trie, p: Path) {
    if t == EMPTY then p == [] else !(p < FirstPath(t))
  }

  lemma {:induction false} FirstOfNew(p: Path, link: Cid, ok: bool)
    ensures FirstPath(Insert(EMPTY, p, link, ok)) == p
    decreases |p|
  {
    if p != [] {
      FirstOfNew(p[1..], link, ok);
      assert p == [p[0]] + p[1..];
    }
  }

  lemma {:induction false} FirstPathInsert(t: Trie, p: Path, link: Cid, ok: bool)
    requires LeavesLinked(t)
    ensures FirstPath(Insert(t, p, link, ok)) == FirstPath(t) <==> !(p < FirstPath(t))
    decreases |p|
  {
    if t.link.None? && p != [] {
      var c := t.children[0];
      if p[0] == c.seg {
        assert IndexOf(t, p[0]) == 0;
        FirstPathInsert(c.sub, p[1..], link, ok);
        var t' := Insert(t, p, link, ok);
        assert FirstPath(t') == [c.seg] + FirstPath(Insert(c.sub, p[1..], link, ok));
        assert FirstPath(t')[1..] == FirstPath(Insert(c.sub, p[1..], link, ok))
               && FirstPath(t)[1..] == FirstPath(c.sub);
        assert p < FirstPath(t) <==> p[1..] < FirstPath(c.sub) by {
          assert p == [p[0]] + p[1..];
        }
      } else {
        assert Insert(t, p, link, ok).children[0] == c;
      }
    }
  }

  lemma {:induction false} NewIs(t: Trie)
    requires Recorded(t)
    ensures New(t) == StackAt(t, FirstPath(t)) && HasPath(t, FirstPath(t)) && Segments(New(t)) == FirstPath(t)
  {
    NewRemaining(t, {});
    AppendSegments([Edge(0, t)]);
    StackIs(New(t));
  }

  /**
    A verifier made before a step is recorded is where one made afterwards would be,
    exactly when the step leaves the first link where it is.
   */
  lemma {:induction false} LiveVerifierIsNew(t: Trie, p: Path, link: Cid, ok: bool)
    requires Recorded(t)
    ensures Reread(New(t), Insert(t, p, link, ok)) == New(Insert(t, p, link, ok)) <==> FirstStays(t, p)
  {
    var t' := Insert(t, p, link, ok);
    InsertKeepsShape(t, p, link, ok);
    NewIs(t);
    NewIs(t');
    InsertKeepsNodes(t, p, link, ok, FirstPath(t));
    StackAtLinked(t', FirstPath(t));
    if t == EMPTY {
      FirstOfNew(p, link, ok);
    } else {
      FirstPathInsert(t, p, link, ok);
    }
  }

  /** The child of a segment is at the same place, with the same later siblings. */
  predicate SameSiblings(n: Trie, n': Trie, x: Segment) {
    && |n'.children| == |n.children| && IndexOf(n', x) == IndexOf(n, x) < |n.children|
    && forall j :: IndexOf(n, x) < j < |n.children| ==> n'.children[j] == n.children[j]
  }

  predicate SameAt(t: Trie, t': Trie, q: Path, k: nat)
    requires k < |q|
  {
    SameSiblings(Node(t, q[..k]), Node(t', q[..k]), q[k])
  }

  /** Recording above a path changes no sibling of the nodes on it. */
  lemma {:induction false} SiblingsStay(t: Trie, p: Path, link: Cid, ok: bool, q: Path, k: nat)
    requires p < q && HasPath(t, q) && k < |q|
    ensures SameAt(t, Insert(t, p, link, ok), q, k)
    decreases |q|
  {
    var t', i := Insert(t, p, link, ok), IndexOf(t, q[0]);
    assert forall j :: 0 <= j < |t.children| ==> t'.children[j].seg == t.children[j].seg;
    IndexOfIs(t', q[0], i);
    if k > 0 {
      assert q[..k][1..] == q[1..][..k - 1] && q[..k][0] == q[0];
      if p != [] {
        SiblingsStay(t.children[i].sub, p[1..], link, ok, q[1..], k - 1);
      } else {
        HasChild(t.children[i].sub, q[1..], k - 1);
      }
    }
  }

  lemma {:induction false} HasChild(t: Trie, q: Path, k: nat)
    requires HasPath(t, q) && k < |q|
    ensures IndexOf(Node(t, q[..k]), q[k]) < |Node(t, q[..k]).children|
  {
    HasPrefix(t, q, k);
    HasPrefix(t, q, k + 1);
    assert q[..k + 1] == q[..k] + [q[k]];
    NodeStep(t, q[..k], q[k]);
  }

  lemma {:induction false} NodeStays(t: Trie, p: Path, link: Cid, ok: bool, q: Path)
    requires p < q && HasPath(t, q)
    ensures Node(Insert(t, p, link, ok), q) == Node(t, q)
    decreases |q|
  {
    var t', i := Insert(t, p, link, ok), IndexOf(t, q[0]);
    assert forall j :: 0 <= j < |t.children| ==> t'.children[j].seg == t.children[j].seg;
    IndexOfIs(t', q[0], i);
    if p != [] {
      NodeStays(t.children[i].sub, p[1..], link, ok, q[1..]);
    }
  }

  /** The walk from child i on depends on the children from i on. */
  lemma {:induction false} WalkFromSame(t: Trie, t': Trie, i: nat, path: Path, cut: set<Path>)
    requires i <= |t.children| == |t'.children| && forall j :: i <= j < |t.children| ==> t.children[j] == t'.children[j]
    ensures WalkFrom(t, i, path, cut) == WalkFrom(t', i, path, cut)
    decreases |t.children| - i
  {
    if i < |t.children| {
      WalkFromSame(t, t', i + 1, path, cut);
    }
  }

  /** What comes after a node on a path: its later siblings, and what comes after its parent. */
  lemma {:induction false} AfterNode(t: Trie, q: Path, x: Segment, cut: set<Path>)
    requires HasPath(t, q + [x])
    ensures HasPath(t, q) && Linked(StackAt(t, q)) && Linked(StackAt(t, q + [x]))
            && IndexOf(Node(t, q), x) < |Node(t, q).children|
    ensures After(StackAt(t, q + [x]), cut) == WalkFrom(Node(t, q), IndexOf(Node(t, q), x) + 1, q, cut)
            + After(StackAt(t, q), cut)
  {
    assert (q + [x])[..|q|] == q && q[..|q|] == q;
    HasPrefix(t, q + [x], |q|);
    StackAtLinked(t, q + [x]);
    StackAtLinked(t, q);
    StackAtSnoc(t, q, x);
    AfterSnoc(StackAt(t, q), Edge(x, Node(t, q + [x])), cut);
  }

  lemma {:induction false} LevelStays(t: Trie, t': Trie, q: Path, x: Segment, cut: set<Path>)
    requires HasPath(t, q + [x]) && HasPath(t', q + [x]) && SameSiblings(Node(t, q), Node(t', q), x)
    requires Linked(StackAt(t, q)) && Linked(StackAt(t', q)) && After(StackAt(t', q), cut) == After(StackAt(t, q), cut)
    ensures Linked(StackAt(t, q + [x])) && Linked(StackAt(t', q + [x]))
    ensures After(StackAt(t', q + [x]), cut) == After(StackAt(t, q + [x]), cut)
  {
    AfterNode(t, q, x, cut);
    AfterNode(t', q, x, cut);
    WalkFromSame(Node(t, q), Node(t', q), IndexOf(Node(t, q), x) + 1, q, cut);
  }

  lemma {:induction false} AfterStays(t: Trie, t': Trie, q: Path, cut: set<Path>)
    requires HasPath(t, q) && HasPath(t', q)
    requires forall j {:trigger SameAt(t, t', q, j)} :: 0 <= j < |q| ==> SameAt(t, t', q, j)
    ensures Linked(StackAt(t, q)) && Linked(StackAt(t', q))
    ensures After(StackAt(t', q), cut) == After(StackAt(t, q), cut)
    decreases |q|
  {
    if q != [] {
      var v, x := q[..|q| - 1], q[|q| - 1];
      HasPrefix(t, q, |v|);
      HasPrefix(t', q, |v|);
      assert SameAt(t, t', q, |v|);
      forall j | 0 <= j < |v| ensures SameAt(t, t', v, j) {
        assert v[..j] == q[..j];
        assert SameAt(t, t', q, j);
      }
      AfterStays(t, t', v, cut);
      assert q == v + [x];
      LevelStays(t, t', v, x, cut);
    }
  }

  lemma {:induction false} AfterSnoc(s: Stack, e: Edge, cut: set<Path>)
    requires s != [] && Linked(s + [e])
    ensures Linked(s) && IsChild(Tip(s), e)
    ensures After(s + [e], cut) == WalkFrom(Tip(s), IndexOf(Tip(s), e.seg) + 1, Segments(s), cut) + After(s, cut)
  {
    Popped(s + [e]);
    assert (s + [e])[..|s|] == s;
  }

  lemma {:induction false} RemainingStays(t: Trie, p: Path, link: Cid, ok: bool, q: Path, cut: set<Path>)
    requires p < q && HasPath(t, q)
    ensures Linked(StackAt(t, q)) && Linked(StackAt(Insert(t, p, link, ok), q))
    ensures Remaining(StackAt(Insert(t, p, link, ok), q), cut) == Remaining(StackAt(t, q), cut)
  {
    var t' := Insert(t, p, link, ok);
    InsertKeepsNodes(t, p, link, ok, q);
    StackAtLinked(t, q);
    StackAtLinked(t', q);
    assert q[..|q|] == q;
    NodeStays(t, p, link, ok, q);
    forall j | 0 <= j < |q| ensures SameAt(t, t', q, j) {
      SiblingsStay(t, p, link, ok, q, j);
    }
    AfterStays(t, t', q, cut);
  }

  /** A step above the first link is not verified by a verifier that was made before it. */
  lemma {:induction false} LiveVerifierMissesStep(t: Trie, p: Path, link: Cid, ok: bool, cut: set<Path>)
    requires Recorded(t) && !FirstStays(t, p)
    ensures var r := Reread(New(t), Insert(t, p, link, ok));
            if t == EMPTY then Done(r) else Valid(r) && Remaining(r, cut) == Walk(t, [], cut)
  {
    NewIs(t);
    NewRemaining(t, cut);
    NewLive(t);
    if t != EMPTY {
      RereadLive(New(t), t, p, link, ok);
      RemainingStays(t, p, link, ok, FirstPath(t), cut);
    }
  }
}
