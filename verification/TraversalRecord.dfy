/**
  The traversal record and its verifier as the mutable objects of the loader.  Each
  object carries the value it stands for (Trie.dfy, Verifier.dfy) and every method is
  proved to change that value as the function of the same name says.  The verifier points
  into the record, so it sees what is recorded after it was made.
 */
module TraversalRecords {
  import opened Core
  import opened Trie
  import V = Verifier

  datatype TraversalLink = TraversalLink(segment: Segment, record: TraversalRecord)

  class TraversalRecord {
    var link: Option<Cid>
    var successful: bool
    var childSegments: map<Segment, nat>
    var children: seq<TraversalLink>

    ghost var repr: set<TraversalRecord>
    ghost var model: Trie

    ghost predicate Valid()
      reads this, repr
      decreases repr
      ensures Valid() ==> this in repr
    {
      && this in repr
      && model.link == link && model.successful == successful && |model.children| == |children|
      && IndexedBy(model, childSegments)
      && (forall i :: 0 <= i < |children| ==> ChildOK(i) && children[i].record.Valid())
      && (forall i, j :: 0 <= i < j < |children| ==> Apart(children[i].record, children[j].record))
    }

    ghost predicate Apart(a: TraversalRecord, b: TraversalRecord)
      reads this, repr
    {
      a in repr && b in repr && a.repr !! b.repr
    }

    ghost predicate ChildOK(i: nat)
      reads this, repr
      requires i < |children| == |model.children|
    {
      var c := children[i].record;
      && this in repr
      && c in repr && c.repr <= repr && this !in c.repr
      && model.children[i] == Edge(children[i].segment, c.model)
    }

    constructor ()
      ensures Valid() && fresh(repr) && repr == {this} && model == EMPTY
    {
      link, successful, childSegments, children := None, false, map[], [];
      repr, model := {this}, EMPTY;
    }

    /** The node at a path. */
    ghost function NodeAt(q: Path): TraversalRecord
      requires Valid() && V.HasPath(model, q)
      reads this, repr
      decreases |q|
    {
      if q == [] then this
      else
        assert ChildOK(IndexOf(model, q[0]));
        children[IndexOf(model, q[0])].record.NodeAt(q[1..])
    }

    lemma {:induction false} NodeIs(q: Path)
      requires Valid() && V.HasPath(model, q)
      ensures var n := NodeAt(q); n in repr && n.repr <= repr && n.Valid() && n.model == V.Node(model, q)
      decreases |q|
    {
      if q != [] {
        var i := IndexOf(model, q[0]);
        assert ChildOK(i);
        children[i].record.NodeIs(q[1..]);
      }
    }

    /** The node below a node is the child that the segment names. */
    lemma {:induction false} NodeBelow(q: Path, x: Segment)
      requires Valid() && V.HasPath(model, q) && V.HasPath(model, q + [x])
      ensures var n := NodeAt(q);
              n.Valid() && IndexOf(n.model, x) < |n.children|
                && NodeAt(q + [x]) == n.children[IndexOf(n.model, x)].record
      decreases |q|
    {
      if q == [] {
        assert (q + [x])[1..] == [];
      } else {
        assert (q + [x])[1..] == q[1..] + [x];
        var i := IndexOf(model, q[0]);
        assert ChildOK(i);
        children[i].record.NodeBelow(q[1..], x);
      }
    }

    /** Every node is still where it was. */
    twostate predicate SameNodes()
      reads this, repr
    {
      && old(Valid()) && Valid()
      && forall q :: old(V.HasPath(model, q)) ==> V.HasPath(model, q) && NodeAt(q) == old(NodeAt(q))
    }

    twostate lemma UntouchedNodes()
      requires old(Valid()) && unchanged(old(repr))
      ensures SameNodes()
    {
    }

    /** The children are as they were, or there are more of them. */
    twostate predicate KeptChildren()
      reads this, repr
    {
      && old(Valid()) && Valid() && old(|children|) <= |children|
      && forall j :: 0 <= j < old(|children|) ==> children[j] == old(children[j])
    }

    twostate lemma NodesFromChildren()
      requires KeptChildren()
      requires forall j :: 0 <= j < old(|children|) ==> children[j].record.SameNodes()
      ensures SameNodes()
    {
      forall q | old(V.HasPath(model, q)) ensures V.HasPath(model, q) && NodeAt(q) == old(NodeAt(q)) {
        if q != [] {
          var i := old(IndexOf(model, q[0]));
          forall j | 0 <= j <= i ensures model.children[j].seg == old(model.children[j].seg) {
            assert old(ChildOK(j)) && ChildOK(j) && children[j] == old(children[j]);
          }
          IndexOfIs(model, q[0], i);
          assert old(ChildOK(i)) && ChildOK(i) && children[i].record.SameNodes();
        }
      }
    }

    method RecordNextStep(p: Path, cid: Cid, ok: bool)
      requires Valid()
      modifies repr
      ensures Valid() && fresh(repr - old(repr))
      ensures model == Insert(old(model), p, cid, ok)
      ensures SameNodes()
      decreases |p|, 0
    {
      if |p| == 0 {
        SetLink(cid, ok);
        return;
      }
      InsertInChild(model, p, cid, ok);
      assert p[0] in childSegments <==> IndexOf(model, p[0]) < |children|;
      if p[0] !in childSegments {
        AddChild(p[0]);
      }
      RecordInChild(childSegments[p[0]], p[1..], cid, ok);
    }

    method SetLink(cid: Cid, ok: bool)
      requires Valid()
      modifies this`link, this`successful, this`model
      ensures Valid() && model == old(model).(link := Some(cid), successful := ok)
      ensures SameNodes()
    {
      SetFields(cid, ok);
      ChildrenUntouched();
    }

    /** A change to the node itself touches no child. */
    twostate lemma ChildrenUntouched()
      requires KeptChildren() && unchanged(old(repr) - {this})
      ensures SameNodes()
    {
      forall j | 0 <= j < old(|children|) ensures children[j].record.SameNodes() {
        assert old(ChildOK(j)) && children[j] == old(children[j]);
        assert unchanged(old(children[j].record.repr));
        old(children[j].record).UntouchedNodes();
      }
      NodesFromChildren();
    }

    method SetFields(cid: Cid, ok: bool)
      requires Valid()
      modifies this`link, this`successful, this`model
      ensures Valid() && model == old(model).(link := Some(cid), successful := ok)
    {
      link, successful := Some(cid), ok;
      model := model.(link := link, successful := successful);
      assert forall i :: 0 <= i < |children| ==>
          old(ChildOK(i) && children[i].record.Valid()) && ChildOK(i) && children[i].record.Valid();
      assert forall i, j :: 0 <= i < j < |children| ==>
          old(Apart(children[i].record, children[j].record)) && Apart(children[i].record, children[j].record);
    }

    method RecordInChild(i: nat, rest: Path, cid: Cid, ok: bool)
      requires Valid() && i < |children|
      modifies repr
      ensures Valid() && fresh(repr - old(repr))
      ensures model == WithChild(old(model), i, Insert(old(model).children[i].sub, rest, cid, ok))
      ensures SameNodes()
      decreases |rest|, 2
    {
      ChangeChild(i, rest, cid, ok);
      forall j | 0 <= j < |children| && j != i ensures children[j].record.SameNodes() {
        assert old(ChildOK(j));
        old(children[j].record).UntouchedNodes();
      }
      NodesFromChildren();
    }

    method ChangeChild(i: nat, rest: Path, cid: Cid, ok: bool)
      requires Valid() && i < |children|
      modifies repr
      ensures Valid() && fresh(repr - old(repr)) && children == old(children)
      ensures model == WithChild(old(model), i, Insert(old(model).children[i].sub, rest, cid, ok))
      ensures children[i].record.SameNodes()
      ensures forall j :: 0 <= j < |children| && j != i ==> unchanged(old(children[j].record.repr))
      decreases |rest|, 1
    {
      ChildIs(i);
      WithChildIndexed(model, i, Insert(model.children[i].sub, rest, cid, ok), childSegments);
      children[i].record.RecordNextStep(rest, cid, ok);
      TakeChild(i);
      ChildChanged(i);
    }

    ghost method TakeChild(i: nat)
      requires i < |children| == |model.children| && children[i].record != this
      modifies this`repr, this`model
      ensures repr == old(repr) + children[i].record.repr && model == WithChild(old(model), i, children[i].record.model)
    {
      repr := repr + children[i].record.repr;
      model := WithChild(model, i, children[i].record.model);
    }

    /** A child is a tree below this one, apart from the other children. */
    lemma {:induction false} ChildIs(i: nat)
      requires Valid() && i < |children|
      ensures var child := children[i].record;
              && child.Valid() && child.repr <= repr && this !in child.repr && child.model == model.children[i].sub
              && forall j :: 0 <= j < |children| && j != i ==> children[j].record.repr !! child.repr
    {
      assert ChildOK(i);
      forall j | 0 <= j < |children| && j != i ensures children[j].record.repr !! children[i].record.repr {
        assert Apart(children[if j < i then j else i].record, children[if j < i then i else j].record);
      }
    }

    /** One child is another tree, and the others are as they were. */
    twostate lemma {:induction false} ChildChanged(i: nat)
      requires old(Valid()) && i < |children| && children == old(children)
               && unchanged(this`link, this`successful, this`childSegments)
      requires children[i].record.Valid() && fresh(children[i].record.repr - old(children[i].record.repr))
      requires repr == old(repr) + children[i].record.repr && this !in children[i].record.repr
      requires model == WithChild(old(model), i, children[i].record.model) && IndexedBy(model, childSegments)
      requires forall j :: 0 <= j < |children| && j != i ==> unchanged(old(children[j].record.repr))
      ensures Valid()
    {
      forall j | 0 <= j < |children| ensures ChildOK(j) && children[j].record.Valid() {
        assert old(ChildOK(j) && children[j].record.Valid());
      }
      forall j, k | 0 <= j < k < |children| ensures Apart(children[j].record, children[k].record) {
        assert old(Apart(children[j].record, children[k].record) && ChildOK(j) && ChildOK(k));
      }
    }

    method AddChild(seg: Segment)
      requires Valid() && seg !in childSegments
      modifies this
      ensures Valid() && fresh(repr - old(repr))
      ensures seg in childSegments && childSegments[seg] == old(|children|)
      ensures model == AddEmpty(old(model), seg)
      ensures SameNodes()
    {
      AppendChild(seg);
      ChildrenUntouched();
    }

    method AppendChild(seg: Segment)
      requires Valid() && seg !in childSegments
      modifies this
      ensures Valid() && fresh(repr - old(repr)) && KeptChildren()
      ensures seg in childSegments && childSegments[seg] == old(|children|)
      ensures model == AddEmpty(old(model), seg)
    {
      label before:
      AddEmptyIndexed(model, seg, childSegments);
      var child := new TraversalRecord();
      childSegments := childSegments[seg := |children|];
      children := children + [TraversalLink(seg, child)];
      repr := repr + {child};
      model := AddEmpty(model, seg);
      forall j | 0 <= j < |children| ensures ChildOK(j) && children[j].record.Valid() {
        if j < |children| - 1 {
          assert old@before(ChildOK(j) && children[j].record.Valid());
        }
      }
      forall j, k | 0 <= j < k < |children| ensures Apart(children[j].record, children[k].record) {
        assert old@before(ChildOK(j));
        if k < |children| - 1 {
          assert old@before(Apart(children[j].record, children[k].record));
        }
      }
    }

    method CollectLinks() returns (links: seq<Cid>)
      requires Valid() && LeavesLinked(model)
      ensures links == AllLinks(model)
      decreases repr
    {
      if |children| == 0 {
        return [link.value];
      }
      links := if link.Some? then [link.value] else [];
      ghost var own := links;
      for i := 0 to |children|
        invariant links + AllLinksFrom(model, i) == own + AllLinksFrom(model, 0)
      {
        var below := children[i].record.CollectLinks();
        links := links + below;
      }
    }

    method LinksAt(segs: Path) returns (links: seq<Cid>)
      requires Valid() && Recorded(model)
      ensures links == GetLinks(model, segs)
      decreases repr
    {
      if |segs| == 0 {
        return if link.Some? then [link.value] else [];
      }
      assert segs[0] in childSegments <==> IndexOf(model, segs[0]) < |children|;
      if segs[0] !in childSegments {
        return [];
      }
      var child := children[childSegments[segs[0]]].record;
      if |segs| == 1 {
        links := child.CollectLinks();
      } else {
        links := child.LinksAt(segs[1..]);
      }
    }
  }

  class ReplayVerifier {
    var stack: seq<TraversalLink>
    ghost const root: TraversalRecord
    ghost var model: V.Stack  // the stack as a value

    ghost predicate FrameOK(f: TraversalLink, e: Edge)
      reads root, root.repr
    {
      f.record in root.repr && f.record.repr <= root.repr && f.record.Valid() && e == Edge(f.segment, f.record.model)
    }

    /** Each frame is a child of the one before it, and the first is the root. */
    ghost predicate Chained(i: nat)
      requires i < |stack|
      reads this`stack, root, root.repr
    {
      if i == 0 then stack[0] == TraversalLink(0, root)
      else stack[i - 1].record in root.repr && stack[i] in stack[i - 1].record.children
    }

    ghost predicate FramesOK()
      reads this, root, root.repr
    {
      && |model| == |stack| && (forall i :: 0 <= i < |stack| ==> FrameOK(stack[i], model[i]))
      && forall i {:trigger Chained(i)} :: 0 <= i < |stack| ==> Chained(i)
    }

    ghost predicate Valid()
      reads this, root, root.repr
    {
      FramesOK() && root.Valid() && Recorded(root.model) && V.LiveIn(model, root.model)
    }

    lemma {:induction false} TipIs()
      requires FramesOK() && stack != []
      ensures var r, t := stack[|stack| - 1].record, V.Tip(model);
              && r in root.repr && r.Valid() && r.model == t && r.link == t.link && r.successful == t.successful
                && |r.children| == |t.children|
              && forall i :: 0 <= i < |r.children| ==> FrameOK(r.children[i], t.children[i])
    {
    }

    constructor (record: TraversalRecord)
      requires record.Valid() && Recorded(record.model)
      ensures Valid() && root == record && model == V.New(record.model)
    {
      root := record;
      stack, model := [TraversalLink(0, record)], [Edge(0, record.model)];
      new;
      assert Chained(0);
      AppendUntilLink();
      V.NewLive(record.model);
    }

    lemma {:induction false} TipFields()
      requires FramesOK() && stack != []
      ensures var r, t := stack[|stack| - 1].record, V.Tip(model);
              r.link == t.link && |r.children| == |t.children|
    {
      TipIs();
    }

    method AppendUntilLink()
      requires FramesOK() && stack != []
      modifies this
      ensures FramesOK() && model == V.AppendUntilLink(old(model))
    {
      TipFields();
      while stack[|stack| - 1].record.link.None? && |stack[|stack| - 1].record.children| > 0
        invariant FramesOK() && stack != []
        invariant V.AppendUntilLink(model) == V.AppendUntilLink(old(model))
        decreases V.Tip(model)
      {
        TipFields();
        Push(0);
      }
      TipFields();
    }

    method Push(i: nat)
      requires FramesOK() && stack != [] && i < |V.Tip(model).children|
      modifies this
      ensures FramesOK() && |stack| == old(|stack|) + 1
      ensures model == old(model) + [V.Tip(old(model)).children[i]]
    {
      TipIs();
      label before:
      stack := stack + [stack[|stack| - 1].record.children[i]];
      model := model + [V.Tip(model).children[i]];
      forall k | 0 <= k < |stack| ensures Chained(k) {
        assert k < |stack| - 1 ==> old@before(Chained(k));
      }
    }

    method NextLink(exploreChildren: bool)
      requires FramesOK() && stack != [] && V.Linked(model)
      modifies this
      ensures FramesOK() && model == V.NextLink(old(model), exploreChildren)
      decreases |stack|, 1
    {
      TipIs();
      V.Popped(model);
      if |stack[|stack| - 1].record.children| > 0 && exploreChildren {
        Descend(0);
      } else {
        Ascend();
      }
    }

    /** To the first link below child i. */
    method Descend(i: nat)
      requires FramesOK() && stack != [] && i < |V.Tip(model).children|
      modifies this
      ensures FramesOK() && model == V.AppendUntilLink(old(model) + [V.Tip(old(model)).children[i]])
    {
      Push(i);
      AppendUntilLink();
    }

    /** Past the tip and everything below it. */
    method Ascend()
      requires FramesOK() && stack != [] && V.Linked(model) && V.Linked(model[..|model| - 1])
      requires |model| > 1 ==> V.IsChild(model[|model| - 2].sub, model[|model| - 1])
      modifies this
      ensures FramesOK() && model == V.NextSibling(old(model)[..|old(model)| - 1], old(model)[|old(model)| - 1].seg)
      decreases |stack|, 0
    {
      assert FrameOK(stack[|stack| - 1], model[|stack| - 1]);
      var last := stack[|stack| - 1];
      Pop();
      NextSibling(last.segment);
    }

    method Pop()
      requires FramesOK() && stack != []
      modifies this
      ensures FramesOK() && |stack| == old(|stack|) - 1
      ensures model == old(model)[..|stack|]
    {
      label before:
      stack, model := stack[..|stack| - 1], model[..|model| - 1];
      forall k | 0 <= k < |stack| ensures Chained(k) {
        assert old@before(Chained(k));
      }
    }

    method NextSibling(segment: Segment)
      requires FramesOK() && V.Linked(model)
      requires stack != [] ==> IndexOf(V.Tip(model), segment) < |V.Tip(model).children|
      modifies this
      ensures FramesOK() && model == V.NextSibling(old(model), segment)
      decreases |stack|, 2
    {
      if |stack| == 0 {
        return;
      }
      TipIs();
      var parent := stack[|stack| - 1].record;
      assert segment in parent.childSegments && IndexOf(parent.model, segment) == parent.childSegments[segment];
      var childIndex := parent.childSegments[segment];
      if childIndex == |parent.children| - 1 {
        NextLink(false);
        return;
      }
      Descend(childIndex + 1);
    }

    method CurrentPath() returns (p: Path)
      requires Valid()
      ensures p == V.CurrentPath(model)
    {
      var done := Done();
      if done {
        return [];
      }
      p := [];
      for i := 1 to |stack|
        invariant p == V.Segments(model[..i])
      {
        assert FrameOK(stack[i], model[i]);
        V.SegmentsStep(model, i);
        p := p + [stack[i].segment];
      }
      assert model[..|stack|] == model;
    }

    method Done() returns (r: bool)
      requires Valid()
      ensures r == V.Done(model)
    {
      if |stack| == 1 {
        TipIs();
      }
      r := |stack| == 0 || (|stack| == 1 && stack[0].record.link.None?);
    }

    /** None on acceptance; a refusal leaves the verifier where it was. */
    method VerifyNext(cid: Cid, followed: bool) returns (err: Option<V.Refusal>)
      requires Valid()
      modifies this
      ensures Valid()
      ensures var v := V.VerifyNext(old(model), V.Item(cid, followed));
              if v.Accepted? then err == None && model == v.stack else err == Some(v.why) && model == old(model)
    {
      var done := Done();
      if done {
        return Some(V.NothingLeft);
      }
      TipIs();
      var next := stack[|stack| - 1].record;
      if next.link.value != cid {
        var path := CurrentPath();
        return Some(V.IncorrectResponse(next.link.value, cid, path));
      }
      if !next.successful && followed {
        return Some(V.AdditionalData);
      }
      MoveOn(followed);
      return None;
    }

    method MoveOn(followed: bool)
      requires Valid() && stack != []
      modifies this
      ensures Valid() && model == V.NextLink(old(model), followed)
    {
      V.NextLive(model, root.model, followed);
      NextLink(followed);
    }

    /** The stack holds the record's nodes at the paths of the frames. */
    ghost predicate Pointed()
      reads this, root, root.repr
      requires root.Valid()
    {
      && |model| == |stack|
      && forall i :: 0 <= i < |stack| ==> PointsAt(stack[i], model[i].seg, V.Segments(model[..i + 1]))
    }

    ghost predicate PointsAt(f: TraversalLink, seg: Segment, q: Path)
      reads root, root.repr
      requires root.Valid()
    {
      V.HasPath(root.model, q) && f == TraversalLink(seg, root.NodeAt(q))
    }

    /** Recording moves no node, so the stack still holds the nodes at its paths. */
    twostate lemma StillPointed()
      requires old(root.Valid()) && old(Pointed()) && unchanged(this) && root.SameNodes()
      ensures Pointed()
    {
      forall i | 0 <= i < |stack| ensures PointsAt(stack[i], model[i].seg, V.Segments(model[..i + 1])) {
        assert old(PointsAt(stack[i], model[i].seg, V.Segments(model[..i + 1])));
      }
    }

    lemma {:induction false} ValidIsPointed()
      requires Valid()
      ensures Pointed()
    {
      forall i | 0 <= i < |stack| ensures PointsAt(stack[i], model[i].seg, V.Segments(model[..i + 1])) {
        FramePoints(i);
      }
    }

    lemma {:induction false} FramePoints(i: nat)
      requires root.Valid() && Recorded(root.model) && FramesOK() && i < |stack|
      ensures PointsAt(stack[i], model[i].seg, V.Segments(model[..i + 1]))
      decreases i
    {
      assert FrameOK(stack[i], model[i]) && Chained(i);
      if i > 0 {
        FramePoints(i - 1);
        V.SegmentsStep(model, i);
        ChildPoints(stack[i - 1].record, V.Segments(model[..i]), stack[i]);
      }
    }

    /** A child of a node is the node one segment further on. */
    lemma {:induction false} ChildPoints(r: TraversalRecord, q: Path, f: TraversalLink)
      requires root.Valid() && Recorded(root.model) && V.HasPath(root.model, q) && r == root.NodeAt(q)
               && f in r.children
      ensures PointsAt(f, f.segment, q + [f.segment])
    {
      root.NodeIs(q);
      V.NodeRecorded(root.model, q);
      var k :| 0 <= k < |r.children| && r.children[k] == f;
      assert r.ChildOK(k);
      IndexOfIs(r.model, f.segment, k);
      V.NodeStep(root.model, q, f.segment);
      root.NodeBelow(q, f.segment);
    }

    /** After a step was recorded the verifier stands at the same nodes, as they are now. */
    ghost method Refresh()
      requires root.Valid() && Recorded(root.model) && Pointed() && (model != [] ==> model[0].seg == 0)
      requires V.LiveIn(V.Reread(model, root.model), root.model)
      modifies this`model
      ensures Valid() && model == V.Reread(old(model), root.model)
    {
      ghost var m := V.Reread(model, root.model);
      RefreshedFrames(m);
      SetModel(m);
    }

    ghost method SetModel(m: V.Stack)
      requires root.Valid() && Recorded(root.model) && V.LiveIn(m, root.model)
      requires |m| == |stack| && forall i :: 0 <= i < |stack| ==> FrameOK(stack[i], m[i])
      requires forall i {:trigger Chained(i)} :: 0 <= i < |stack| ==> Chained(i)
      modifies this`model
      ensures Valid() && model == m
    {
      model := m;
    }

    lemma {:induction false} RefreshedFrames(m: V.Stack)
      requires root.Valid() && Pointed() && m == V.Reread(model, root.model) && (model != [] ==> model[0].seg == 0)
      ensures |m| == |stack| && forall i :: 0 <= i < |stack| ==> FrameOK(stack[i], m[i])
      ensures forall i {:trigger Chained(i)} :: 0 <= i < |stack| ==> Chained(i)
    {
      forall i | 0 <= i < |stack| ensures FrameOK(stack[i], m[i]) && Chained(i) {
        RefreshedFrame(m, i);
      }
    }

    lemma {:induction false} RefreshedFrame(m: V.Stack, i: nat)
      requires root.Valid() && Pointed() && i < |stack| && model[0].seg == 0
               && m == V.StackAt(root.model, V.Segments(model))
      ensures FrameOK(stack[i], m[i]) && Chained(i)
    {
      var q := V.Segments(model[..i + 1]);
      assert PointsAt(stack[i], model[i].seg, q);
      V.SegmentsPrefix(model, i);
      V.SegmentsAre(model);
      root.NodeIs(q);
      if i > 0 {
        var q', x := V.Segments(model[..i]), model[i].seg;
        V.SegmentsStep(model, i);
        assert PointsAt(stack[i - 1], model[i - 1].seg, q');
        root.NodeIs(q');
        root.NodeBelow(q', x);
        var r := stack[i - 1].record;
        assert r.ChildOK(IndexOf(r.model, x));
        assert r.children[IndexOf(r.model, x)] == stack[i];
      } else {
        assert model[..1] == [model[0]];
      }
    }
  }

  /** A step is recorded while a verifier points into the record. */
  method RecordUnder(record: TraversalRecord, verifier: ReplayVerifier, p: Path, cid: Cid, ok: bool)
    requires verifier.Valid() && verifier.root == record
    modifies record.repr, verifier`model
    ensures verifier.Valid() && fresh(record.repr - old(record.repr))
    ensures record.model == Insert(old(record.model), p, cid, ok)
    ensures verifier.model == V.Reread(old(verifier.model), record.model)
  {
    InsertKeepsShape(record.model, p, cid, ok);
    V.RereadLive(verifier.model, record.model, p, cid, ok);
    verifier.ValidIsPointed();
    record.RecordNextStep(p, cid, ok);
    verifier.StillPointed();
    verifier.Refresh();
  }
}
