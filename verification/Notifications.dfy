/**
  The notification publisher: commands are queued in order and carried out by one loop over a
  registry with two indexes, by topic and by subscriber.
 */
module Notifications {

  type Topic = nat
  type Subscriber = nat
  type Event = nat
  type Membership = (Topic, Subscriber)

  datatype Command =
    | Subscribe(topic: Topic, sub: Subscriber)
    | Publish(topic: Topic, event: Event)
    | UnsubscribeAll(sub: Subscriber)
    | CloseTopic(topic: Topic)
    | Shutdown

  datatype Notice = OnNext(sub: Subscriber, topic: Topic, event: Event) | OnClose(sub: Subscriber, topic: Topic)

  // ---------------------------------------------------------------- what commands mean

  /** Whether a command ends a membership. */
  predicate Ends(c: Command, p: Membership) {
    match c
    case UnsubscribeAll(s) => p.1 == s
    case CloseTopic(t) => p.0 == t
    case Shutdown => true
    case _ => false
  }

  function Apply(m: set<Membership>, c: Command): set<Membership> {
    (set p | p in m && !Ends(c, p)) + if c.Subscribe? then {(c.topic, c.sub)} else {}
  }

  /** The notices a command causes, each exactly once. */
  function Notices(m: set<Membership>, c: Command): set<Notice> {
    if c.Publish? then set p | p in m && p.0 == c.topic :: OnNext(p.1, p.0, c.event)
    else Closes(set p | p in m && Ends(c, p))
  }

  function Closes(m: set<Membership>): set<Notice> {
    set p | p in m :: OnClose(p.1, p.0)
  }

  function After(cmds: seq<Command>): set<Membership> {
    if cmds == [] then {} else Apply(After(cmds[..|cmds| - 1]), cmds[|cmds| - 1])
  }

  /** A subscription at i that nothing up to the end has ended. */
  predicate StandsFrom(cmds: seq<Command>, i: nat, p: Membership) {
    i < |cmds| && cmds[i] == Subscribe(p.0, p.1) && forall j :: i < j < |cmds| ==> !Ends(cmds[j], p)
  }

  /** The members are exactly those with a subscription that still stands. */
  lemma {:induction false} MembersHaveStandingSubscriptions(cmds: seq<Command>, p: Membership)
    ensures p in After(cmds) <==> exists i :: StandsFrom(cmds, i, p)
    decreases |cmds|
  {
    if cmds != [] {
      var n := |cmds| - 1;
      var init := cmds[..n];
      MembersHaveStandingSubscriptions(init, p);
      if cmds[n] == Subscribe(p.0, p.1) {
        assert StandsFrom(cmds, n, p);
      } else if p in After(cmds) {
        var i :| StandsFrom(init, i, p);
        assert StandsFrom(cmds, i, p);
      }
      forall i: nat | StandsFrom(cmds, i, p) ensures p in After(cmds) {
        if i < n {
          assert StandsFrom(init, i, p);
        }
      }
    }
  }

  /** An event reaches a subscriber exactly when its subscription stands at the event's place in the order. */
  lemma {:induction false} EventReachesStandingSubscribers(cmds: seq<Command>, i: nat, s: Subscriber)
    requires i < |cmds| && cmds[i].Publish?
    ensures OnNext(s, cmds[i].topic, cmds[i].event) in Notices(After(cmds[..i]), cmds[i])
            <==> exists k :: StandsFrom(cmds[..i], k, (cmds[i].topic, s))
  {
    var m := After(cmds[..i]);
    MembersHaveStandingSubscriptions(cmds[..i], (cmds[i].topic, s));
    if (cmds[i].topic, s) in m {
      var p := (cmds[i].topic, s);
      assert OnNext(p.1, p.0, cmds[i].event) in Notices(m, cmds[i]);
    }
  }

  /** How often a membership began, and how often its subscriber was told it closed. */
  function Begun(cmds: seq<Command>, p: Membership): nat {
    if cmds == [] then 0
    else
      var n := |cmds| - 1;
      Begun(cmds[..n], p) + if cmds[n] == Subscribe(p.0, p.1) && p !in After(cmds[..n]) then 1 else 0
  }

  function Closed(cmds: seq<Command>, p: Membership): nat {
    if cmds == [] then 0
    else
      var n := |cmds| - 1;
      Closed(cmds[..n], p) + if OnClose(p.1, p.0) in Notices(After(cmds[..n]), cmds[n]) then 1 else 0
  }

  lemma {:induction false} CloseNotice(m: set<Membership>, c: Command, p: Membership)
    ensures OnClose(p.1, p.0) in Notices(m, c) <==> p in m && Ends(c, p)
  {
  }

  /** Every period of membership that has ended was closed once, and one that has not ended was not. */
  lemma {:induction false} ClosedOncePerPeriod(cmds: seq<Command>, p: Membership)
    ensures Begun(cmds, p) == Closed(cmds, p) + if p in After(cmds) then 1 else 0
    decreases |cmds|
  {
    if cmds != [] {
      var n := |cmds| - 1;
      ClosedOncePerPeriod(cmds[..n], p);
      CloseNotice(After(cmds[..n]), cmds[n], p);
    }
  }

  // ---------------------------------------------------------------- notices in some order

  /** The notices are those of the set, each once, in some order. */
  ghost predicate Lists(seg: seq<Notice>, s: set<Notice>) {
    forall x :: multiset(seg)[x] == if x in s then 1 else 0
  }

  lemma ListsSnoc(seg: seq<Notice>, s: set<Notice>, x: Notice)
    requires Lists(seg, s) && x !in s
    ensures Lists(seg + [x], s + {x})
  {
  }

  // ---------------------------------------------------------------- the registry

  class SubscriberRegistry {
    var topics: map<Topic, set<Subscriber>>
    var revTopics: map<Subscriber, set<Topic>>

    ghost predicate InTopics(t: Topic, s: Subscriber)
      reads this
    {
      t in topics && s in topics[t]
    }

    ghost predicate InRevTopics(t: Topic, s: Subscriber)
      reads this
    {
      s in revTopics && t in revTopics[s]
    }

    /** The indexes are inverses of each other and hold no empty sets. */
    ghost predicate Valid()
      reads this
    {
      && (forall t, s :: InTopics(t, s) <==> InRevTopics(t, s))
      && (forall t :: t in topics ==> topics[t] != {})
      && (forall s :: s in revTopics ==> revTopics[s] != {})
    }

    ghost function Members(): set<Membership>
      reads this
    {
      set t, s | t in topics && s in topics[t] :: (t, s)
    }

    constructor ()
      ensures Valid() && Members() == {}
    {
      topics, revTopics := map[], map[];
    }

    method Add(t: Topic, s: Subscriber)
      requires Valid()
      modifies this
      ensures Valid() && Members() == old(Members()) + {(t, s)}
    {
      var subs := if t in topics then topics[t] else {};
      topics := topics[t := subs + {s}];
      var ts := if s in revTopics then revTopics[s] else {};
      revTopics := revTopics[s := ts + {t}];
      assert forall x, y :: InTopics(x, y) <==> old(InTopics(x, y)) || (x == t && y == s);
      assert forall x, y :: InRevTopics(x, y) <==> old(InRevTopics(x, y)) || (x == t && y == s);
    }

    method Remove(t: Topic, s: Subscriber) returns (seg: seq<Notice>)
      requires Valid()
      modifies this
      ensures Valid() && Members() == old(Members()) - {(t, s)}
      ensures seg == if (t, s) in old(Members()) then [OnClose(s, t)] else []
    {
      if t !in topics || s !in topics[t] {
        return [];
      }
      assert InTopics(t, s) && InRevTopics(t, s);
      topics := topics[t := topics[t] - {s}];
      revTopics := revTopics[s := revTopics[s] - {t}];
      if |topics[t]| == 0 {
        topics := topics - {t};
      }
      if |revTopics[s]| == 0 {
        revTopics := revTopics - {s};
      }
      assert forall x, y :: InTopics(x, y) <==> old(InTopics(x, y)) && !(x == t && y == s);
      assert forall x, y :: InRevTopics(x, y) <==> old(InRevTopics(x, y)) && !(x == t && y == s);
      return [OnClose(s, t)];
    }

    method Send(t: Topic, event: Event) returns (seg: seq<Notice>)
      requires Valid()
      ensures Lists(seg, Notices(Members(), Publish(t, event)))
    {
      seg := [];
      var rest := if t in topics then topics[t] else {};
      ghost var sent: set<Notice> := {};
      while rest != {}
        invariant rest <= if t in topics then topics[t] else {}
        invariant Lists(seg, sent)
        invariant forall x :: x in sent <==>
                    x.OnNext? && x.topic == t && x.event == event && InTopics(t, x.sub) && x.sub !in rest
      {
        var s :| s in rest;
        ListsSnoc(seg, sent, OnNext(s, t, event));
        seg, sent, rest := seg + [OnNext(s, t, event)], sent + {OnNext(s, t, event)}, rest - {s};
      }
      assert sent == Notices(Members(), Publish(t, event)) by {
        forall s: Subscriber | InTopics(t, s) ensures OnNext(s, t, event) in Notices(Members(), Publish(t, event)) {
          var p := (t, s);
          assert p in Members();
        }
      }
    }

    method RemoveEach(members: set<Membership>) returns (seg: seq<Notice>)
      requires Valid() && members <= Members()
      modifies this
      ensures Valid() && Members() == old(Members()) - members
      ensures Lists(seg, Closes(members))
    {
      seg := [];
      var rest := members;
      ghost var done: set<Membership> := {};
      while rest != {}
        invariant Valid() && rest + done == members && rest !! done
        invariant Members() == old(Members()) - done
        invariant Lists(seg, Closes(done))
      {
        var p :| p in rest;
        var one := Remove(p.0, p.1);
        assert OnClose(p.1, p.0) !in Closes(done);
        ListsSnoc(seg, Closes(done), OnClose(p.1, p.0));
        assert Closes(done + {p}) == Closes(done) + {OnClose(p.1, p.0)};
        seg, done, rest := seg + one, done + {p}, rest - {p};
      }
      assert done == members;
    }

    method RemoveTopic(t: Topic) returns (seg: seq<Notice>)
      requires Valid()
      modifies this
      ensures Valid() && Members() == Apply(old(Members()), CloseTopic(t))
      ensures Lists(seg, Notices(old(Members()), CloseTopic(t)))
    {
      var members := if t in topics then set s | s in topics[t] :: (t, s) else {};
      assert members == set p | p in Members() && Ends(CloseTopic(t), p);
      seg := RemoveEach(members);
    }

    method RemoveSubscriber(s: Subscriber) returns (seg: seq<Notice>)
      requires Valid()
      modifies this
      ensures Valid() && Members() == Apply(old(Members()), UnsubscribeAll(s))
      ensures Lists(seg, Notices(old(Members()), UnsubscribeAll(s)))
    {
      var members := if s in revTopics then set t | t in revTopics[s] :: (t, s) else {};
      forall p: Membership ensures p in members <==> p in Members() && p.1 == s {
        assert InRevTopics(p.0, s) <==> InTopics(p.0, s);
      }
      assert members == set p | p in Members() && Ends(UnsubscribeAll(s), p);
      seg := RemoveEach(members);
    }

    method RemoveAll() returns (seg: seq<Notice>)
      requires Valid()
      modifies this
      ensures Valid() && topics == map[] && revTopics == map[]
      ensures Lists(seg, Notices(old(Members()), Shutdown))
    {
      var members := set t, s | t in topics && s in topics[t] :: (t, s);
      assert members == set p | p in Members() && Ends(Shutdown, p);
      seg := RemoveEach(members);
      IndexesHaveMembers();
    }

    lemma {:induction false} IndexesHaveMembers()
      requires Valid()
      ensures topics != map[] || revTopics != map[] ==> Members() != {}
    {
      if topics != map[] {
        var t :| t in topics;
        var s :| s in topics[t];
        assert (t, s) in Members();
      }
      if revTopics != map[] {
        var s :| s in revTopics;
        var t :| t in revTopics[s];
        assert InRevTopics(t, s);
        assert (t, s) in Members();
      }
    }

    /** One command of the loop. */
    method Handle(c: Command) returns (seg: seq<Notice>)
      requires Valid() && !c.Shutdown?
      modifies this
      ensures Valid() && Members() == Apply(old(Members()), c)
      ensures Lists(seg, Notices(old(Members()), c))
    {
      match c
      case Subscribe(t, s) =>
        Add(t, s);
        seg := [];
      case Publish(t, e) =>
        seg := Send(t, e);
      case UnsubscribeAll(s) =>
        seg := RemoveSubscriber(s);
      case CloseTopic(t) =>
        seg := RemoveTopic(t);
    }
  }

  // ---------------------------------------------------------------- the command loop

  /** How many commands the loop carries out: up to the first shutdown. */
  function Handled(cmds: seq<Command>): (n: nat)
    ensures n <= |cmds|
    ensures forall i :: 0 <= i < n - 1 ==> !cmds[i].Shutdown?
    ensures n < |cmds| ==> n > 0 && cmds[n - 1].Shutdown?
  {
    if cmds == [] then 0 else if cmds[0].Shutdown? then 1 else 1 + Handled(cmds[1..])
  }

  /** The notices are what the i-th command is to cause. */
  ghost predicate Heard(seg: seq<Notice>, cmds: seq<Command>, i: nat)
    requires i < |cmds|
  {
    Lists(seg, Notices(After(cmds[..i]), cmds[i]))
  }

  /** At each command carried out, exactly its notices are heard. */
  ghost predicate AllHeard(history: seq<seq<Notice>>, cmds: seq<Command>) {
    |history| <= |cmds| && forall i :: 0 <= i < |history| ==> Heard(history[i], cmds, i)
  }

  lemma {:induction false} HeardOneMore(history: seq<seq<Notice>>, cmds: seq<Command>, seg: seq<Notice>)
    requires AllHeard(history, cmds) && |history| < |cmds| && Heard(seg, cmds, |history|)
    ensures AllHeard(history + [seg], cmds)
  {
    forall i | 0 <= i < |history| + 1 ensures Heard((history + [seg])[i], cmds, i) {
      assert i < |history| ==> Heard(history[i], cmds, i);
    }
  }

  lemma {:induction false} AfterSnoc(cmds: seq<Command>, i: nat)
    requires i < |cmds|
    ensures After(cmds[..i + 1]) == Apply(After(cmds[..i]), cmds[i])
  {
    assert cmds[..i + 1][..i] == cmds[..i];
  }

  /** Carries out the queued commands in their order and says what the subscribers heard at each. */
  method Start(cmds: seq<Command>) returns (reg: SubscriberRegistry, history: seq<seq<Notice>>)
    ensures reg.Valid() && |history| == Handled(cmds)
    ensures AllHeard(history, cmds)
    ensures history != [] && cmds[|history| - 1].Shutdown? ==> reg.topics == map[] && reg.revTopics == map[]
    ensures reg.Members() == After(cmds[..|history|])
  {
    reg := new SubscriberRegistry();
    history := [];
    var n := 0;
    while n < |cmds|
      invariant n == |history| <= |cmds| && fresh(reg) && reg.Valid()
      invariant reg.Members() == After(cmds[..n])
      invariant Handled(cmds) == n + Handled(cmds[n..])
      invariant AllHeard(history, cmds)
      invariant forall i :: 0 <= i < n ==> !cmds[i].Shutdown?
    {
      var seg := Process(reg, cmds, n);
      HeardOneMore(history, cmds, seg);
      history := history + [seg];
      if cmds[n].Shutdown? {
        return;
      }
      assert cmds[n..][1..] == cmds[n + 1..];
      n := n + 1;
    }
  }

  /** One turn of the loop; a shutdown closes every subscription. */
  method Process(reg: SubscriberRegistry, cmds: seq<Command>, n: nat) returns (seg: seq<Notice>)
    requires n < |cmds| && reg.Valid() && reg.Members() == After(cmds[..n])
    modifies reg
    ensures reg.Valid() && reg.Members() == After(cmds[..n + 1]) && Heard(seg, cmds, n)
    ensures cmds[n].Shutdown? ==> reg.topics == map[] && reg.revTopics == map[]
  {
    AfterSnoc(cmds, n);
    if cmds[n].Shutdown? {
      seg := reg.RemoveAll();
    } else {
      seg := reg.Handle(cmds[n]);
    }
  }

  class Publisher {
    var closed: bool
    var cmds: seq<Command>

    /** Nothing is queued behind a shutdown. */
    ghost predicate Valid()
      reads this
    {
      forall i :: 0 <= i < |cmds| && cmds[i].Shutdown? ==> closed && i == |cmds| - 1
    }

    constructor ()
      ensures Valid() && !closed && cmds == []
    {
      closed, cmds := false, [];
    }

    /** Publish, Subscribe, Unsubscribe, Close and Shutdown: refused once the publisher is shut down. */
    method Queue(c: Command) returns (accepted: bool)
      requires Valid()
      modifies this
      ensures Valid() && accepted == !old(closed) && closed == (old(closed) || c.Shutdown?)
      ensures cmds == if accepted then old(cmds) + [c] else old(cmds)
    {
      if closed {
        return false;
      }
      closed := c.Shutdown?;
      cmds := cmds + [c];
      return true;
    }

    method Dequeue() returns (c: Command)
      requires Valid() && cmds != []
      modifies this`cmds
      ensures Valid() && [c] + cmds == old(cmds)
      ensures c.Shutdown? ==> closed && cmds == []
    {
      c := cmds[0];
      cmds := cmds[1..];
    }
  }
}
