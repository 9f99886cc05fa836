/**
  The traverser: a traversal goroutine that stops at every link, and any number of client
  threads that inspect it and supply what was loaded. One mutex guards the shared fields;
  it is locked by one thread and may be unlocked by another.
 */
module Traversers {
  import opened Core

  type ClientId = nat
  /** A reader given to Advance or an error given to Error. */
  type Response = nat

  /** Where the goroutine is. Running is anything outside of the loader and writeDone. */
  datatype Goroutine =
    | Running
    | Publishing // in loader, before the unlock
    | Waiting // in loader, at the select
    | LockWait // in loader, cancelled, about to take the lock back
    | Returning(response: Response) // in loader, response received
    | Finishing // in writeDone, before the unlock
    | Stopping // after writeDone
    | Stopped

  datatype Operation = Read | Hand(response: Response)

  /** Where a client is. */
  datatype Client =
    | Idle
    | Wanting(op: Operation) // before the lock
    | Checking(op: Operation) // after the lock
    | Sending(response: Response) // at the select
    | Unlocking

  datatype Outcome = Loaded(response: Response) | Cancelled

  /** What a client last read, and how many responses had been handed over by then. */
  datatype Seen = Seen(epoch: nat, link: Option<Cid>, isDone: bool)

  /** A response together with the link that was current when it was handed over. */
  datatype Handed = Handed(link: Option<Cid>, response: Response)

  /** fault: some unlock found the mutex unlocked; calls, results: of the loader; handed: over the channel. */
  datatype State = State(
    locked: bool,
    fault: bool,
    cancelled: bool,
    isDone: bool,
    current: Option<Cid>,
    g: Goroutine,
    clients: map<ClientId, Client>,
    seen: map<ClientId, Seen>,
    calls: seq<Cid>,
    results: seq<Outcome>,
    handed: seq<Handed>)

  const STARTED := State(true, false, false, false, None, Running, map[], map[], [], [], [])

  function At(s: State, c: ClientId): Client {
    if c in s.clients then s.clients[c] else Idle
  }

  function Unlock(s: State): State {
    s.(locked := false, fault := s.fault || !s.locked)
  }

  datatype Step =
    | Call(link: Cid)
    | UnlockLoad
    | SeeCancel
    | Relock
    | Return
    | WriteDone(panicked: bool)
    | UnlockDone
    | CloseStopped
    | Begin(c: ClientId, op: Operation)
    | Lock(c: ClientId)
    | ReadFields(c: ClientId)
    | FindDone(c: ClientId)
    | Select(c: ClientId)
    | GiveUp(c: ClientId)
    | HandOver(c: ClientId)
    | Release(c: ClientId)
    | Cancel

  predicate Enabled(s: State, step: Step) {
    match step
    case Call(_) => s.g.Running?
    case UnlockLoad => s.g.Publishing?
    case SeeCancel => s.g.Waiting? && s.cancelled
    case Relock => s.g.LockWait? && !s.locked
    case Return => s.g.Returning?
    case WriteDone(_) => s.g.Running?
    case UnlockDone => s.g.Finishing?
    case CloseStopped => s.g.Stopping?
    case Begin(c, _) => At(s, c).Idle?
    case Lock(c) => At(s, c).Wanting? && !s.locked
    case ReadFields(c) => At(s, c).Checking? && At(s, c).op.Read?
    case FindDone(c) => At(s, c).Checking? && At(s, c).op.Hand? && s.isDone
    case Select(c) => At(s, c).Checking? && At(s, c).op.Hand? && !s.isDone
    case GiveUp(c) => At(s, c).Sending? && s.cancelled
    case HandOver(c) => At(s, c).Sending? && s.g.Waiting?
    case Release(c) => At(s, c).Unlocking?
    case Cancel => true
  }

  function Next(s: State, step: Step): State
    requires Enabled(s, step)
  {
    match step
    case Call(link) => s.(g := Publishing, current := Some(link), calls := s.calls + [link])
    case UnlockLoad => Unlock(s).(g := Waiting)
    case SeeCancel => s.(g := LockWait)
    case Relock => s.(g := Running, locked := true, results := s.results + [Cancelled])
    case Return => s.(g := Running, results := s.results + [Loaded(s.g.response)])
    case WriteDone(_) => s.(g := Finishing, isDone := true)
    case UnlockDone => Unlock(s).(g := Stopping)
    case CloseStopped => s.(g := Stopped)
    case Begin(c, op) => s.(clients := s.clients[c := Wanting(op)])
    case Lock(c) => s.(clients := s.clients[c := Checking(At(s, c).op)], locked := true)
    case ReadFields(c) =>
      s.(clients := s.clients[c := Unlocking], seen := s.seen[c := Seen(|s.handed|, s.current, s.isDone)])
    case FindDone(c) => s.(clients := s.clients[c := Unlocking])
    case Select(c) => s.(clients := s.clients[c := Sending(At(s, c).op.response)])
    case GiveUp(c) => s.(clients := s.clients[c := Unlocking])
    case HandOver(c) =>
      var r := At(s, c).response;
      s.(g := Returning(r), clients := s.clients[c := Idle], handed := s.handed + [Handed(s.current, r)])
    case Release(c) => Unlock(s).(clients := s.clients[c := Idle])
    case Cancel => s.(cancelled := true)
  }

  // ---------------------------------------------------------------- who owns the lock

  predicate GoroutineOwns(g: Goroutine) {
    g.Running? || g.Publishing? || g.Returning? || g.Finishing?
  }

  predicate ClientOwns(s: State, c: ClientId) {
    At(s, c).Checking? || At(s, c).Sending? || At(s, c).Unlocking?
  }

  ghost predicate Owned(s: State) {
    GoroutineOwns(s.g) || exists c :: ClientOwns(s, c)
  }

  predicate Apart(s: State, c: ClientId, d: ClientId) {
    ClientOwns(s, c) && ClientOwns(s, d) ==> c == d
  }

  /** The lock is held exactly when some thread owns it, and no two threads own it. */
  ghost predicate OneOwner(s: State) {
    && (s.locked <==> Owned(s))
    && (forall c :: ClientOwns(s, c) ==> !GoroutineOwns(s.g))
    && (forall c, d :: Apart(s, c, d))
  }

  predicate InLoader(g: Goroutine) {
    g.Publishing? || g.Waiting? || g.LockWait? || g.Returning?
  }

  ghost predicate Control(s: State) {
    && !s.fault
    && (s.isDone <==> s.g.Finishing? || s.g.Stopping? || s.g.Stopped?)
    && (s.g.LockWait? ==> s.cancelled)
    && (forall c :: At(s, c).Sending? ==> !s.isDone)
  }

  /** The results of the loader that came from clients, each with the link it was returned for. */
  function Answers(calls: seq<Cid>, results: seq<Outcome>): seq<Handed>
    requires |results| <= |calls|
  {
    if results == [] then []
    else
      var n := |results| - 1;
      Answers(calls, results[..n]) + if results[n].Loaded? then [Handed(Some(calls[n]), results[n].response)] else []
  }

  /** Every response handed over is returned by one loader call, in order, for the link that was current. */
  ghost predicate Delivered(s: State) {
    && |s.calls| == |s.results| + (if InLoader(s.g) then 1 else 0)
    && s.handed == Answers(s.calls, s.results) +
                   (if s.g.Returning? then [Handed(Some(s.calls[|s.calls| - 1]), s.g.response)] else [])
    && (InLoader(s.g) ==> s.current == Some(s.calls[|s.calls| - 1]))
  }

  /** Without cancellation what a client has read stays true until the next response is handed over. */
  ghost predicate ReadsHold(s: State, c: ClientId) {
    c in s.seen && s.seen[c].epoch == |s.handed| && !s.cancelled ==>
      && s.seen[c].link == s.current && s.seen[c].isDone == s.isDone
      && (s.g.Waiting? || s.g.Stopping? || s.g.Stopped?)
  }

  ghost predicate SeenBefore(s: State, c: ClientId) {
    c in s.seen ==> s.seen[c].epoch <= |s.handed|
  }

  ghost predicate Inv(s: State) {
    && OneOwner(s)
    && Control(s)
    && Delivered(s)
    && (forall c :: SeenBefore(s, c))
    && (forall c :: ReadsHold(s, c))
  }

  lemma StartedInv()
    ensures Inv(STARTED)
  {
  }

  // ---------------------------------------------------------------- every step keeps it

  /** The thread that takes a step. */
  predicate ByClient(step: Step) {
    step.Begin? || step.Lock? || step.ReadFields? || step.FindDone? || step.Select? || step.GiveUp? ||
    step.HandOver? || step.Release?
  }

  lemma {:induction false} ClientOwner(s: State, step: Step)
    requires OneOwner(s) && Control(s) && Enabled(s, step) && ByClient(step)
    ensures OneOwner(Next(s, step))
  {
    var t := Next(s, step);
    var c := step.c;
    assert forall d :: d != c ==> (ClientOwns(t, d) <==> ClientOwns(s, d));
    assert step.Begin? || step.Lock? || ClientOwns(s, c);
    assert step.Begin? || step.HandOver? || step.Release? || ClientOwns(t, c);
    forall d, e ensures Apart(t, d, e) {
      assert Apart(s, d, e) && Apart(s, c, d) && Apart(s, c, e);
    }
    forall d | ClientOwns(t, d) ensures d == c || step.Begin? {
      assert Apart(s, c, d);
    }
  }

  lemma {:induction false} GoroutineOwner(s: State, step: Step)
    requires OneOwner(s) && Control(s) && Enabled(s, step) && !ByClient(step)
    ensures OneOwner(Next(s, step))
  {
    var t := Next(s, step);
    assert forall d :: ClientOwns(t, d) <==> ClientOwns(s, d);
    forall d, e ensures Apart(t, d, e) {
      assert Apart(s, d, e);
    }
  }

  lemma {:induction false} NextControl(s: State, step: Step)
    requires OneOwner(s) && Control(s) && Enabled(s, step)
    ensures Control(Next(s, step))
  {
    var t := Next(s, step);
    if ByClient(step) {
      assert step.Release? ==> ClientOwns(s, step.c);
      assert forall d :: d != step.c ==> At(t, d) == At(s, d);
    } else {
      assert forall d :: At(t, d) == At(s, d) && (At(s, d).Sending? ==> ClientOwns(s, d));
    }
  }

  lemma {:induction false} AnswersStable(calls: seq<Cid>, results: seq<Outcome>, link: Cid)
    requires |results| <= |calls|
    ensures Answers(calls + [link], results) == Answers(calls, results)
    decreases |results|
  {
    if results != [] {
      AnswersStable(calls, results[..|results| - 1], link);
    }
  }

  lemma {:induction false} AnswersSnoc(calls: seq<Cid>, results: seq<Outcome>, r: Outcome)
    requires |results| < |calls|
    ensures Answers(calls, results + [r]) ==
            Answers(calls, results) + if r.Loaded? then [Handed(Some(calls[|results|]), r.response)] else []
  {
  }

  lemma {:induction false} NextDelivered(s: State, step: Step)
    requires Delivered(s) && Enabled(s, step)
    ensures Delivered(Next(s, step))
  {
    match step
    case Call(link) => AnswersStable(s.calls, s.results, link);
    case Relock => AnswersSnoc(s.calls, s.results, Cancelled);
    case Return => ReturnDelivers(s);
    case HandOver(_) =>
    case _ => OthersDeliver(s, step);
  }

  lemma {:induction false} ReturnDelivers(s: State)
    requires Delivered(s) && Enabled(s, Return)
    ensures Delivered(Next(s, Return))
  {
    AnswersSnoc(s.calls, s.results, Loaded(s.g.response));
  }

  /** The other steps touch neither the calls nor what was handed over. */
  lemma {:induction false} OthersDeliver(s: State, step: Step)
    requires Delivered(s) && Enabled(s, step)
    requires !step.Call? && !step.Relock? && !step.Return? && !step.HandOver?
    ensures Delivered(Next(s, step))
  {
    var t := Next(s, step);
    assert t.calls == s.calls && t.results == s.results && t.handed == s.handed && t.current == s.current;
    assert InLoader(t.g) == InLoader(s.g) && (t.g.Returning? <==> s.g.Returning?);
  }

  lemma {:induction false} NextReads(s: State, step: Step, c: ClientId)
    requires Inv(s) && Enabled(s, step)
    ensures ReadsHold(Next(s, step), c) && SeenBefore(Next(s, step), c)
  {
    assert ReadsHold(s, c) && SeenBefore(s, c);
    if step.ReadFields? {
      assert ClientOwns(s, step.c);
    }
  }

  lemma {:induction false} NextInv(s: State, step: Step)
    requires Inv(s) && Enabled(s, step)
    ensures Inv(Next(s, step))
  {
    if ByClient(step) {
      ClientOwner(s, step);
    } else {
      GoroutineOwner(s, step);
    }
    NextControl(s, step);
    NextDelivered(s, step);
    forall c ensures ReadsHold(Next(s, step), c) && SeenBefore(Next(s, step), c) {
      NextReads(s, step, c);
    }
  }

  // ---------------------------------------------------------------- whole runs

  predicate CanRun(s: State, steps: seq<Step>)
    decreases |steps|
  {
    steps == [] || (Enabled(s, steps[0]) && CanRun(Next(s, steps[0]), steps[1..]))
  }

  function Run(s: State, steps: seq<Step>): State
    requires CanRun(s, steps)
    decreases |steps|
  {
    if steps == [] then s else Run(Next(s, steps[0]), steps[1..])
  }

  lemma {:induction false} RunInv(s: State, steps: seq<Step>)
    requires Inv(s) && CanRun(s, steps)
    ensures Inv(Run(s, steps))
    decreases |steps|
  {
    if steps != [] {
      NextInv(s, steps[0]);
      RunInv(Next(s, steps[0]), steps[1..]);
    }
  }

  /**
    In every run, with any number of clients and with cancellation or a panic anywhere: no
    unlock finds the mutex unlocked, the held lock has one owner, and what the clients hand
    over is what the loader returns.
   */
  lemma {:induction false} HandOffIsSafe(steps: seq<Step>)
    requires CanRun(STARTED, steps)
    ensures var s := Run(STARTED, steps);
            && !s.fault && OneOwner(s) && Delivered(s)
  {
    StartedInv();
    RunInv(STARTED, steps);
  }

  /** Without cancellation, a response handed over right after a read answers the link that was read. */
  lemma {:induction false} ResponseAnswersTheLinkRead(s: State, reader: ClientId, hander: ClientId)
    requires Inv(s) && !s.cancelled && Enabled(s, HandOver(hander))
    requires reader in s.seen && s.seen[reader].epoch == |s.handed|
    ensures var t := Next(s, HandOver(hander));
            && t.handed[|s.handed|].link == s.seen[reader].link
            && s.seen[reader].link == Some(s.calls[|s.calls| - 1])
            && Enabled(t, Return)
            && Next(t, Return).results == s.results + [Loaded(t.handed[|s.handed|].response)]
            && |Next(t, Return).results| == |s.calls|
  {
    assert ReadsHold(s, reader);
  }

  // ---------------------------------------------------------------- no deadlock

  /** A step of a thread that is inside one of the traverser's operations. */
  predicate Internal(step: Step) {
    !step.Begin? && !step.Cancel?
  }

  /** While any client is inside an operation some thread can go on. */
  lemma {:induction false} NoDeadlock(s: State, c: ClientId) returns (step: Step)
    requires Inv(s) && !At(s, c).Idle?
    ensures Internal(step) && Enabled(s, step)
  {
    assert At(s, c).Wanting? || ClientOwns(s, c);
    if !s.locked && At(s, c).Wanting? {
      step := Lock(c);
    } else if GoroutineOwns(s.g) {
      step := if s.g.Running? then WriteDone(false) else if s.g.Publishing? then UnlockLoad
              else if s.g.Returning? then Return else UnlockDone;
    } else {
      var d :| ClientOwns(s, d);
      step := OwnerGoesOn(s, d);
    }
  }

  lemma {:induction false} OwnerGoesOn(s: State, c: ClientId) returns (step: Step)
    requires Inv(s) && ClientOwns(s, c)
    ensures Internal(step) && Enabled(s, step)
    ensures step == ReadFields(c) || step == FindDone(c) || step == Select(c) || step == Release(c)
            || step == HandOver(c) || step == GiveUp(c)
  {
    match At(s, c)
    case Checking(Read) => step := ReadFields(c);
    case Checking(Hand(_)) => step := if s.isDone then FindDone(c) else Select(c);
    case Sending(_) => step := if s.g.Waiting? then HandOver(c) else GiveUp(c);
    case Unlocking => step := Release(c);
  }

  /** How many steps a client that owns the lock may still take before it gives it up. */
  function Left(s: State, c: ClientId): nat {
    match At(s, c)
    case Checking(_) => 3
    case Sending(_) => 2
    case Unlocking => 1
    case _ => 0
  }

  /** The owner's own steps use up its time with the lock, and nobody else's step adds to it. */
  lemma OwnersTimeRunsOut(s: State, step: Step, c: ClientId)
    requires Inv(s) && Enabled(s, step) && ClientOwns(s, c)
    ensures Left(Next(s, step), c) <= Left(s, c)
    ensures ByClient(step) && step.c == c ==> Left(Next(s, step), c) < Left(s, c)
    ensures ByClient(step) && step.c != c ==> !step.Lock?
  {
  }

  /** With a cancelled context a waiting loader returns as soon as the owner of the lock, if any, has gone on. */
  lemma {:induction false} CancelledLoaderReturns(s: State) returns (steps: seq<Step>)
    requires Inv(s) && s.cancelled && (s.g.Waiting? || s.g.LockWait?)
    ensures CanRun(s, steps) && |steps| <= 5 && Run(s, steps).g.Running?
    ensures s.g.LockWait? ==> |steps| <= 4
    ensures forall i :: 0 <= i < |steps| ==> Internal(steps[i])
    decreases s.g.Waiting?
  {
    if s.g.Waiting? {
      NextInv(s, SeeCancel);
      var rest := CancelledLoaderReturns(Next(s, SeeCancel));
      steps := [SeeCancel] + rest;
      assert steps[1..] == rest;
    } else if !s.locked {
      steps := [Relock];
      assert steps[1..] == [];
      assert Run(s, steps) == Run(Next(s, Relock), []);
    } else {
      var c :| ClientOwns(s, c);
      steps := OwnerLeaves(s, c);
    }
  }

  lemma {:induction false} OwnerLeaves(s: State, c: ClientId) returns (steps: seq<Step>)
    requires Inv(s) && s.cancelled && s.g.LockWait? && ClientOwns(s, c)
    ensures CanRun(s, steps) && |steps| <= Left(s, c) + 1 && Run(s, steps).g.Running?
    ensures forall i :: 0 <= i < |steps| ==> Internal(steps[i])
    decreases Left(s, c)
  {
    var step := OwnerGoesOn(s, c);
    var t := Next(s, step);
    NextInv(s, step);
    var rest;
    if step.Release? {
      rest := [Relock];
      assert rest[1..] == [];
      assert Run(t, rest) == Run(Next(t, Relock), []);
    } else {
      rest := OwnerLeaves(t, c);
    }
    steps := [step] + rest;
    assert steps[1..] == rest;
  }
}
