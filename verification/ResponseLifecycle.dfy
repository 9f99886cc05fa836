/**
  The life of a response on the responder: the manager thread handles one message at a
  time, executors run between its messages, and both issue operations on the response
  stream.
 */
module ResponseLifecycle {
  import opened Core

  type Worker = nat
  type Update = nat

  datatype Phase = Queued | Running | Paused | CompletingSend

  datatype Error = ContextCancelled | NetworkError | CancelledByCommand

  /** An in-progress response with its one-slot signals. */
  datatype Response = Response(
    phase: Phase,
    updates: seq<Update>,
    pauseSignal: bool,
    updateSignal: bool,
    errSignal: Option<Error>)

  /** What is issued on a response stream: link metadata, a terminal status, or anything else. */
  datatype StreamOp = Link | Terminal | Other

  /** How the execution of a task ended. */
  datatype Outcome = EndedPaused | EndedSilently(why: Error) | EndedWithStatus

  datatype Stage =
    | Popped                 // taken off the task queue; has asked the manager to start it
    | Executing
    | AwaitingUpdates        // took the update signal and asked the manager for the updates
    | Finishing(outcome: Outcome)

  datatype Task = Task(id: RequestId, stage: Stage)

  /** What happened for a request: its stream operations, and the updates accepted and handed out. */
  datatype History = History(ops: seq<StreamOp>, accepted: seq<Update>, delivered: seq<Update>)

  const NO_HISTORY := History([], [], [])

  datatype State = State(
    responses: map<RequestId, Response>,
    submitted: set<RequestId>,
    pending: set<RequestId>,           // topics in the task queue
    workers: map<Worker, Task>,
    history: map<RequestId, History>)

  function HistoryOf(s: State, id: RequestId): History {
    if id in s.history then s.history[id] else NO_HISTORY
  }

  function Issue(s: State, id: RequestId, ops: seq<StreamOp>): State {
    var h := HistoryOf(s, id);
    s.(history := s.history[id := h.(ops := h.ops + ops)])
  }

  function SetResponse(s: State, id: RequestId, r: Response): State {
    s.(responses := s.responses[id := r])
  }

  // -------------------------------------------------------- manager messages

  datatype Prepared = Rejected | FailedSilently | AcceptedPaused | Accepted

  /** newRequest, by the outcome of the request hooks and prepareQuery. */
  function NewRequest(s: State, id: RequestId, p: Prepared): State {
    var r := Response(CompletingSend, [], false, false, None);
    var s' := s.(submitted := s.submitted + {id});
    match p
    case Rejected => SetResponse(Issue(s', id, [Other, Terminal]), id, r)
    case FailedSilently => SetResponse(Issue(s', id, [Other]), id, r)
    case AcceptedPaused => SetResponse(Issue(s', id, [Other]), id, r.(phase := Paused))
    case Accepted => SetResponse(Issue(s', id, [Other]), id, r.(phase := Queued)).(pending := s.pending + {id})
  }

  function AbortRequest(s: State, id: RequestId, err: Error): State {
    if id !in s.responses then s
    else
      var s', r := s.(pending := s.pending - {id}), s.responses[id];
      if r.phase == CompletingSend then s'
      else if r.phase != Running then
        if err != CancelledByCommand then s'.(responses := s.responses - {id})
        else Issue(SetResponse(s', id, r.(phase := CompletingSend)), id, [Terminal])
      else SetResponse(s', id, r.(errSignal := if r.errSignal.Some? then r.errSignal else Some(err)))
  }

  function UnpauseRequest(s: State, id: RequestId): State {
    if id !in s.responses || s.responses[id].phase != Paused then s
    else Issue(SetResponse(s, id, s.responses[id].(phase := Queued)).(pending := s.pending + {id}), id, [Other])
  }

  /** processUpdate; for a paused response the update hooks run here. */
  function ProcessUpdate(s: State, id: RequestId, u: Update, hookFails: bool, hookUnpauses: bool): State {
    if id !in s.responses || s.responses[id].phase == CompletingSend then s
    else
      var r, h := s.responses[id], HistoryOf(s, id);
      if r.phase != Paused then
        SetResponse(s, id, r.(updates := r.updates + [u], updateSignal := true))
        .(history := s.history[id := h.(accepted := h.accepted + [u])])
      else if hookFails then Issue(SetResponse(s, id, r.(phase := CompletingSend)), id, [Other, Terminal])
      else if hookUnpauses then UnpauseRequest(Issue(s, id, [Other]), id)
      else Issue(s, id, [Other])
  }

  function PauseRequest(s: State, id: RequestId): State {
    if id !in s.responses || s.responses[id].phase == CompletingSend || s.responses[id].phase == Paused then s
    else SetResponse(s, id, s.responses[id].(pauseSignal := true))
  }

  function UpdateResponse(s: State, id: RequestId): State {
    if id !in s.responses then s else Issue(s, id, [Other])
  }

  function TerminateRequest(s: State, id: RequestId): State {
    s.(responses := s.responses - {id})
  }

  function StartTask(s: State, w: Worker): State
    requires w in s.workers
  {
    var id := s.workers[w].id;
    if id !in s.responses || s.responses[id].phase == CompletingSend then s.(workers := s.workers - {w})
    else SetResponse(s, id, s.responses[id].(phase := Running)).(workers := s.workers[w := Task(id, Executing)])
  }

  function GetUpdates(s: State, w: Worker): State
    requires w in s.workers
  {
    var id, h := s.workers[w].id, HistoryOf(s, s.workers[w].id);
    var s' := s.(workers := s.workers[w := Task(id, Executing)]);
    if id !in s.responses then s'
    else
      var r := s.responses[id];
      SetResponse(s', id, r.(updates := []))
      .(history := s.history[id := h.(delivered := h.delivered + r.updates)])
  }

  function FinishTask(s: State, w: Worker): State
    requires w in s.workers && s.workers[w].stage.Finishing?
  {
    var id := s.workers[w].id;
    var s' := s.(workers := s.workers - {w});
    if id !in s.responses then s'
    else match s.workers[w].stage.outcome
      case EndedPaused => SetResponse(s', id, s.responses[id].(phase := Paused))
      case EndedSilently(_) => TerminateRequest(s', id)
      case EndedWithStatus => SetResponse(s', id, s.responses[id].(phase := CompletingSend))
  }

  // --------------------------------------------------------------------- steps

  datatype Step =
    | MNew(id: RequestId, prepared: Prepared)
    | MAbort(id: RequestId, err: Error)
    | MUpdate(id: RequestId, u: Update, hookFails: bool, hookUnpauses: bool)
    | MPause(id: RequestId)
    | MUnpause(id: RequestId)
    | MUpdateResponse(id: RequestId)
    | MTerminate(id: RequestId)
    | MStart(w: Worker)
    | MGetUpdates(w: Worker)
    | MFinish(w: Worker)
    | WPop(w: Worker, id: RequestId)
    | XSend(w: Worker)
    | XPause(w: Worker, signalled: bool)
    | XTakeUpdates(w: Worker)
    | XTakeError(w: Worker)
    | XCancelled(w: Worker)
    | XEnd(w: Worker)

  predicate At(s: State, w: Worker, stage: Stage) {
    w in s.workers && s.workers[w].stage == stage
  }

  /**
    When a step can happen: each ID is submitted once; a request is terminated when a
    message with its terminal status was sent or failed; the rest follows the tasks.
   */
  predicate Enabled(s: State, step: Step) {
    match step
    case MNew(id, _) => id !in s.submitted
    case MTerminate(id) => Terminal in HistoryOf(s, id).ops
    case MStart(w) => At(s, w, Popped)
    case MGetUpdates(w) => At(s, w, AwaitingUpdates)
    case MFinish(w) => w in s.workers && s.workers[w].stage.Finishing?
    case WPop(w, id) => id in s.pending && w !in s.workers
    case XSend(w) => At(s, w, Executing)
    case XPause(w, signalled) =>
      At(s, w, Executing) && s.workers[w].id in s.responses && (signalled ==> s.responses[s.workers[w].id].pauseSignal)
    case XTakeUpdates(w) => At(s, w, Executing) && s.workers[w].id in s.responses
      && s.responses[s.workers[w].id].updateSignal
    case XTakeError(w) => At(s, w, Executing) && s.workers[w].id in s.responses
      && s.responses[s.workers[w].id].errSignal.Some?
    case XCancelled(w) => At(s, w, Executing)
    case XEnd(w) => At(s, w, Executing)
    case _ => true
  }

  function Stop(s: State, w: Worker, outcome: Outcome): State
    requires w in s.workers
  {
    s.(workers := s.workers[w := Task(s.workers[w].id, Finishing(outcome))])
  }

  function Next(s: State, step: Step): State
    requires Enabled(s, step)
  {
    match step
    case MNew(id, p) => NewRequest(s, id, p)
    case MAbort(id, err) => AbortRequest(s, id, err)
    case MUpdate(id, u, f, un) => ProcessUpdate(s, id, u, f, un)
    case MPause(id) => PauseRequest(s, id)
    case MUnpause(id) => UnpauseRequest(s, id)
    case MUpdateResponse(id) => UpdateResponse(s, id)
    case MTerminate(id) => TerminateRequest(s, id)
    case MStart(w) => StartTask(s, w)
    case MGetUpdates(w) => GetUpdates(s, w)
    case MFinish(w) => FinishTask(s, w)
    case WPop(w, id) => s.(pending := s.pending - {id}, workers := s.workers[w := Task(id, Popped)])
    // a block of the traversal, with whatever extensions and pause the hooks add
    case XSend(w) => Issue(s, s.workers[w].id, [Link, Other])
    // the current block is still sent when the response pauses
    case XPause(w, signalled) =>
      var id := s.workers[w].id;
      var r := s.responses[id];
      Stop(Issue(SetResponse(s, id, if signalled then r.(pauseSignal := false) else r), id, [Other, Link]), w,
        EndedPaused)
    case XTakeUpdates(w) =>
      var id := s.workers[w].id;
      SetResponse(s, id, s.responses[id].(updateSignal := false)).(workers := s.workers[w := Task(id, AwaitingUpdates)])
    case XTakeError(w) =>
      var id := s.workers[w].id;
      var err, s' := s.responses[id].errSignal.value, SetResponse(s, id, s.responses[id].(errSignal := None));
      if err == CancelledByCommand then Stop(Issue(s', id, [Terminal]), w, EndedWithStatus)
      else Stop(s', w, EndedSilently(err))
    // the traversal ended because its context was cancelled
    case XCancelled(w) => Stop(s, w, EndedSilently(ContextCancelled))
    // the traversal is complete, or failed in any other way
    case XEnd(w) => Stop(Issue(s, s.workers[w].id, [Terminal]), w, EndedWithStatus)
  }

  // ---------------------------------------------------------------- invariants

  /** At most one terminal status, and no link after it. */
  ghost predicate Clean(ops: seq<StreamOp>) {
    forall i, j :: 0 <= i < j < |ops| && ops[i] == Terminal ==> ops[j] == Other
  }

  predicate Open(s: State, id: RequestId) {
    Terminal !in HistoryOf(s, id).ops
  }

  /** What a worker's stage says about its request. */
  ghost predicate StageOK(s: State, id: RequestId, stage: Stage) {
    && id in s.submitted && id !in s.pending
    && match stage
       case Popped => id in s.responses ==> s.responses[id].phase == Queued || s.responses[id].phase == CompletingSend
       case Finishing(EndedWithStatus) => !Open(s, id) && (id in s.responses ==> s.responses[id].phase == Running)
       case _ => Open(s, id) && id in s.responses && s.responses[id].phase == Running
  }

  /** What a response's phase says. */
  ghost predicate PhaseOK(s: State, id: RequestId, r: Response) {
    && id in s.submitted
    && (r.phase == Queued ==> Open(s, id))
    && (r.phase == Paused ==> Open(s, id) && id !in s.pending && Unheld(s, id))
    && (r.phase == Running ==> id !in s.pending && !Unheld(s, id))
    && (r.phase == CompletingSend ==> id !in s.pending)
    && (r.phase == Queued ==> id in s.pending || !Unheld(s, id))
  }

  /** No worker holds a task of the request. */
  ghost predicate Unheld(s: State, id: RequestId) {
    forall w :: w in s.workers ==> s.workers[w].id != id
  }

  /**
    Buffered updates are signalled or being fetched, and every accepted update is buffered or
    handed out, once and in order.
   */
  ghost predicate UpdatesOK(s: State, id: RequestId, r: Response) {
    && (r.updates != [] ==> r.updateSignal || exists w :: w in s.workers && s.workers[w] == Task(id, AwaitingUpdates))
    && HistoryOf(s, id).delivered + r.updates == HistoryOf(s, id).accepted
  }

  ghost predicate RequestOK(s: State, id: RequestId) {
    && Clean(HistoryOf(s, id).ops)
    && (id in s.pending ==> id in s.responses && s.responses[id].phase == Queued && Unheld(s, id))
    && (id in s.responses ==> PhaseOK(s, id, s.responses[id]) && UpdatesOK(s, id, s.responses[id]))
    && (forall w :: w in s.workers && s.workers[w].id == id ==> StageOK(s, id, s.workers[w].stage))
    && (forall w, x :: w in s.workers && x in s.workers && s.workers[w].id == id && s.workers[x].id == id ==> w == x)
    && HistoryOf(s, id).delivered <= HistoryOf(s, id).accepted
    && (id !in s.submitted ==> HistoryOf(s, id) == NO_HISTORY)
  }

  ghost predicate Inv(s: State) {
    forall id :: RequestOK(s, id)
  }

  const START := State(map[], {}, {}, map[], map[])

  lemma StartInv()
    ensures Inv(START)
  {
  }

  /** Nothing about the request is different. */
  ghost predicate SameFor(s: State, t: State, id: RequestId) {
    && (id in s.responses <==> id in t.responses) && (id in s.responses ==> s.responses[id] == t.responses[id])
    && (id in s.submitted <==> id in t.submitted) && (id in s.pending <==> id in t.pending)
    && HistoryOf(s, id) == HistoryOf(t, id)
    && (forall w :: w in s.workers && s.workers[w].id == id ==> w in t.workers && t.workers[w] == s.workers[w])
    && (forall w :: w in t.workers && t.workers[w].id == id ==> w in s.workers && s.workers[w] == t.workers[w])
  }

  lemma {:induction false} SameForKeeps(s: State, t: State, id: RequestId)
    requires RequestOK(s, id) && SameFor(s, t, id)
    ensures RequestOK(t, id)
  {
  }

  lemma {:induction false} IssueClean(s: State, id: RequestId, more: seq<StreamOp>)
    requires Clean(HistoryOf(s, id).ops) && Clean(more)
             && (Open(s, id) || forall i :: 0 <= i < |more| ==> more[i] == Other)
    ensures Clean(HistoryOf(Issue(s, id, more), id).ops)
    ensures Open(Issue(s, id, more), id) <==> Open(s, id) && Terminal !in more
    ensures HistoryOf(Issue(s, id, more), id).accepted == HistoryOf(s, id).accepted
    ensures HistoryOf(Issue(s, id, more), id).delivered == HistoryOf(s, id).delivered
  {
  }

  /** The request that a step is about. */
  function Subject(s: State, step: Step): RequestId
    requires Enabled(s, step)
  {
    match step
    case MNew(id, _) => id
    case MAbort(id, _) => id
    case MUpdate(id, _, _, _) => id
    case MPause(id) => id
    case MUnpause(id) => id
    case MUpdateResponse(id) => id
    case MTerminate(id) => id
    case WPop(_, id) => id
    case MStart(w) => s.workers[w].id
    case MGetUpdates(w) => s.workers[w].id
    case MFinish(w) => s.workers[w].id
    case XSend(w) => s.workers[w].id
    case XPause(w, _) => s.workers[w].id
    case XTakeUpdates(w) => s.workers[w].id
    case XTakeError(w) => s.workers[w].id
    case XCancelled(w) => s.workers[w].id
    case XEnd(w) => s.workers[w].id
  }

  predicate ByWorker(step: Step) {
    step.MStart? || step.MGetUpdates? || step.MFinish? || step.WPop?
  }

  predicate ByExecutor(step: Step) {
    step.XSend? || step.XPause? || step.XTakeUpdates? || step.XTakeError? || step.XCancelled? || step.XEnd?
  }

  lemma {:induction false} OthersUntouchedByMessage(s: State, step: Step, id: RequestId)
    requires Enabled(s, step) && id != Subject(s, step) && !ByWorker(step) && !ByExecutor(step)
    ensures SameFor(s, Next(s, step), id)
  {
    match step {
      case MNew(x, p) => NewTouchesOne(s, x, p, id);
      case MUpdate(x, u, f, un) => UpdateTouchesOne(s, x, u, f, un, id);
      case _ =>
    }
  }

  lemma NewTouchesOne(s: State, x: RequestId, p: Prepared, id: RequestId)
    requires id != x
    ensures SameFor(s, NewRequest(s, x, p), id)
  {
  }

  lemma UpdateTouchesOne(s: State, x: RequestId, u: Update, f: bool, un: bool, id: RequestId)
    requires id != x
    ensures SameFor(s, ProcessUpdate(s, x, u, f, un), id)
  {
  }

  lemma OthersUntouchedByWorker(s: State, step: Step, id: RequestId)
    requires Enabled(s, step) && id != Subject(s, step) && ByWorker(step)
    ensures SameFor(s, Next(s, step), id)
  {
  }

  lemma OthersUntouchedByExecutor(s: State, step: Step, id: RequestId)
    requires Enabled(s, step) && id != Subject(s, step) && ByExecutor(step)
    ensures SameFor(s, Next(s, step), id)
  {
  }

  /** A step changes nothing about any other request. */
  lemma {:induction false} OthersUntouched(s: State, step: Step, id: RequestId)
    requires Enabled(s, step) && id != Subject(s, step)
    ensures SameFor(s, Next(s, step), id)
  {
    if ByWorker(step) {
      OthersUntouchedByWorker(s, step, id);
    } else if ByExecutor(step) {
      OthersUntouchedByExecutor(s, step, id);
    } else {
      OthersUntouchedByMessage(s, step, id);
    }
  }

  lemma {:induction false} NewKeeps(s: State, id: RequestId, p: Prepared)
    requires RequestOK(s, id) && id !in s.submitted
    ensures RequestOK(NewRequest(s, id, p), id)
  {
  }

  lemma {:induction false} AbortKeeps(s: State, id: RequestId, err: Error)
    requires RequestOK(s, id)
    ensures RequestOK(AbortRequest(s, id, err), id)
  {
    if id in s.responses && s.responses[id].phase != CompletingSend && s.responses[id].phase != Running {
      AbortIdleKeeps(s, id, err);
    }
  }

  lemma {:induction false} AbortIdleKeeps(s: State, id: RequestId, err: Error)
    requires RequestOK(s, id) && id in s.responses && s.responses[id].phase != CompletingSend
             && s.responses[id].phase != Running
    ensures RequestOK(AbortRequest(s, id, err), id)
  {
  }

  lemma {:induction false} UnpauseKeeps(s: State, id: RequestId)
    requires RequestOK(s, id)
    ensures RequestOK(UnpauseRequest(s, id), id)
  {
  }

  lemma {:induction false} OtherKeeps(s: State, id: RequestId)
    requires RequestOK(s, id) && id in s.responses
    ensures RequestOK(Issue(s, id, [Other]), id)
  {
  }

  lemma {:induction false} UpdateKeeps(s: State, id: RequestId, u: Update, f: bool, un: bool)
    requires RequestOK(s, id)
    ensures RequestOK(ProcessUpdate(s, id, u, f, un), id)
  {
    if id in s.responses && s.responses[id].phase != CompletingSend {
      if s.responses[id].phase != Paused {
        BufferKeeps(s, id, u);
      } else if f {
        IssueClean(s, id, [Other, Terminal]);
      } else {
        OtherKeeps(s, id);
        UnpauseKeeps(Issue(s, id, [Other]), id);
      }
    }
  }

  lemma {:induction false} BufferKeeps(s: State, id: RequestId, u: Update)
    requires RequestOK(s, id) && id in s.responses && s.responses[id].phase != CompletingSend
             && s.responses[id].phase != Paused
    ensures RequestOK(ProcessUpdate(s, id, u, false, false), id)
  {
  }

  lemma TerminateKeeps(s: State, id: RequestId)
    requires RequestOK(s, id) && !Open(s, id)
    ensures RequestOK(TerminateRequest(s, id), id)
  {
  }

  lemma {:induction false} StartKeeps(s: State, w: Worker)
    requires At(s, w, Popped) && RequestOK(s, s.workers[w].id)
    ensures RequestOK(StartTask(s, w), s.workers[w].id)
  {
    var id, t := s.workers[w].id, StartTask(s, w);
    assert forall x :: x in s.workers && s.workers[x].id == id ==> x == w;
    if id in s.responses && s.responses[id].phase == Queued {
      assert t.workers[w].id == id;
      assert !Unheld(t, id);
    }
  }

  lemma {:induction false} GetUpdatesKeeps(s: State, w: Worker)
    requires At(s, w, AwaitingUpdates) && RequestOK(s, s.workers[w].id)
    ensures RequestOK(GetUpdates(s, w), s.workers[w].id)
  {
    var id, t := s.workers[w].id, GetUpdates(s, w);
    assert forall x :: x in s.workers && s.workers[x].id == id ==> x == w;
    assert t.workers[w].id == id;
  }

  lemma {:induction false} FinishKeeps(s: State, w: Worker)
    requires w in s.workers && s.workers[w].stage.Finishing? && RequestOK(s, s.workers[w].id)
    ensures RequestOK(FinishTask(s, w), s.workers[w].id)
  {
  }

  lemma {:induction false} PopKeeps(s: State, w: Worker, id: RequestId)
    requires id in s.pending && w !in s.workers && RequestOK(s, id)
    ensures RequestOK(s.(pending := s.pending - {id}, workers := s.workers[w := Task(id, Popped)]), id)
  {
    var t := s.(pending := s.pending - {id}, workers := s.workers[w := Task(id, Popped)]);
    assert t.workers[w].id == id;
  }

  /** An executor issues operations and stays, or stops, while its request is open. */
  lemma {:induction false} ExecuteKeeps(s: State, w: Worker, r: Response, ops: seq<StreamOp>, stage: Stage)
    requires At(s, w, Executing) && RequestOK(s, s.workers[w].id)
    requires var id := s.workers[w].id;
             id in s.responses && r.phase == Running && r.updates == s.responses[id].updates
             && (r.updates != [] ==> r.updateSignal || stage == AwaitingUpdates)
    requires Clean(ops) && stage != Popped && (Terminal in ops <==> stage == Finishing(EndedWithStatus))
    ensures var id := s.workers[w].id;
            RequestOK(Issue(SetResponse(s, id, r), id, ops).(workers := s.workers[w := Task(id, stage)]), id)
  {
    var id := s.workers[w].id;
    var t := Issue(SetResponse(s, id, r), id, ops).(workers := s.workers[w := Task(id, stage)]);
    IssueClean(SetResponse(s, id, r), id, ops);
    assert forall x :: x in s.workers && s.workers[x].id == id ==> x == w;
    assert t.workers[w] == Task(id, stage);
    assert HistoryOf(t, id) == HistoryOf(Issue(SetResponse(s, id, r), id, ops), id);
    assert !Unheld(t, id);
  }

  lemma {:induction false} ExecutorKeeps(s: State, step: Step)
    requires Enabled(s, step) && ByExecutor(step)
    requires RequestOK(s, s.workers[step.w].id)
    ensures RequestOK(Next(s, step), s.workers[step.w].id)
  {
    var w := step.w;
    var id := s.workers[w].id;
    assert StageOK(s, id, Executing);
    assert UpdatesOK(s, id, s.responses[id]);
    var r := s.responses[id];
    assert r.updates != [] ==> r.updateSignal by {
      assert forall x :: x in s.workers && s.workers[x].id == id ==> x == w;
    }
    var r', ops, stage := r, [Link, Other], Executing;
    match step {
      case XSend(_) =>
      case XPause(_, signalled) =>
        r', ops, stage := if signalled then r.(pauseSignal := false) else r, [Other, Link], Finishing(EndedPaused);
      case XTakeUpdates(_) => r', ops, stage := r.(updateSignal := false), [], AwaitingUpdates;
      case XTakeError(_) =>
        r' := r.(errSignal := None);
        if r.errSignal.value == CancelledByCommand {
          ops, stage := [Terminal], Finishing(EndedWithStatus);
        } else {
          ops, stage := [], Finishing(EndedSilently(r.errSignal.value));
        }
      case XCancelled(_) => ops, stage := [], Finishing(EndedSilently(ContextCancelled));
      case XEnd(_) => ops, stage := [Terminal], Finishing(EndedWithStatus);
    }
    ExecuteKeeps(s, w, r', ops, stage);
    var t := Issue(SetResponse(s, id, r'), id, ops).(workers := s.workers[w := Task(id, stage)]);
    assert HistoryOf(s, id).ops + [] == HistoryOf(s, id).ops;
    assert SameFor(t, Next(s, step), id);
    SameForKeeps(t, Next(s, step), id);
  }

  lemma {:induction false} SubjectKeeps(s: State, step: Step)
    requires Enabled(s, step) && RequestOK(s, Subject(s, step))
    ensures RequestOK(Next(s, step), Subject(s, step))
  {
    match step {
      case MNew(id, p) => NewKeeps(s, id, p);
      case MAbort(id, err) => AbortKeeps(s, id, err);
      case MUpdate(id, u, f, un) => UpdateKeeps(s, id, u, f, un);
      case MPause(id) =>
      case MUnpause(id) => UnpauseKeeps(s, id);
      case MUpdateResponse(id) =>
        if id in s.responses {
          OtherKeeps(s, id);
        }
      case MTerminate(id) => TerminateKeeps(s, id);
      case MStart(w) => StartKeeps(s, w);
      case MGetUpdates(w) => GetUpdatesKeeps(s, w);
      case MFinish(w) => FinishKeeps(s, w);
      case WPop(w, id) => PopKeeps(s, w, id);
      case _ => ExecutorKeeps(s, step);
    }
  }

  lemma {:induction false} NextKeeps(s: State, step: Step)
    requires Inv(s) && Enabled(s, step)
    ensures Inv(Next(s, step))
  {
    forall id ensures RequestOK(Next(s, step), id) {
      assert RequestOK(s, id);
      if id == Subject(s, step) {
        SubjectKeeps(s, step);
      } else {
        OthersUntouched(s, step, id);
        SameForKeeps(s, Next(s, step), id);
      }
    }
  }

  // -------------------------------------------------------------- main results

  ghost predicate IsRun(states: seq<State>, steps: seq<Step>) {
    && |states| == |steps| + 1 && states[0] == START
    && forall i :: 0 <= i < |steps| ==> Enabled(states[i], steps[i]) && states[i + 1] == Next(states[i], steps[i])
  }

  lemma {:induction false} RunInv(states: seq<State>, steps: seq<Step>)
    requires IsRun(states, steps)
    ensures Inv(states[|steps|])
    decreases |steps|
  {
    if steps == [] {
      StartInv();
    } else {
      var n := |steps| - 1;
      RunInv(states[..|steps|], steps[..n]);
      NextKeeps(states[n], steps[n]);
    }
  }

  predicate RunsNow(t: Task, id: RequestId) {
    t.id == id && (t.stage == Executing || t.stage == AwaitingUpdates)
  }

  /**
    Over every interleaving of manager messages and executor steps: a request's stream
    gets at most one terminal status and no link after it, and at most one executor runs
    it at a time.
   */
  lemma {:induction false} LifecycleIsSafe(states: seq<State>, steps: seq<Step>, id: RequestId)
    requires IsRun(states, steps)
    ensures var s := states[|steps|];
            && Clean(HistoryOf(s, id).ops)
            && (forall w, x :: w in s.workers && x in s.workers ==>
                  RunsNow(s.workers[w], id) && RunsNow(s.workers[x], id) ==> w == x)
            && (forall w :: w in s.workers && RunsNow(s.workers[w], id) ==>
                  Open(s, id) && id in s.responses && s.responses[id].phase == Running)
  {
    RunInv(states, steps);
    assert RequestOK(states[|steps|], id);
  }

  /**
    Updates are not lost while the response lives: buffered ones are signalled or being
    fetched, and what was accepted is what was handed out followed by what is buffered.
   */
  lemma {:induction false} UpdatesAreDelivered(states: seq<State>, steps: seq<Step>, id: RequestId)
    requires IsRun(states, steps)
    ensures var s := states[|steps|];
            && (id in s.responses ==> UpdatesOK(s, id, s.responses[id]))
            && HistoryOf(s, id).delivered <= HistoryOf(s, id).accepted
  {
    RunInv(states, steps);
    assert RequestOK(states[|steps|], id);
  }

  // ------------------------------------------------------------ the manager object

  /**
    The manager's handlers on its own fields.  Each of them is a step of the state machine
    above, so it keeps the invariant of every run.
   */
  class ResponseManager {
    var inProgressResponses: map<RequestId, Response>
    var responseQueue: set<RequestId>
    var workers: map<Worker, Task>
    ghost var submitted: set<RequestId>
    ghost var history: map<RequestId, History>

    ghost function Abs(): State
      reads this
    {
      State(inProgressResponses, submitted, responseQueue, workers, history)
    }

    ghost predicate Valid()
      reads this
    {
      Inv(Abs())
    }

    constructor ()
      ensures Valid() && Abs() == START
    {
      inProgressResponses, responseQueue, workers, submitted, history := map[], {}, map[], {}, map[];
      StartInv();
    }

    ghost method Log(id: RequestId, ops: seq<StreamOp>)
      modifies this`history
      ensures Abs() == Issue(old(Abs()), id, ops)
    {
      history := Issue(Abs(), id, ops).history;
    }

    method Put(id: RequestId, r: Response)
      modifies this`inProgressResponses
      ensures Abs() == SetResponse(old(Abs()), id, r)
    {
      inProgressResponses := inProgressResponses[id := r];
    }

    method Remove(id: RequestId)
      modifies this`inProgressResponses
      ensures Abs() == TerminateRequest(old(Abs()), id)
    {
      inProgressResponses := inProgressResponses - {id};
    }

    /** A refused request is left only to be reported; an accepted one waits for a worker, or to be unpaused. */
    method ProcessNew(id: RequestId, p: Prepared)
      requires Valid() && id !in submitted
      modifies this
      ensures Valid() && Abs() == Next(old(Abs()), MNew(id, p))
      ensures Open(Abs(), id) <==> p != Rejected
      ensures Unheld(Abs(), id) && (id in responseQueue <==> p == Accepted)
    {
      NextKeeps(Abs(), MNew(id, p));
      assert RequestOK(Abs(), id);
      submitted := submitted + {id};
      Log(id, if p == Rejected then [Other, Terminal] else [Other]);
      var r := Response(CompletingSend, [], false, false, None);
      if p == AcceptedPaused {
        r := r.(phase := Paused);
      } else if p == Accepted {
        r := r.(phase := Queued);
        responseQueue := responseQueue + {id};
      }
      Put(id, r);
    }

    /** Afterwards no worker will pick the request up; if one has it, it is told to stop. */
    method Abort(id: RequestId, err: Error) returns (found: bool)
      requires Valid()
      modifies this
      ensures Valid() && Abs() == Next(old(Abs()), MAbort(id, err))
      ensures found == (id in old(inProgressResponses) && old(inProgressResponses)[id].phase != CompletingSend)
      ensures id !in responseQueue
      ensures found && id in inProgressResponses && inProgressResponses[id].phase != CompletingSend ==>
                !Unheld(Abs(), id) && inProgressResponses[id].errSignal.Some?
    {
      NextKeeps(Abs(), MAbort(id, err));
      assert RequestOK(Abs(), id);
      if id in inProgressResponses {
        responseQueue := responseQueue - {id};
      }
      if id !in inProgressResponses || inProgressResponses[id].phase == CompletingSend {
        return false;
      }
      var r := inProgressResponses[id];
      if r.phase != Running {
        if err != CancelledByCommand {
          Remove(id);
        } else {
          Put(id, r.(phase := CompletingSend));
          Log(id, [Terminal]);
        }
        return true;
      }
      if r.errSignal.None? {
        Put(id, r.(errSignal := Some(err)));
      } else {
        Put(id, r);
      }
      return true;
    }

    /** Nothing more is issued for a request that is forgotten once its terminal status is out. */
    method Terminate(id: RequestId)
      requires Valid() && !Open(Abs(), id)
      modifies this`inProgressResponses
      ensures Valid() && Abs() == Next(old(Abs()), MTerminate(id))
      ensures id !in responseQueue
      ensures forall w :: w in workers && workers[w].id == id ==> !RunsNow(workers[w], id)
    {
      NextKeeps(Abs(), MTerminate(id));
      Remove(id);
      assert RequestOK(Abs(), id);
    }

    /** Only a paused response is queued again, and no worker has it. */
    method Unpause(id: RequestId) returns (ok: bool)
      requires Valid()
      modifies this
      ensures Valid() && Abs() == Next(old(Abs()), MUnpause(id))
      ensures ok == (id in old(inProgressResponses) && old(inProgressResponses)[id].phase == Paused)
      ensures ok ==> id in responseQueue && Unheld(Abs(), id) && Open(Abs(), id)
    {
      NextKeeps(Abs(), MUnpause(id));
      ok := Requeue(id);
      assert RequestOK(Abs(), id);
    }

    method Requeue(id: RequestId) returns (ok: bool)
      modifies this
      ensures Abs() == UnpauseRequest(old(Abs()), id)
      ensures ok == (id in old(inProgressResponses) && old(inProgressResponses)[id].phase == Paused)
    {
      if id !in inProgressResponses || inProgressResponses[id].phase != Paused {
        return false;
      }
      Put(id, inProgressResponses[id].(phase := Queued));
      Log(id, [Other]);
      responseQueue := responseQueue + {id};
      return true;
    }

    /** Accepted exactly for a response that is queued or running, which then has the signal. */
    method Pause(id: RequestId) returns (ok: bool)
      requires Valid()
      modifies this
      ensures Valid() && Abs() == Next(old(Abs()), MPause(id))
      ensures ok == (id in inProgressResponses
                      && (inProgressResponses[id].phase == Queued || inProgressResponses[id].phase == Running))
      ensures ok ==> inProgressResponses[id].pauseSignal && (id in responseQueue || !Unheld(Abs(), id))
    {
      NextKeeps(Abs(), MPause(id));
      assert RequestOK(Abs(), id);
      if id !in inProgressResponses || inProgressResponses[id].phase == CompletingSend {
        return false;
      }
      if inProgressResponses[id].phase == Paused {
        return false;
      }
      Put(id, inProgressResponses[id].(pauseSignal := true));
      return true;
    }

    /** An update for a queued or running response is accepted, and a worker will fetch it. */
    method OnUpdate(id: RequestId, u: Update, hookFails: bool, hookUnpauses: bool)
      requires Valid()
      modifies this
      ensures Valid() && Abs() == Next(old(Abs()), MUpdate(id, u, hookFails, hookUnpauses))
      ensures id in old(inProgressResponses)
              && (old(inProgressResponses)[id].phase == Queued || old(inProgressResponses)[id].phase == Running) ==>
                && HistoryOf(Abs(), id).accepted == old(HistoryOf(Abs(), id).accepted) + [u]
                && id in inProgressResponses && UpdatesOK(Abs(), id, inProgressResponses[id])
                && (id in responseQueue || !Unheld(Abs(), id))
    {
      NextKeeps(Abs(), MUpdate(id, u, hookFails, hookUnpauses));
      assert RequestOK(Abs(), id);
      HandleUpdate(id, u, hookFails, hookUnpauses);
      assert RequestOK(Abs(), id);
    }

    method HandleUpdate(id: RequestId, u: Update, hookFails: bool, hookUnpauses: bool)
      modifies this
      ensures Abs() == ProcessUpdate(old(Abs()), id, u, hookFails, hookUnpauses)
    {
      if id !in inProgressResponses || inProgressResponses[id].phase == CompletingSend {
        return;
      }
      var r := inProgressResponses[id];
      if r.phase != Paused {
        Put(id, r.(updates := r.updates + [u], updateSignal := true));
        history := history[id := HistoryOf(Abs(), id).(accepted := HistoryOf(Abs(), id).accepted + [u])];
        return;
      }
      if hookFails {
        Put(id, r.(phase := CompletingSend));
        Log(id, [Other, Terminal]);
        return;
      }
      Log(id, [Other]);
      if hookUnpauses {
        var _ := Requeue(id);
      }
    }

    /** A worker that is given the request is the only one that has it, and the request is open. */
    method Start(w: Worker) returns (empty: bool)
      requires Valid() && At(Abs(), w, Popped)
      modifies this
      ensures Valid() && Abs() == Next(old(Abs()), MStart(w))
      ensures empty == !(w in workers)
      ensures !empty ==> Open(Abs(), workers[w].id)
                         && forall x :: x in workers && workers[x].id == workers[w].id ==> x == w
    {
      NextKeeps(Abs(), MStart(w));
      var id := workers[w].id;
      if id !in inProgressResponses || inProgressResponses[id].phase == CompletingSend {
        workers := workers - {w};
        return true;
      }
      Put(id, inProgressResponses[id].(phase := Running));
      workers := workers[w := Task(id, Executing)];
      assert RequestOK(Abs(), id);
      return false;
    }

    /** The worker gets every update that was accepted and not handed out before. */
    method FetchUpdates(w: Worker) returns (updates: seq<Update>)
      requires Valid() && At(Abs(), w, AwaitingUpdates)
      modifies this
      ensures Valid() && Abs() == Next(old(Abs()), MGetUpdates(w))
      ensures var h := HistoryOf(Abs(), workers[w].id);
              h.delivered == old(HistoryOf(Abs(), workers[w].id).delivered) + updates == h.accepted
    {
      NextKeeps(Abs(), MGetUpdates(w));
      var id := workers[w].id;
      assert RequestOK(Abs(), id) && StageOK(Abs(), id, AwaitingUpdates);
      workers := workers[w := Task(id, Executing)];
      if id !in inProgressResponses {
        return [];
      }
      updates := inProgressResponses[id].updates;
      history := history[id := HistoryOf(Abs(), id).(delivered := HistoryOf(Abs(), id).delivered + updates)];
      Put(id, inProgressResponses[id].(updates := []));
    }

    /** No worker has the request any more, and it runs again only by being queued again. */
    method Finish(w: Worker)
      requires Valid() && w in workers && workers[w].stage.Finishing?
      modifies this
      ensures Valid() && Abs() == Next(old(Abs()), MFinish(w))
      ensures var id := old(workers)[w].id;
              && Unheld(Abs(), id) && id !in responseQueue
              && (id in inProgressResponses ==>
                    inProgressResponses[id].phase == Paused || inProgressResponses[id].phase == CompletingSend)
    {
      NextKeeps(Abs(), MFinish(w));
      var id, outcome := workers[w].id, workers[w].stage.outcome;
      assert RequestOK(Abs(), id);
      workers := workers - {w};
      if id !in inProgressResponses {
        return;
      }
      match outcome {
        case EndedPaused => Put(id, inProgressResponses[id].(phase := Paused));
        case EndedSilently(_) => Remove(id);
        case EndedWithStatus => Put(id, inProgressResponses[id].(phase := CompletingSend));
      }
    }
  }
}
