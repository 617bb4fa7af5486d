/** The task runtime of one managed run, as the closures of `runEffectfulManaged` perform it:
    completing, cancelling and settling tasks, which call one another recursively. */
module TaskRuntime {
  import opened Options
  import opened TaskModel
  import opened TaskHearing
  import opened TaskLemmas
  import opened TaskProgress
  import opened TaskRevision
  import opened TaskSteps
  import opened TaskRest
  import opened TaskLoop
  import opened Capabilities

  datatype Continuation = Resume | Tail | End

  /** What a handler finally answers. */
  datatype Answer = Malformed | Rejected | Continue(kind: Continuation)

  /** What a handler returns at once. */
  datatype Reply = NoHandler | Threw | Junk | Pending | Now(kind: Continuation)

  datatype Effect = Wait(token: Token) | Yield | FailureMessage(token: Token) | Handled(reply: Reply)

  /** What the guest does when its task is run: it traps, returns, breaks off after having
      performed a request, or performs an effect request that is or is not a tail call. */
  datatype GuestStep = Crashed | Returned(raw: Raw) | Broke(request: Request) | Performed(request: Request, tail: bool, effect: Effect)

  datatype StepResult = Next | Sleeping | Finished(outcome: Outcome)
  datatype Observation = Refused(reason: Reason) | Answered(outcome: Outcome) | Later

  /** What the history of a run remembers, as the fields of the same names in `RunState`. */
  datatype Past = Past(
    resumed: seq<Resumption>,
    deliveries: seq<Token>,
    unhandled: seq<TaskId>,
    asked: map<Request, Asking>,
    firsts: map<TaskId, Outcome>,
    given: map<Token, Outcome>,
    watched: set<Token>,
    cut: set<TaskId>)

  /** The request that a guest step performs. */
  function Requested(g: GuestStep): set<Request> {
    match g
    case Broke(r) => {r}
    case Performed(r, _, _) => {r}
    case _ => {}
  }

  /** Requests are new objects: a guest step never performs one that was performed before. */
  predicate FreshStep(g: GuestStep, issued: set<Request>) {
    Requested(g) !! issued
  }

  /** A tail request is answered by `tail`, and any other request is not. */
  predicate Acceptable(tail: bool, kind: Continuation) {
    tail <==> kind == Tail
  }

  function Error(reason: Reason): Outcome { Failed(Failure(reason, false)) }

  class Run {
    // What guest code and the host do is outside the runtime: whether the guest traps when a
    // request is resumed, whether a task's callback scopes fail to close, and whether an
    // outcome can be decoded. Each request is resumed at most once and each task ends at most
    // once by completion, so fixing the answers in advance loses no behaviour.
    const resumeTraps: Request -> bool
    const scopesFail: TaskId -> bool
    const unreadable: Raw -> bool

    var nextTaskId: nat
    var tasks: map<TaskId, Task>
    var tokens: map<Token, TaskId>
    var readyQueue: seq<TaskId>
    var asleep: bool
    var hooked: bool
    var frames: map<Request, TaskId>
    var observers: set<Token>
    var completed: map<Token, Outcome>
    var handlers: map<Request, TaskId>
    var publicOutcome: Option<Outcome>
    var finalOutcome: Option<Outcome>
    var closed: bool
    ghost var running: Option<TaskId>
    ghost var hostSettled: bool
    ghost var issued: set<Request>
    ghost var minted: map<Token, TaskId>
    ghost var past: Past

    /** A run starts with its root task in the queue. */
    constructor (resumeTraps: Request -> bool, scopesFail: TaskId -> bool, unreadable: Raw -> bool)
      ensures Snap() == Initial(resumeTraps) && Resting(Snap())
      ensures tasks == map[1 := Task(0, false, None, false, Ready, Starter, None, None, [], [], Unblocked)] && readyQueue == [1] && nextTaskId == 2
      ensures this.resumeTraps == resumeTraps && this.scopesFail == scopesFail && this.unreadable == unreadable
    {
      this.resumeTraps, this.scopesFail, this.unreadable := resumeTraps, scopesFail, unreadable;
      nextTaskId, tasks, tokens, readyQueue := ROOT + 1, map[ROOT := InitialTask()], map[], [ROOT];
      asleep, hooked, frames, observers, completed, handlers := false, false, map[], {}, map[], map[];
      publicOutcome, finalOutcome, closed := None, None, false;
      running, hostSettled, issued, minted := None, false, {}, map[];
      past := Past([], [], [], map[], map[], map[], {}, {});
      new;
      InitialRests(resumeTraps);
    }

    ghost function Snap(): RunState
      reads this
    {
      RunState(nextTaskId, tasks, tokens, readyQueue, asleep, hooked, frames, observers, completed, handlers,
               publicOutcome, finalOutcome, closed,
               running, hostSettled, issued, minted, past.resumed, past.deliveries, past.unhandled,
               past.asked, past.firsts, past.given, past.watched, past.cut, resumeTraps)
    }

    // ------------------------------------------------------------ field updates

    method SetDone(id: TaskId, o: Outcome)
      requires id in tasks
      modifies this
      ensures Snap() == MarkDone(old(Snap()), id, o)
    {
      tasks := tasks[id := tasks[id].(phase := Done, work := Idle, pendingCompletion := None,
                                      terminal := Some(Terminal(o, false)), blocker := Unblocked)];
      if id !in past.firsts { past := past.(firsts := past.firsts[id := o]); }
      if running == Some(id) { running := None; }
    }

    method SetCompleting(id: TaskId, o: Outcome)
      requires id in tasks
      modifies this
      ensures Snap() == MarkCompleting(old(Snap()), id, o)
    {
      tasks := tasks[id := tasks[id].(phase := Completing, work := Idle, pendingCompletion := Some(o), blocker := Unblocked)];
      if running == Some(id) { running := None; }
    }

    /** Resumes the guest for request `r` of task `w`. A request without a frame is refused. */
    method ResumeTask(w: TaskId, r: Request, p: Payload) returns (ok: bool)
      requires w in tasks
      modifies this
      ensures r !in old(frames) ==> !ok && Snap() == old(Snap())
      ensures r in old(frames) ==> ok == !resumeTraps(r) && Snap() == Spend(old(Snap()), w, r, p)
    {
      if r !in frames { return false; }
      frames := frames - {r};
      past := past.(resumed := past.resumed + [Resumption(w, r, p, tasks[w].phase != Done)]);
      if tasks[w].phase == Waiting {
        tasks := tasks[w := tasks[w].(blocker := InHand)];
      } else if tasks[w].work == ResumeWith(r) {
        tasks := tasks[w := tasks[w].(work := Idle)];
      }
      return !resumeTraps(r);
    }

    method Enqueue(w: TaskId, work: Work)
      requires w in tasks
      modifies this
      ensures Snap() == MakeReady(old(Snap()), w, work)
    {
      tasks := tasks[w := tasks[w].(phase := Ready, work := work, blocker := Unblocked)];
      readyQueue := readyQueue + [w];
      if running == Some(w) { running := None; }
    }

    method SetObserved(t: TaskId)
      requires t in tasks && tasks[t].terminal.Some?
      modifies this
      ensures Snap() == MarkObserved(old(Snap()), t)
    {
      tasks := tasks[t := tasks[t].(terminal := Some(tasks[t].terminal.value.(observed := true)))];
    }

    method DropWaiters(t: TaskId)
      requires t in tasks
      modifies this
      ensures Snap() == ClearWaiters(old(Snap()), t)
    {
      tasks := tasks[t := tasks[t].(waiters := [])];
    }

    method StoreOutcome(t: TaskId)
      requires t in tasks && tasks[t].terminal.Some?
      modifies this
      ensures Snap() == Store(old(Snap()), t)
    {
      if tasks[t].detached && tasks[t].capability != 0 {
        completed := completed[tasks[t].capability := tasks[t].terminal.value.outcome];
      }
    }

    method ForgetCapability(cap: Token)
      modifies this
      ensures Snap() == Forget(old(Snap()), cap)
    {
      completed := completed - {cap};
      tokens := tokens - {cap};
    }

    method DeliverMessage(cap: Token, o: Outcome)
      requires cap !in observers
      modifies this
      ensures Snap() == Deliver(old(Snap()), cap, o)
    {
      completed := completed - {cap};
      tokens := tokens - {cap};
      past := past.(deliveries := past.deliveries + [cap], given := past.given[cap := o]);
    }

    method DeliverCapability(cap: Token, o: Outcome)
      modifies this
      ensures Snap() == Deliver(old(Snap()), cap, o)
    {
      observers := observers - {cap};
      DeliverMessage(cap, o);
    }

    method Report(t: TaskId)
      requires t in tasks && tasks[t].terminal.Some?
      modifies this
      ensures Snap() == ReportUnhandled(old(Snap()), t)
    {
      var term := tasks[t].terminal.value;
      if tasks[t].detached && term.outcome.Failed? && !term.observed {
        past := past.(unhandled := past.unhandled + [t]);
      }
    }

    /** Drops every request frame that belongs to task `t`. */
    method DropTaskFrames(t: TaskId)
      modifies this
      ensures Snap() == DropFrames(old(Snap()), t)
    {
      frames := map r | r in frames && frames[r] != t :: frames[r];
    }

    method Wake()
      modifies this
      ensures Snap() == old(Snap()).(asleep := false)
    {
      asleep := false;
    }

    // ------------------------------------------------------------ settling the run

    /** Walks the owner chain of `t` upwards. */
    method HasDetachedAncestor(t: TaskId) returns (b: bool)
      requires Tree(Snap()) && t in tasks
      ensures b == Snap().Sheltered(t) && (b <==> UnderDetached(Snap(), t))
    {
      ShelteredIff(Snap(), t);
      var cur := t;
      assert OwnerOk(Snap(), cur);
      while tasks[cur].owner.Some?
        invariant cur in tasks && OwnerOk(Snap(), cur)
        invariant Snap().Sheltered(t) == Snap().Sheltered(cur)
        decreases cur
      {
        var owner := tasks[cur].owner.value;
        assert OwnerOk(Snap(), owner);
        if tasks[owner].detached { return true; }
        cur := owner;
      }
      return false;
    }

    method AnyBlocking() returns (b: bool)
      requires Tree(Snap())
      ensures b <==> !NothingBlocking(Snap())
    {
      var t := 1;
      while t < nextTaskId
        invariant 1 <= t <= nextTaskId
        invariant forall u :: 1 <= u < t ==> !Snap().Blocking(u)
      {
        if tasks[t].phase != Done && !tasks[t].detached {
          var sheltered := HasDetachedAncestor(t);
          if !sheltered {
            assert Snap().Blocking(t);
            return true;
          }
        }
        t := t + 1;
      }
      return false;
    }

    method AnyLive() returns (b: bool)
      requires Tree(Snap())
      ensures b <==> !AllDone(Snap())
    {
      var t := 1;
      while t < nextTaskId
        invariant 1 <= t <= nextTaskId
        invariant forall u :: 1 <= u < t ==> Snap().IsDone(u)
      {
        if tasks[t].phase != Done {
          assert !Snap().IsDone(t);
          return true;
        }
        t := t + 1;
      }
      return false;
    }

    method FinalizeIfDone()
      requires Inv(Snap())
      modifies this
      ensures Snap() == Finalized(old(Snap()))
    {
      if tasks[ROOT].terminal.None? { return; }
      ghost var s := Snap();
      assert PhaseOk(s, ROOT);
      var blocking := AnyBlocking();
      var live := AnyLive();
      ReportOutcomes(blocking, live);
    }

    method ReportOutcomes(blocking: bool, live: bool)
      requires Tree(Snap()) && RootEnded(Snap()) && (blocking <==> !NothingBlocking(Snap())) && (live <==> !AllDone(Snap()))
      modifies this
      ensures Snap() == Finalized(old(Snap()))
    {
      hide Tree, NothingBlocking, AllDone;
      if !blocking && publicOutcome.None? {
        publicOutcome := Some(tasks[ROOT].terminal.value.outcome);
      }
      if live || publicOutcome.None? { return; }
      finalOutcome := publicOutcome;
    }

    // ------------------------------------------------------------ completing and cancelling

    method NotifyTaskTerminal(id: TaskId, ghost s0: RunState, ghost k: set<TaskId>, ghost x: set<TaskId>)
      requires Inv(Snap()) && s0.Live(id) && Snap().IsDone(id) && tasks[id].terminal.Some? && tasks[id].waiters == []
      requires Progress(s0, Snap(), k, {id}, x) && FreshEnd(Snap(), id)
      modifies this
      ensures Inv(Snap()) && Progress(s0, Snap(), k, {id}, x)
      ensures Notified(old(Snap()), Snap(), id)
    {
      hide Tree, Phases, Subtrees, Queue, Waits, Requests, Consumers, Failures, Settled, Answers, Askings, Gifts, Progress;
      hide Store, Forget, Deliver, MarkObserved, Notified, MayDeliver, Noticed;
      ghost var s1 := Snap();
      At(s1, id);
      StoredSame(s1, id);
      var cap := tasks[id].capability;
      StoreOutcome(id);
      ghost var s2 := Snap();
      StoreStep(s0, s1, id, k, x);
      if cap !in observers {
        NotifiedStored(s1, id);
        assert tasks == s1.tasks;
        if tasks[id].claimed && tasks[id].terminal.value.outcome.Cancelled? {
          ForgetCapability(cap);
          ForgetStep(s0, s2, cap, id, k, x);
        }
        return;
      }
      ObserverGets(s2, id);
      DeliverCapability(cap, tasks[id].terminal.value.outcome);
      ghost var s3 := Snap();
      DeliverStep(s0, s2, cap, s1.tasks[id].terminal.value.outcome, id, k, x);
      DeliveredNotice(s2, id, s1.tasks[id].terminal.value.outcome);
      SetObserved(id);
      MarkObservedKeeps(s3, id);
      ObservedProgress(s0, s3, id, k, {id}, x);
      NotifiedDelivered(s1, id);
    }

    /** Empties the waiter list of `id`, whose waiter has been served, and announces its end. */
    method AnnounceEnd(id: TaskId, ghost outcome: Outcome, ghost s0: RunState, ghost s1: RunState, ghost k: set<TaskId>, ghost x: set<TaskId>)
      requires Inv(Snap()) && s0.Live(id) && EndsWith(Snap(), id, outcome) && Progress(s0, Snap(), k, {id}, x)
      requires id in s1.tasks && tasks[id].waiters == s1.tasks[id].waiters && |s1.tasks[id].waiters| <= 1
      requires s1.tasks[id].waiters != [] ==> Served(s1, Snap(), id, s1.tasks[id].waiters[0], outcome)
      requires s1.tasks[id].capability == tasks[id].capability && FreshEnd(Snap(), id)
      requires s1.tasks[id].capability in s1.observers ==> tasks[id].capability in observers
      requires s1.tasks[id].waiters != [] && !outcome.Cancelled? ==> tasks[id].terminal.Some? && tasks[id].terminal.value.observed
      modifies this
      ensures Inv(Snap()) && Progress(s0, Snap(), k, {id}, x) && Announced(Snap(), id, outcome)
      ensures Told(s1, Snap(), id, outcome) && NoNewLost(old(Snap()), Snap())
      ensures tasks.Keys == old(tasks).Keys && tasks[id].owner == old(tasks)[id].owner
      ensures Snap().LiveSet() == old(Snap()).LiveSet() && nextTaskId == old(nextTaskId)
      ensures hooked == old(hooked)
      ensures forall t :: t in tasks && t != id ==> tasks[t] == old(tasks)[t]
      ensures frames == old(frames) && past.resumed == old(past.resumed) && OtherTokens(old(Snap()), Snap(), old(tasks)[id].capability)
      ensures Smooth(old(Snap()), Snap(), {}, {})
    {
      hide Tree, Phases, Subtrees, Queue, Waits, Requests, Consumers, Failures, Settled, Answers, Askings, Gifts, Progress;
      hide Notified, Served, AllServed, Told, Lost, After, TasksCascade, Smooth, NothingEnds;
      ghost var s2 := Snap();
      ServedOne(s1, s2, id, outcome);
      DropWaiters(id);
      ghost var s3 := Snap();
      ClearStep(s0, s2, id, k, x);
      ClearedForm(s2, id);
      ClearedLost(s2, id);
      AllServedLater(s1, s2, s3, id, outcome);
      ClearedEnds(s2, id);
      Smoothly(s2, s3);
      if tasks[id].capability in observers { ObserverGets(s3, id); }
      NotifyTaskTerminal(id, s0, k, x);
      NotifiedEnds(s3, Snap(), id);
      SmoothTail(s2, s3, Snap(), {}, {});
      NotifiedAfter(s3, Snap(), id);
      EndRecorded(Snap(), id);
      NotifiedLost(s3, Snap(), id);
      AnnouncedNow(s3, Snap(), id, outcome);
      AllServedLater(s1, s3, Snap(), id, outcome);
      ToldNow(s1, s3, Snap(), id, outcome);
    }

    function TerminalFor(id: TaskId, completion: Outcome, unobserved: Option<Failure>): Outcome {
      match completion
      case Value(raw) =>
        if unobserved.Some? then Failed(Failure(unobserved.value.reason, true))
        else if scopesFail(id) then Failed(Failure(ScopeCleanup, false))
        else if unreadable(raw) then Failed(Failure(UnreadableOutcome, false))
        else completion
      case _ => completion
    }

    /** Task `id`, which returned `raw`, has ended as its children, its scopes and `raw` have it. */
    ghost predicate ConcludedWith(s: RunState, s': RunState, id: TaskId, raw: Raw) {
      && id in s.tasks && s'.IsDone(id) && s'.tasks[id].terminal.Some?
      && Concludes(s, id, raw, scopesFail(id), unreadable(raw), s'.tasks[id].terminal.value.outcome)
    }

    lemma TerminalConcludes(s: RunState, s': RunState, id: TaskId, raw: Raw)
      requires id in s.tasks && EndsWith(s', id, TerminalFor(id, Value(raw), FirstUnobservedFailure(s.tasks, s.tasks[id].children)))
      ensures ConcludedWith(s, s', id, raw)
    {
      var i := SearchMeaning(s, id);
      hide FirstUnobservedFailure, FailedChild;
      forall j: nat | FailedChild(s, id, j) && (forall l: nat :: l < j ==> !FailedChild(s, id, l)) && FailedChild(s, id, i) ensures j == i {
        assert j >= i && i >= j;
      }
    }

    /** Resumes waiter `w` of task `id`, which has just ended with `outcome`; a waiter that traps fails. */
    method WakeOne(id: TaskId, w: Waiter, outcome: Outcome,
                   ghost s0: RunState, ghost s1: RunState, ghost k: set<TaskId>, ghost x: set<TaskId>)
      requires Inv(s1) && s1.Live(id) && w in s1.tasks[id].waiters && Snap() == MarkDone(s1, id, outcome)
      requires Inv(Snap()) && hooked && EndsWith(Snap(), id, outcome) && !outcome.Cancelled?
      requires Progress(s0, Snap(), k, {id}, x) && s0.Live(id)
      modifies this
      ensures Inv(Snap()) && hooked && Progress(s0, Snap(), k, {id}, x)
      ensures EndsWith(Snap(), id, outcome) && id in tasks && tasks[id].waiters == old(tasks)[id].waiters && tasks[id].owner == old(tasks)[id].owner
      ensures tasks[id].capability == old(tasks)[id].capability
      ensures Served(s1, Snap(), id, w, outcome)
      ensures LogsCascade(old(Snap()), Snap()) && NoNewLost(old(Snap()), Snap())
      ensures tasks[id].terminal.Some? && tasks[id].terminal.value.observed
      ensures Smooth(old(Snap()), Snap(), {}, {})
      ensures Snap().LiveSet() <= old(Snap()).LiveSet() && nextTaskId == old(nextTaskId)
      decreases Snap().LiveSet(), nextTaskId + 1, 0
    {
      hide Tree, Phases, Subtrees, Queue, Waits, Requests, Consumers, Failures, Settled, Answers, Askings, Gifts, Progress;
      hide Inv, OwnerOk, PhaseOk, BlockerOk, ConsumerOk, Quiet, MayQueue, Cascade, Served, MarkDone, MarkObserved, Spend, MakeReady, AboutToWake;
      hide MayComplete, NoLiveChild, FirstUnobservedFailure, Told, RunState.LiveSet, EndsWith, Lost, LogsCascade, Smooth, Noticed, NothingEnds;
      PrepareWake(s0, s1, id, outcome, w, k, x);
      EndedTask(s1, id, outcome);
      ghost var s2 := Snap();
      SetObserved(id);
      ghost var s3 := Snap();
      ObservedLost(s2, id);
      ObservedEnds(s2, id);
      ObservedAt(s2, id);
      WakesOne(s0, s1, s3, id, w, k, x);
      var ok := ResumeTask(w.task, w.request, Status(WaitStatus(outcome)));
      ghost var s4 := Snap();
      Woken(s0, s1, s3, s4, id, w, outcome, k, x);
      SmoothHead(s2, s3, s4, {}, {});
      if ok && tasks[w.task].phase != Done {
        Enqueue(w.task, RawOutcome);
        ReadyWake(s0, s4, w.task, k, {id}, x);
        ReadyEnds(s4, w.task, RawOutcome);
        Smoothly(s4, Snap());
        WakeQueued(s0, s1, s3, id, w, outcome, k, x);
      } else {
        FailWaiter(ok, id, w, outcome, s0, s1, s3, k, x);
      }
      SmoothTrans(s2, s4, Snap(), {}, {});
      CascadeTrans(s3, s4, Snap());
      CascadeLive(s3, Snap());
      SameIds(s3, Snap());
      EndsStays(s3, Snap(), id, outcome);
      CascadeLogs(s3, Snap());
      LogsTrans(s2, s3, Snap());
    }

    /** The rest of waking waiter `w`, when it trapped or had ended before. */
    method FailWaiter(ok: bool, id: TaskId, w: Waiter, ghost outcome: Outcome,
                      ghost s0: RunState, ghost s1: RunState, ghost s3: RunState, ghost k: set<TaskId>, ghost x: set<TaskId>)
      requires AboutToWake(s0, s1, s3, id, w, k, x) && Inv(Snap()) && hooked && w.task in tasks && !outcome.Cancelled?
      requires Snap() == if w.request in s3.frames then Spend(s3, w.task, w.request, Status(WaitStatus(outcome))) else s3
      requires ok == (w.request in s3.frames && !resumeTraps(w.request)) && (ok ==> tasks[w.task].phase == Done)
      requires Progress(s0, Snap(), k, {id}, x) && MayComplete(Snap(), w.task) && Cascade(s3, Snap())
      requires Snap().Live(w.task) ==> s3.Live(w.task) && s0.Live(w.task) && !Quiet(s0.tasks[w.task]) && !AlreadyEnding(Snap(), w.task)
      requires !Snap().Live(w.task) ==> AlreadyEnding(Snap(), w.task) && !s3.Live(w.task)
      modifies this
      ensures Inv(Snap()) && hooked && Progress(s0, Snap(), k, {id}, x) && Cascade(old(Snap()), Snap())
      ensures Served(s1, Snap(), id, w, outcome) && NoNewLost(s3, Snap()) && Smooth(old(Snap()), Snap(), {}, {})
      decreases Snap().LiveSet(), nextTaskId, 4
    {
      hide Tree, Phases, Subtrees, Queue, Waits, Requests, Consumers, Failures, Settled, Answers, Askings, Gifts, Progress;
      hide Inv, Quiet, Cascade, Served, Spend, AboutToWake, MayComplete, AlreadyEnding, NoLiveChild, FirstUnobservedFailure, Told, RunState.LiveSet, Lost, DropFrames, Smooth, NothingEnds, CutGoesOn;
      ghost var s4 := Snap();
      WakesOne(s0, s1, s3, id, w, k, x);
      if ok {
        CascadeRefl(s4);
        SmoothRefl(s4, {}, {});
      } else {
        WaiterKnown(s4, w.task);
        CompleteTask(w.task, Failed(Failure(Trapped, false)));
        ProgressFinishing(s0, s4, Snap(), k, {id}, x, w.task);
        ProgressCascade(s4, Snap(), {}, {}, {w.task});
        SameIds(s4, Snap());
        DroppedFrames(s4, w.task);
        SmoothFailure(s3, s4, Snap(), w, Status(WaitStatus(outcome)));
      }
      WakeStayedLive(s3, s4, Snap(), w.task);
      WakeEnded(s0, s1, s3, s4, Snap(), id, w, outcome, k, x);
    }

    /** Resumes the waiter of task `id`, if it has one; a task that had ended before has none. */
    method ServeWaiters(id: TaskId, outcome: Outcome, ghost s0: RunState, ghost s1: RunState, ghost k: set<TaskId>, ghost x: set<TaskId>)
      requires Inv(s1) && id in s1.tasks && |s1.tasks[id].waiters| <= 1 && (s1.IsDone(id) ==> Unheard(s1, id))
      requires Snap() == MarkDone(s1, id, outcome) && Inv(Snap()) && hooked && Progress(s0, Snap(), k, {id}, x) && s0.Live(id) && !outcome.Cancelled?
      modifies this
      ensures Inv(Snap()) && hooked && Progress(s0, Snap(), k, {id}, x) && EndsWith(Snap(), id, outcome)
      ensures tasks[id].waiters == s1.tasks[id].waiters && tasks[id].owner == s1.tasks[id].owner && tasks[id].capability == s1.tasks[id].capability
      ensures s1.tasks[id].waiters == [] ==> Snap() == old(Snap())
      ensures s1.tasks[id].waiters != [] ==> Served(s1, Snap(), id, s1.tasks[id].waiters[0], outcome)
      ensures s1.tasks[id].waiters != [] ==> tasks[id].terminal.Some? && tasks[id].terminal.value.observed
      ensures LogsCascade(s1, Snap()) && NoNewLost(s1, Snap()) && Smooth(old(Snap()), Snap(), {}, {})
      ensures Snap().LiveSet() <= old(Snap()).LiveSet() && nextTaskId == old(nextTaskId)
      decreases Snap().LiveSet(), if id in tasks && tasks[id].waiters != [] then nextTaskId + 1 else 0, 1
    {
      hide Tree, Phases, Subtrees, Queue, Waits, Requests, Consumers, Failures, Settled, Answers, Askings, Gifts, Progress;
      hide Inv, MarkDone, Served, EndsWith, RunState.LiveSet, Lost, LogsCascade, Smooth;
      ghost var s2 := Snap();
      SmoothRefl(s2, {}, {});
      EndedTask(s1, id, outcome);
      EndedLost(s1, id, outcome);
      AloneEnds(s1, id, outcome);
      LogsRefl(s2);
      var waiters := tasks[id].waiters;
      var i := 0;
      while i < |waiters|
        invariant i <= |waiters| <= 1
        invariant Inv(Snap()) && Progress(s0, Snap(), k, {id}, x) && hooked
        invariant EndsWith(Snap(), id, outcome) && id in tasks && tasks[id].waiters == waiters
        invariant i == 0 ==> Snap() == s2
        invariant i > 0 ==> Served(s1, Snap(), id, waiters[0], outcome)
        invariant i > 0 ==> tasks[id].terminal.Some? && tasks[id].terminal.value.observed
        invariant Smooth(s2, Snap(), {}, {})
        invariant Snap().LiveSet() <= s2.LiveSet() && nextTaskId == s1.nextTaskId
        invariant tasks[id].owner == s1.tasks[id].owner && tasks[id].capability == s1.tasks[id].capability
        invariant LogsCascade(s2, Snap()) && NoNewLost(s2, Snap())
      {
        WakeOne(id, waiters[i], outcome, s0, s1, k, x);
        i := i + 1;
      }
      LogsTrans(s1, s2, Snap());
    }

    /** The part that completing a task and completing an owner share: the task ends with
        `outcome`, its waiter is resumed, its end is announced, and its owner may follow.
        `s0` is the state in which the caller started; the task was live then. */
    method Settle(id: TaskId, outcome: Outcome, ghost s0: RunState, ghost x: set<TaskId>)
      requires Inv(Snap()) && hooked && id in tasks && MayEnd(Snap(), id, outcome)
      requires Progress(s0, Snap(), {}, {}, x) && s0.Live(id) && id in x
      requires Snap().IsDone(id) ==> Unheard(Snap(), id) && !outcome.Value?
      requires !outcome.Cancelled? && (outcome.Value? ==> Snap().Live(id))
      requires Snap().IsDone(id) && tasks[id].owner.Some? ==> Snap().IsDone(tasks[id].owner.value)
      modifies this
      ensures Inv(Snap()) && Progress(s0, Snap(), {}, {}, x)
      ensures EndsWith(Snap(), id, outcome)
      ensures Told(old(Snap()), Snap(), id, outcome) && NoNewLost(old(Snap()), Snap())
      ensures Smooth(MarkDone(old(Snap()), id, outcome), Snap(), {}, Over(old(Snap()), id))
      ensures !asleep && !Unsettled(Snap())
      decreases Snap().LiveSet(), nextTaskId - id, 0
    {
      hide Inv, Tree, Phases, Subtrees, Queue, Waits, Requests, Consumers, Failures, Settled, Answers, Askings, Gifts, Progress;
      hide PhaseOk, ConsumerOk, MayEnd, Cascade, Served, Told, MarkDone, Announced, Unsettled, Quiet, EndsWith, Stuck, Unswept, RunState.LiveSet, Lost, LogsCascade, Smooth, Over, FreshEnd, NoNewLost, OtherTokens;
      ghost var s1 := Snap();
      At(s1, id);
      ghost var k := OwnerSet(s1, id);
      SetDone(id, outcome);
      ghost var s2 := Snap();
      Ending(s0, s1, id, outcome, x);
      ServeWaiters(id, outcome, s0, s1, k, x);
      ghost var s3 := Snap();
      FreshlyEnded(s1, s3, id, outcome);
      if s1.IsDone(id) {
        assert s3 == s2;
        assert s1.tasks[id].owner.Some? ==> Snap().tasks[s1.tasks[id].owner.value] == s1.tasks[s1.tasks[id].owner.value];
      }
      Conclude(id, outcome, s0, s1, k, x);
      NotLostTrans(s1, s3, Snap());
      SmoothRefl(s3, {}, {});
      SmoothAfterEnd(s1, id, outcome, s3, s3, Snap());
    }

    /** Announces the end of `id`, whose waiter has been served, and lets its owner follow. */
    method Conclude(id: TaskId, outcome: Outcome, ghost s0: RunState, ghost s1: RunState, ghost k: set<TaskId>, ghost x: set<TaskId>)
      requires Inv(Snap()) && hooked && s0.Live(id) && EndsWith(Snap(), id, outcome) && Progress(s0, Snap(), k, {id}, x)
      requires id in s1.tasks && tasks[id].waiters == s1.tasks[id].waiters && |s1.tasks[id].waiters| <= 1 && k == OwnerSet(Snap(), id)
      requires s1.tasks[id].waiters != [] ==> Served(s1, Snap(), id, s1.tasks[id].waiters[0], outcome)
      requires s1.tasks[id].capability == tasks[id].capability && FreshEnd(Snap(), id)
      requires s1.tasks[id].capability in s1.observers ==> tasks[id].capability in observers
      requires s1.tasks[id].waiters != [] && !outcome.Cancelled? ==> tasks[id].terminal.Some? && tasks[id].terminal.value.observed
      modifies this
      ensures Inv(Snap()) && Progress(s0, Snap(), {}, {}, x) && EndsWith(Snap(), id, outcome)
      ensures Told(s1, Snap(), id, outcome) && NoNewLost(old(Snap()), Snap()) && Smooth(old(Snap()), Snap(), {}, Over(old(Snap()), id))
      ensures !asleep && !Unsettled(Snap())
      decreases Snap().LiveSet(), if tasks[id].owner.Some? && tasks[id].owner.value in tasks && tasks[tasks[id].owner.value].phase == Completing then nextTaskId else 0, 5
    {
      hide Inv, Tree, Phases, Subtrees, Queue, Waits, Requests, Consumers, Failures, Settled, Answers, Askings, Gifts, Progress;
      hide Cascade, Served, Told, Announced, Unsettled, Stuck, Unswept, RunState.LiveSet, Lost, LogsCascade, Smooth, Over, FreshEnd, NoNewLost, OtherTokens;
      ghost var s3 := Snap();
      OwnerKnown(s3, id);
      AnnounceEnd(id, outcome, s0, s1, k, x);
      ghost var s4 := Snap();
      FinishSettling(id, outcome, s0, s1, k, x);
      NotLostTrans(s3, s4, Snap());
      SmoothTree(s3, s4, {}, {}, id);
      SmoothWeaken(s3, s4, {}, {}, {}, Over(s3, id));
      SmoothTrans(s3, s4, Snap(), {}, Over(s3, id));
    }

    /** Reports the failure of a detached task that nobody observed, lets the owner follow, wakes
        the run loop and settles the run if it can be settled. */
    method FinishSettling(id: TaskId, outcome: Outcome, ghost s0: RunState, ghost s1: RunState, ghost k: set<TaskId>, ghost x: set<TaskId>)
      requires Inv(Snap()) && hooked && s0.Live(id) && Announced(Snap(), id, outcome) && Progress(s0, Snap(), k, {id}, x)
      requires k == OwnerSet(Snap(), id) && Told(s1, Snap(), id, outcome)
      modifies this
      ensures Inv(Snap()) && Progress(s0, Snap(), {}, {}, x)
      ensures EndsWith(Snap(), id, outcome)
      ensures Told(s1, Snap(), id, outcome) && NoNewLost(old(Snap()), Snap()) && Smooth(old(Snap()), Snap(), {}, Over(old(Snap()), id))
      ensures !asleep && !Unsettled(Snap())
      decreases Snap().LiveSet(), if tasks[id].owner.Some? && tasks[id].owner.value in tasks && tasks[tasks[id].owner.value].phase == Completing then nextTaskId else 0, 4
    {
      hide Inv, Tree, Phases, Subtrees, Queue, Waits, Requests, Consumers, Failures, Settled, Answers, Askings, Gifts, Progress;
      hide NoNewStuck, OwnerOk, PhaseOk, BlockerOk, ConsumerOk, Quiet, Told, Unswept, ReportUnhandled, Announced, Unsettled, Finalized, Stuck, Cascade;
      hide EndsWith, Lost, Smooth, Over, NothingEnds;
      ghost var s5 := Snap();
      EndedNow(s5, id, outcome);
      Report(id);
      ghost var s6 := Snap();
      SweptNow(s5, id, outcome);
      ReportEnds(s5, s6, id);
      SameLost(s5, s6);
      EndedNow(s6, id, outcome);
      HistoryKeeps(s5, s6);
      LogProgress(s5, s6);
      ProgressThen(s0, s5, s6, k, {id}, x);
      OwnerKnown(s6, id);
      FollowUp(id, outcome, s0, k, x);
      SmoothHead(s5, s6, Snap(), {}, Over(s5, id));
      ToldLater(s1, s5, s6, id, outcome);
      ToldLater(s1, s6, Snap(), id, outcome);
    }

    /** After the end of `id` its owner may follow; then the run loop is woken and the run is
        settled if it can be. */
    method FollowUp(id: TaskId, outcome: Outcome, ghost s0: RunState, ghost k: set<TaskId>, ghost x: set<TaskId>)
      requires Inv(Snap()) && hooked && s0.Live(id) && EndsWith(Snap(), id, outcome) && Progress(s0, Snap(), k, {id}, x)
      requires k == OwnerSet(Snap(), id) && !Unswept(Snap(), id)
      modifies this
      ensures Inv(Snap()) && Progress(s0, Snap(), {}, {}, x)
      ensures EndsWith(Snap(), id, outcome) && Cascade(old(Snap()), Snap()) && NoNewLost(old(Snap()), Snap())
      ensures !asleep && !Unsettled(Snap()) && Smooth(old(Snap()), Snap(), {}, Over(old(Snap()), id))
      decreases Snap().LiveSet(), if tasks[id].owner.Some? && tasks[id].owner.value in tasks && tasks[tasks[id].owner.value].phase == Completing then nextTaskId else 0, 3
    {
      hide Inv, Tree, Phases, Subtrees, Queue, Waits, Requests, Consumers, Failures, Settled, Answers, Askings, Gifts, Progress;
      hide NoNewStuck, OwnerOk, PhaseOk, BlockerOk, ConsumerOk, Quiet, Told, Unswept, Unsettled, Finalized, Stuck, Cascade;
      hide OwnerEnds, FirstUnobservedFailure, TerminalFor, Lost, NoNewLost, Smooth, Over, NothingEnds;
      ghost var s6 := Snap();
      FollowOwner(id);
      hide EndsWith, OwnerSet;
      ghost var s7 := Snap();
      Wake();
      ghost var s8 := Snap();
      WakeReports(s7, s8);
      FinalizeIfDone();
      ghost var s9 := Snap();
      Reports(s7, s8, s9);
      SmoothTail(s6, s7, s9, {}, Over(s6, id));
      NotLostTrans(s6, s7, s9);
      ProgressThen(s6, s7, s9, {}, {}, {});
      NotStuckLater(s7, s9, k);
      Concluded(s0, s6, s9, id, k, x);
      ProgressCascade(s6, s9, {}, {}, {});
      EndsStays(s6, s9, id, outcome);
    }

    /** The owner of `id`, if it has one, ends if it only waited for `id`. */
    method FollowOwner(id: TaskId)
      requires Inv(Snap()) && hooked && id in tasks
      modifies this
      ensures Inv(Snap()) && hooked && Progress(old(Snap()), Snap(), {}, {}, {}) && (forall o :: o in OwnerSet(old(Snap()), id) ==> !Stuck(Snap(), o))
      ensures NoNewLost(old(Snap()), Snap()) && Smooth(old(Snap()), Snap(), {}, Over(old(Snap()), id))
      ensures Alone(old(Snap()), id) ==> Snap() == old(Snap())
      decreases Snap().LiveSet(), if tasks[id].owner.Some? && tasks[id].owner.value in tasks && tasks[tasks[id].owner.value].phase == Completing then nextTaskId else 0, 2
    {
      hide Inv, Tree, Phases, Subtrees, Queue, Waits, Requests, Consumers, Failures, Settled, Answers, Askings, Gifts, Progress;
      hide NoNewStuck, OwnerOk, PhaseOk, BlockerOk, ConsumerOk, Quiet, Told, Unswept, Unsettled, Finalized, Stuck, Cascade;
      hide OwnerEnds, FirstUnobservedFailure, TerminalFor, Lost, NoNewLost, Smooth, Over, NothingEnds, Alone;
      ghost var s := Snap();
      if Alone(s, id) && tasks[id].owner.Some? { AloneNotStuck(s, id); }
      OwnerKnown(s, id);
      if tasks[id].owner.Some? {
        MaybeCompleteOwner(tasks[id].owner.value);
        ProgressCascade(s, Snap(), {}, {}, {});
        SameIds(s, Snap());
      } else {
        ProgressRefl(s);
        NotLostRefl(s);
      }
      FollowsOver(s, Snap(), id);
    }

    method AnyLiveChild(id: TaskId) returns (b: bool)
      requires Tree(Snap()) && id in tasks
      ensures b <==> !NoLiveChild(Snap(), id)
    {
      var children := tasks[id].children;
      var i := 0;
      while i < |children|
        invariant 0 <= i <= |children|
        invariant forall j :: 0 <= j < i ==> !Snap().Live(children[j])
      {
        if children[i] in tasks && tasks[children[i]].phase != Done {
          assert children[i] in tasks[id].children && Snap().Live(children[i]);
          return true;
        }
        i := i + 1;
      }
      return false;
    }

    /** Ends a completing owner whose last live child is gone. */
    method MaybeCompleteOwner(id: TaskId)
      requires Inv(Snap()) && id in tasks && hooked
      modifies this
      ensures Inv(Snap()) && Progress(old(Snap()), Snap(), {}, {}, {})
      ensures !Stuck(Snap(), id) && NoNewLost(old(Snap()), Snap())
      ensures Smooth(old(Snap()), Snap(), {}, {id} + Over(old(Snap()), id))
      ensures Unsettled(Snap()) ==> Unsettled(old(Snap()))
      ensures !Stuck(old(Snap()), id) ==> Snap() == old(Snap())
      ensures Stuck(old(Snap()), id) && old(tasks)[id].pendingCompletion.Some? ==>
                OwnerEnds(old(Snap()), Snap(), id,
                          TerminalFor(id, old(tasks)[id].pendingCompletion.value,
                                      FirstUnobservedFailure(old(tasks), old(tasks)[id].children)))
      ensures Stuck(old(Snap()), id) && old(tasks)[id].pendingCompletion.Some? ==>
                old(tasks)[id].pendingCompletion.value.Value? && ConcludedWith(old(Snap()), Snap(), id, old(tasks)[id].pendingCompletion.value.raw)
      decreases Snap().LiveSet(), if tasks[id].phase == Completing then nextTaskId - id else 0, 1
    {
      hide Tree, Phases, Subtrees, Queue, Waits, Requests, Consumers, Failures, Settled, Answers, Askings, Gifts, Progress;
      hide Smooth, Over, ConcludedWith;
      ghost var s0 := Snap();
      ProgressRefl(s0);
      SmoothRefl(s0, {}, {id} + Over(s0, id));
      At(s0, id);
      if tasks[id].phase != Completing || tasks[id].pendingCompletion.None? { return; }
      var live := AnyLiveChild(id);
      if live { return; }
      var unobserved := FirstUnobservedFailure(tasks, tasks[id].children);
      var pending := tasks[id].pendingCompletion.value;
      var outcome := TerminalFor(id, pending, unobserved);
      ReadyToEnd(s0, id, outcome);
      if unobserved.None? { NoUnobservedFailure(s0, tasks[id].children); }
      ProgressWeaken(s0, s0, {}, {}, {}, {}, {}, {id});
      Settle(id, outcome, s0, {id});
      OwnerFollows(s0, id, outcome, Snap());
      TerminalConcludes(s0, Snap(), id, pending.raw);
      ProgressWeaken(s0, Snap(), {}, {}, {id}, {}, {}, {});
    }

    /** Ends task `id` with `completion`, or has it wait for its live children. A task that does
        not succeed cancels its children first. */
    method CompleteTask(id: TaskId, completion: Outcome)
      requires Inv(Snap()) && id in tasks && hooked
      requires !completion.Cancelled? && (completion.Value? ==> running == Some(id))
      requires MayComplete(Snap(), id)
      modifies this
      ensures Inv(Snap())
      ensures AlreadyEnding(old(Snap()), id) ==> Snap() == DropFrames(old(Snap()), id)
      ensures MustWait(old(Snap()), id, completion) ==>
                Snap() == MarkCompleting(DropFrames(old(Snap()), id), id, completion)
      ensures !MustWait(old(Snap()), id, completion) ==> Progress(old(Snap()), Snap(), {}, {}, {id}) && NoNewLost(old(Snap()), Snap())
      ensures EndsNow(old(Snap()), id, completion) ==>
                && EndsWith(Snap(), id, TerminalFor(id, completion, FirstUnobservedFailure(old(tasks), old(tasks)[id].children)))
                && !asleep && !Unsettled(Snap())
      ensures EndsNow(old(Snap()), id, completion) && NoLiveChild(old(Snap()), id) ==>
                Told(old(Snap()), Snap(), id,
                     TerminalFor(id, completion, FirstUnobservedFailure(old(tasks), old(tasks)[id].children)))
      ensures EndsNow(old(Snap()), id, completion) && completion.Value? ==> ConcludedWith(old(Snap()), Snap(), id, completion.raw)
      ensures EndsNow(old(Snap()), id, completion) && !completion.Value? ==> EndsWith(Snap(), id, completion)
      ensures CutGoesOn(old(Snap()), Snap())
      decreases Snap().LiveSet(), nextTaskId - id, 2
    {
      hide Tree, Phases, Subtrees, Queue, Waits, Requests, Consumers, Failures, Settled, Answers, Askings, Gifts, Progress;
      hide CutGoesOn, NothingEnds, ConcludedWith;
      ghost var s0 := Snap();
      At(s0, id);
      RunningReady(s0, id);
      DropTaskFrames(id);
      ghost var s1 := Snap();
      DropFramesKeeps(s0, id);
      DropProgress(s0, id);
      DroppedCuts(s0, id, s1);
      SameLost(s0, s1);
      ProgressWeaken(s0, s1, {}, {}, {}, {}, {}, {id});
      if tasks[id].phase == Completing || tasks[id].phase == Done { return; }
      if completion.Value? {
        EndWithValue(id, completion, s0);
      } else {
        EndWithFailure(id, completion, s0);
      }
      DroppedCuts(s0, id, Snap());
      if completion.Value? && NoLiveChild(s0, id) { TerminalConcludes(s0, Snap(), id, completion.raw); }
      Unframed(s0, id);
    }

    /** A successful task waits for its live children; without any it ends, as a failure if one
        of its children failed unobserved. */
    method EndWithValue(id: TaskId, completion: Outcome, ghost s0: RunState)
      requires Inv(Snap()) && s0.Live(id) && Progress(s0, Snap(), {}, {}, {})
      requires id in tasks && hooked && completion.Value? && running == Some(id) && tasks[id].phase == Ready
      modifies this
      ensures Inv(Snap())
      ensures !NoLiveChild(old(Snap()), id) ==> Snap() == MarkCompleting(old(Snap()), id, completion)
      ensures NoLiveChild(old(Snap()), id) ==>
                && Progress(s0, Snap(), {}, {}, {id}) && !asleep && !Unsettled(Snap()) && NoNewLost(old(Snap()), Snap())
                && OwnerEnds(old(Snap()), Snap(), id, TerminalFor(id, completion, FirstUnobservedFailure(old(tasks), old(tasks)[id].children)))
                && ConcludedWith(old(Snap()), Snap(), id, completion.raw)
      ensures CutGoesOn(old(Snap()), Snap())
      decreases Snap().LiveSet(), nextTaskId - id, 1
    {
      hide Tree, Phases, Subtrees, Queue, Waits, Requests, Consumers, Failures, Settled, Answers, Askings, Gifts, Progress;
      hide CutGoesOn, Smooth, Over, ConcludedWith;
      ghost var s1 := Snap();
      At(s1, id);
      var live := AnyLiveChild(id);
      if live {
        CompletingCuts(s1, id, completion);
        SetCompleting(id, completion);
        MarkCompletingKeeps(s1, id, completion);
        return;
      }
      var outcome := TerminalFor(id, completion, FirstUnobservedFailure(tasks, tasks[id].children));
      ReadyToEnd(s1, id, outcome);
      ProgressWeaken(s0, s1, {}, {}, {}, {}, {}, {id});
      Settle(id, outcome, s0, {id});
      TerminalConcludes(s1, Snap(), id, completion.raw);
      EndCuts(s1, Snap(), id, outcome, Over(s1, id));
    }

    /** A failed task cancels its children, so that none is live, and ends. */
    method EndWithFailure(id: TaskId, completion: Outcome, ghost s0: RunState)
      requires Inv(Snap()) && Inv(s0) && s0.Live(id) && Quiet(s0.tasks[id]) && Progress(s0, Snap(), {}, {}, {})
      requires id in tasks && hooked && completion.Failed? && Snap() == DropFrames(s0, id)
      modifies this
      ensures Inv(Snap()) && Progress(s0, Snap(), {}, {}, {id}) && EndsWith(Snap(), id, completion)
      ensures !asleep && !Unsettled(Snap()) && NoNewLost(old(Snap()), Snap())
      ensures NoLiveChild(old(Snap()), id) ==> Told(old(Snap()), Snap(), id, completion)
      ensures CutGoesOn(old(Snap()), Snap())
      decreases Snap().LiveSet(), nextTaskId - id, 1
    {
      hide Tree, Phases, Subtrees, Queue, Waits, Requests, Consumers, Failures, Settled, Answers, Askings, Gifts, Progress;
      hide OwnerOk, PhaseOk, BlockerOk, ConsumerOk, Quiet, NoLiveChild, MayEnd, Unsettled, Told, Cascade;
      hide CutOff, CutGoesOn, Smooth, Falls, Over, Under, DropFrames, MarkDone, ChildrenCut;
      ghost var s1 := Snap();
      ProgressCascade(s0, s1, {}, {}, {});
      StillLive(s0, s1, id);
      CancelChildren(id, s0);
      ghost var s2 := Snap();
      SameIds(s1, s2);
      CascadeLive(s1, s2);
      CutOffDropped(s0, id, s2);
      CompletingFailed(s0, s2, id, completion);
      Settle(id, completion, s0, {id} + ChildSet(s0, id));
      EndedFailed(Snap(), id, completion);
      FailureConcluded(s0, s1, s2, Snap(), id, completion);
    }

    /** Cancels the children of `id`, in order. `s0` is the state in which ending `id` began. */
    method CancelChildren(id: TaskId, ghost s0: RunState)
      requires Inv(Snap()) && id in tasks && Progress(s0, Snap(), {}, {}, {})
      modifies this
      ensures Inv(Snap()) && Progress(s0, Snap(), {}, {}, ChildSet(old(Snap()), id))
      ensures Cascade(old(Snap()), Snap()) && NoNewLost(old(Snap()), Snap()) && NoNewStuck(old(Snap()), Snap(), {})
      ensures CutOff(old(Snap()), Snap()) && Falls(old(Snap()), Snap(), Under(old(Snap()), id), {id} + Over(old(Snap()), id))
      ensures NoLiveChild(Snap(), id)
      ensures NoLiveChild(old(Snap()), id) ==> Snap() == old(Snap())
      ensures Unsettled(Snap()) ==> Unsettled(old(Snap()))
      decreases Snap().LiveSet(), nextTaskId - id, 0
    {
      hide Tree, Phases, Subtrees, Queue, Waits, Requests, Consumers, Failures, Settled, Answers, Askings, Gifts, Progress;
      hide Unsettled, Told, Cascade, CutOff, Falls, Under, Over, Lost, NoNewStuck;
      ghost var s1 := Snap();
      var children := tasks[id].children;
      ghost var x := ChildSet(s1, id);
      OwnerKnown(s1, id);
      StartCancelling(s1, id, x);
      var i := 0;
      while i < |children|
        invariant 0 <= i <= |children|
        invariant Inv(Snap()) && Cut(s1, Snap(), id, x)
        invariant forall j :: 0 <= j < i ==> !Snap().Live(children[j])
        invariant NoLiveChild(s1, id) ==> Snap() == s1
        invariant Unsettled(Snap()) ==> Unsettled(s1)
      {
        ghost var s := Snap();
        var c := children[i];
        assert c in children;
        ProgressCascade(s1, s, {}, {}, x);
        ChildOf(s1, s, id, c);
        SameIds(s1, s);
        CascadeLive(s1, s);
        var changed := CancelTaskById(c);
        ChildDone(s1, s, Snap(), id, c, x);
        ProgressCascade(s, Snap(), {}, {}, {c});
        forall j | 0 <= j < i ensures !Snap().Live(children[j]) {
          assert children[j] in children;
          ChildOf(s1, s, id, children[j]);
          StillLive(s, Snap(), children[j]);
        }
        i := i + 1;
      }
      ChildrenDone(s0, s1, Snap(), id, x);
      StillLive(s1, Snap(), id);
      SameIds(s1, Snap());
      forall c | c in children ensures !Snap().Live(c) {
        var j :| 0 <= j < |children| && children[j] == c;
      }
    }

    /** Cancels task `id` and everything attached below it. */
    method CancelTaskById(id: TaskId) returns (changed: bool)
      requires Inv(Snap()) && id in tasks
      requires id == ROOT && Snap().Live(id) ==> hostSettled
      modifies this
      ensures Inv(Snap())
      ensures changed == old(Snap()).Live(id)
      ensures !changed ==> Snap() == old(Snap())
      ensures Progress(old(Snap()), Snap(), {}, {}, {id})
      ensures changed ==> EndsWith(Snap(), id, Cancelled)
      ensures changed && NoLiveChild(old(Snap()), id) ==> Told(old(Snap()), Snap(), id, Cancelled)
      ensures changed && NoLiveChild(old(Snap()), id) && Alone(old(Snap()), id) ==> EndsAlone(old(Snap()), Snap(), id)
      ensures CutOff(old(Snap()), Snap()) && Falls(old(Snap()), Snap(), {id} + Under(old(Snap()), id), Over(old(Snap()), id))
      ensures NoNewLost(old(Snap()), Snap())
      ensures Unsettled(Snap()) ==> Unsettled(old(Snap()))
      decreases Snap().LiveSet(), nextTaskId - id, 2
    {
      hide Tree, Phases, Subtrees, Queue, Waits, Requests, Consumers, Failures, Settled, Answers, Askings, Gifts, Progress;
      hide OwnerOk, PhaseOk, ConsumerOk, Quiet, MayEnd, Cascade, Served, Told, MarkDone, Announced, Unsettled, Lost, NoNewLost, Alone, RunState.LiveSet;
      hide CutOff, Falls, Under, Over, ReadyToCut, NoNewStuck, EndsAlone, EndsWith, Inv, NoLiveChild, Marked;
      ghost var s0 := Snap();
      OwnerKnown(s0, id);
      ProgressRefl(s0);
      if tasks[id].phase == Done {
        NothingCancelled(s0, id);
        return false;
      }
      CancelChildren(id, s0);
      ghost var s1 := Snap();
      RecordCut(id, s0);
      MarkedNow(s0, s1, id);
      ghost var s2 := Snap();
      EndCancelled(id, s0);
      MarkedBack(s1, s2, Snap(), id);
      NotLostTrans(s0, s1, Snap());
      return true;
    }

    method RecordCut(id: TaskId, ghost s0: RunState)
      requires id in s0.tasks
      modifies this
      ensures Snap() == Marked(s0, old(Snap()), id)
    {
      if s0.tasks[id].phase == Completing { past := past.(cut := past.cut + {id}); }
    }

    /** Ends task `id`, whose children have been cancelled, as cancelled: even if it has ended meanwhile. */
    method EndCancelled(id: TaskId, ghost s0: RunState)
      requires Inv(Snap()) && Inv(s0) && id in tasks && s0.Live(id)
      requires Progress(s0, Snap(), {}, {}, ChildSet(s0, id)) && Cascade(s0, Snap()) && NoLiveChild(Snap(), id)
      requires CutOff(s0, Snap()) && ReadyToCut(s0, Snap(), id)
      requires id == ROOT ==> hostSettled
      modifies this
      ensures Inv(Snap()) && Progress(s0, Snap(), {}, {}, {id}) && EndsWith(Snap(), id, Cancelled)
      ensures CutOff(s0, Snap()) && Falls(s0, Snap(), {id} + Under(s0, id), Over(s0, id))
      ensures Told(old(Snap()), Snap(), id, Cancelled) && !Unsettled(Snap()) && NoNewLost(old(Snap()), Snap())
      ensures Alone(old(Snap()), id) ==> EndsAlone(old(Snap()), Snap(), id)
      decreases s0.LiveSet(), nextTaskId - id, 1
    {
      hide Inv, Tree, Phases, Subtrees, Queue, Waits, Requests, Consumers, Failures, Settled, Answers, Askings, Gifts, Progress;
      hide EndsWith, OwnerOk, PhaseOk, ConsumerOk, Quiet, NoLiveChild, MayEnd, Cascade, Served, Told, MarkDone, Announced, Unsettled, RunState.LiveSet, Stuck, Unswept, Lost, Alone;
      hide CutOff, Falls, Under, Over, ReadyToCut, Smooth, Unheard, NoNewLost;
      ghost var s1 := Snap();
      ghost var x := {id} + ChildSet(s0, id);
      ghost var k := OwnerSet(s1, id);
      OwnerKnown(s1, id);
      MayCancel(s0, s1, id);
      SetDone(id, Cancelled);
      ghost var s2 := Snap();
      Ending(s0, s1, id, Cancelled, x);
      ProgressCascade(s0, s2, k, {id}, x);
      CascadeLive(s0, s1);
      EndedLive(s0, s1, id, Cancelled);
      EndedLost(s1, id, Cancelled);
      TellCancelled(id, s0, s1, k, x);
      ghost var s4 := Snap();
      FinishCancelling(id, s0, s1, k, x);
      NotLostTrans(s1, s2, s4);
      NotLostTrans(s1, s4, Snap());
      SmoothRefl(s4, {}, {});
      SmoothAfterEnd(s1, id, Cancelled, s4, s4, Snap());
      CancelConcluded(s0, s1, Snap(), id);
    }

    /** Tells the waiter of the cancelled task `id` and announces its end. */
    method TellCancelled(id: TaskId, ghost s0: RunState, ghost s1: RunState, ghost k: set<TaskId>, ghost x: set<TaskId>)
      requires Inv(s1) && id in s1.tasks && |s1.tasks[id].waiters| <= 1 && (s1.IsDone(id) ==> Unheard(s1, id))
      requires Snap() == MarkDone(s1, id, Cancelled) && Inv(Snap()) && Progress(s0, Snap(), k, {id}, x) && s0.Live(id)
      modifies this
      ensures Inv(Snap()) && Progress(s0, Snap(), k, {id}, x) && Announced(Snap(), id, Cancelled)
      ensures Told(s1, Snap(), id, Cancelled) && NoNewLost(old(Snap()), Snap())
      ensures tasks.Keys == old(tasks).Keys && tasks[id].owner == s1.tasks[id].owner && (Alone(s1, id) ==> Alone(Snap(), id))
      ensures Snap().LiveSet() == old(Snap()).LiveSet() && nextTaskId == old(nextTaskId) && hooked == old(hooked)
      ensures s1.tasks[id].waiters == [] ==> frames == s1.frames && past.resumed == s1.resumed && OtherTokens(s1, Snap(), s1.tasks[id].capability)
      ensures Smooth(old(Snap()), Snap(), {}, {})
    {
      hide Inv, Tree, Phases, Subtrees, Queue, Waits, Requests, Consumers, Failures, Settled, Answers, Askings, Gifts, Progress;
      hide EndsWith, Served, Told, MarkDone, Announced, RunState.LiveSet, Lost, Alone, LogsCascade, TasksCascade, Smooth, FreshEnd, Unheard, NoNewLost;
      CancelledTask(s1, id);
      AloneEnds(s1, id, Cancelled);
      ghost var s2 := Snap();
      ServeCancelled(id, s0, s1, k, x);
      ghost var s3 := Snap();
      EndsWithDone(s3, id, Cancelled);
      SameIds(s2, s3);
      LogsTrans(s1, s2, s3);
      FreshlyEnded(s1, s3, id, Cancelled);
      AnnounceEnd(id, Cancelled, s0, s1, k, x);
      NotLostTrans(s2, s3, Snap());
      SmoothTrans(s2, s3, Snap(), {}, {});
      EndedNow(Snap(), id, Cancelled);
      StaysAlone(s1, s2, s3, Snap(), id);
    }

    /** Tells the waiter of the cancelled task `id`, if it has one. */
    method ServeCancelled(id: TaskId, ghost s0: RunState, ghost s1: RunState, ghost k: set<TaskId>, ghost x: set<TaskId>)
      requires Inv(s1) && id in s1.tasks && |s1.tasks[id].waiters| <= 1 && (s1.IsDone(id) ==> Unheard(s1, id))
      requires Snap() == MarkDone(s1, id, Cancelled) && Inv(Snap()) && Progress(s0, Snap(), k, {id}, x) && s0.Live(id)
      modifies this
      ensures Inv(Snap()) && Progress(s0, Snap(), k, {id}, x) && EndsWith(Snap(), id, Cancelled)
      ensures tasks[id].waiters == s1.tasks[id].waiters && tasks[id].owner == s1.tasks[id].owner && tasks[id].capability == s1.tasks[id].capability
      ensures s1.tasks[id].waiters != [] ==> Served(s1, Snap(), id, s1.tasks[id].waiters[0], Cancelled)
      ensures Cascade(old(Snap()), Snap()) && NoNewLost(old(Snap()), Snap())
      ensures Snap().LiveSet() == old(Snap()).LiveSet() && nextTaskId == old(nextTaskId) && hooked == old(hooked)
      ensures s1.tasks[id].waiters == [] ==> Snap() == old(Snap())
      ensures Smooth(old(Snap()), Snap(), {}, {})
    {
      hide Tree, Phases, Subtrees, Queue, Waits, Requests, Consumers, Failures, Settled, Answers, Askings, Gifts, Progress;
      hide Inv, MarkDone, Served, EndsWith, RunState.LiveSet, Lost, Cascade, Smooth;
      ghost var s2 := Snap();
      SmoothRefl(s2, {}, {});
      EndedTask(s1, id, Cancelled);
      CascadeRefl(s2);
      var waiters := tasks[id].waiters;
      var i := 0;
      while i < |waiters|
        invariant i <= |waiters| <= 1
        invariant Inv(Snap()) && Progress(s0, Snap(), k, {id}, x) && hooked == old(hooked)
        invariant EndsWith(Snap(), id, Cancelled) && id in tasks
        invariant tasks[id].waiters == waiters && tasks[id].owner == s1.tasks[id].owner && tasks[id].capability == s1.tasks[id].capability
        invariant i == 0 ==> Snap() == s2
        invariant i > 0 ==> Served(s1, Snap(), id, waiters[0], Cancelled)
        invariant Cascade(s2, Snap()) && NoNewLost(s2, Snap()) && Smooth(s2, Snap(), {}, {})
        invariant Snap().LiveSet() == s2.LiveSet() && nextTaskId == s2.nextTaskId
      {
        WakeCancelled(id, waiters[i], s0, s1, k, x);
        i := i + 1;
      }
    }

    /** Lets the owner of a cancelled task follow and settles the run, once the run has started. */
    method FinishCancelling(id: TaskId, ghost s0: RunState, ghost s1: RunState, ghost k: set<TaskId>, ghost x: set<TaskId>)
      requires Inv(Snap()) && s0.Live(id) && Announced(Snap(), id, Cancelled) && Progress(s0, Snap(), k, {id}, x)
      requires k == OwnerSet(Snap(), id) && Told(s1, Snap(), id, Cancelled)
      modifies this
      ensures Inv(Snap()) && Progress(s0, Snap(), {}, {}, x)
      ensures EndsWith(Snap(), id, Cancelled) && Told(s1, Snap(), id, Cancelled)
      ensures !Unsettled(Snap()) && NoNewLost(old(Snap()), Snap()) && Smooth(old(Snap()), Snap(), {}, Over(old(Snap()), id))
      ensures Alone(old(Snap()), id) ==> Snap().LiveSet() == old(Snap()).LiveSet() && frames == old(frames) && past.resumed == old(past.resumed) && tokens == old(tokens)
      decreases Snap().LiveSet(), if tasks[id].owner.Some? && tasks[id].owner.value in tasks && tasks[tasks[id].owner.value].phase == Completing then nextTaskId else 0, 4
    {
      hide Inv, Tree, Phases, Subtrees, Queue, Waits, Requests, Consumers, Failures, Settled, Answers, Askings, Gifts, Progress;
      hide NoNewStuck, OwnerOk, PhaseOk, BlockerOk, ConsumerOk, Quiet, Told, Unswept, Announced, Unsettled, Finalized, Stuck, Cascade;
      hide OwnerEnds, FirstUnobservedFailure, EndsWith, Lost, Alone, NoNewLost, RunState.LiveSet, TasksCascade, LogsCascade, TerminalFor, Smooth, Over;
      ghost var s5 := Snap();
      EndedNow(s5, id, Cancelled);
      SweptNow(s5, id, Cancelled);
      OwnerKnown(s5, id);
      FollowCancelled(id);
      Concluded(s0, s5, Snap(), id, k, x);
      ProgressCascade(s5, Snap(), {}, {}, {});
      EndsStays(s5, Snap(), id, Cancelled);
      ToldLater(s1, s5, Snap(), id, Cancelled);
    }

    /** The owner of the ended task `id` may follow, and the run is settled if it can be. */
    method FollowCancelled(id: TaskId)
      requires Inv(Snap()) && Snap().IsDone(id)
      modifies this
      ensures Inv(Snap()) && Progress(old(Snap()), Snap(), {}, {}, {}) && (forall o :: o in OwnerSet(old(Snap()), id) ==> !Stuck(Snap(), o))
      ensures !Unsettled(Snap()) && NoNewLost(old(Snap()), Snap()) && Smooth(old(Snap()), Snap(), {}, Over(old(Snap()), id))
      ensures Alone(old(Snap()), id) ==> Snap().LiveSet() == old(Snap()).LiveSet() && frames == old(frames) && past.resumed == old(past.resumed) && tokens == old(tokens)
      decreases Snap().LiveSet(), if tasks[id].owner.Some? && tasks[id].owner.value in tasks && tasks[tasks[id].owner.value].phase == Completing then nextTaskId else 0, 3
    {
      hide Inv, Tree, Phases, Subtrees, Queue, Waits, Requests, Consumers, Failures, Settled, Answers, Askings, Gifts, Progress;
      hide OwnerOk, PhaseOk, BlockerOk, ConsumerOk, Quiet, Told, Unsettled, Finalized, Stuck, Cascade;
      hide OwnerEnds, FirstUnobservedFailure, Lost, Alone, NoNewLost, RunState.LiveSet, TerminalFor, Smooth, Over, NothingEnds;
      ghost var s5 := Snap();
      if hooked {
        FollowOwner(id);
        ghost var s7 := Snap();
        FinalizeIfDone();
        Reports(s7, s7, Snap());
        SmoothTail(s5, s7, Snap(), {}, Over(s5, id));
        NotStuckLater(s7, Snap(), OwnerSet(s5, id));
        NotLostTrans(s5, s7, Snap());
        ProgressThen(s5, s7, Snap(), {}, {}, {});
      } else {
        if tasks[id].owner.Some? { NoStuckUnhooked(s5, tasks[id].owner.value); }
        NotUnsettledUnhooked(s5);
        ProgressRefl(s5);
        NotLostRefl(s5);
        SmoothRefl(s5, {}, Over(s5, id));
      }
    }

    method LeaveStranded(w: Waiter)
      requires w.task in tasks
      modifies this
      ensures Snap() == Strand(old(Snap()), w.task, w.request)
    {
      tasks := tasks[w.task := tasks[w.task].(blocker := Stranded(w.request))];
    }

    /** Resumes waiter `w` of the cancelled task `id`: it joins the queue, but one that traps is
        left as it is and nothing is going to wake it. */
    method WakeCancelled(id: TaskId, w: Waiter, ghost s0: RunState, ghost s1: RunState, ghost k: set<TaskId>, ghost x: set<TaskId>)
      requires Inv(s1) && s1.Live(id) && w in s1.tasks[id].waiters && Snap() == MarkDone(s1, id, Cancelled)
      requires Inv(Snap()) && Progress(s0, Snap(), k, {id}, x) && s0.Live(id)
      modifies this
      ensures Inv(Snap()) && Progress(s0, Snap(), k, {id}, x)
      ensures EndsWith(Snap(), id, Cancelled) && id in tasks && tasks[id].waiters == old(tasks)[id].waiters && tasks[id].owner == old(tasks)[id].owner
      ensures tasks[id].capability == old(tasks)[id].capability
      ensures Served(s1, Snap(), id, w, Cancelled)
      ensures w.task in old(tasks) && (old(Snap()).Live(w.task) ==> if resumeTraps(w.request) then LeftStranded(Snap(), w, Cancelled) else Requeued(Snap(), w))
      ensures Cascade(old(Snap()), Snap()) && NoNewLost(old(Snap()), Snap()) && Smooth(old(Snap()), Snap(), {}, {})
      ensures Snap().LiveSet() == old(Snap()).LiveSet() && nextTaskId == old(nextTaskId) && hooked == old(hooked)
    {
      hide Tree, Phases, Subtrees, Queue, Waits, Requests, Consumers, Failures, Settled, Answers, Askings, Gifts, Progress;
      hide Smooth, NothingEnds, NoNewLost;
      hide Inv, OwnerOk, PhaseOk, BlockerOk, ConsumerOk, Quiet, MayQueue, Cascade, MarkDone, MarkObserved, Spend, MakeReady, Strand, AboutToWake, Served;
      hide MayComplete, AlreadyEnding, NoLiveChild, FirstUnobservedFailure, EndsNow, Told, RunState.LiveSet, EndsWith, Lost, LogsCascade, LeftStranded, Requeued;
      ghost var s3 := Snap();
      PrepareWake(s0, s1, id, Cancelled, w, k, x);
      EndedTask(s1, id, Cancelled);
      WakesOne(s0, s1, s3, id, w, k, x);
      var ok := ResumeTask(w.task, w.request, Status(WaitStatus(Cancelled)));
      ghost var s4 := Snap();
      Woken(s0, s1, s3, s4, id, w, Cancelled, k, x);
      ContinueCancelled(ok, id, w, s0, s1, s3, k, x);
      SmoothTrans(s3, s4, Snap(), {}, {});
      CascadeTrans(s3, s4, Snap());
      SameIds(s3, Snap());
      EndsStays(s3, Snap(), id, Cancelled);
    }

    /** The rest of waking waiter `w` of a cancelled task: it is queued, unless it trapped or had ended before. */
    method ContinueCancelled(ok: bool, id: TaskId, w: Waiter,
                             ghost s0: RunState, ghost s1: RunState, ghost s3: RunState, ghost k: set<TaskId>, ghost x: set<TaskId>)
      requires AboutToWake(s0, s1, s3, id, w, k, x) && Inv(Snap()) && Progress(s0, Snap(), k, {id}, x)
      requires Snap() == if w.request in s3.frames then Spend(s3, w.task, w.request, Status(WaitStatus(Cancelled))) else s3
      requires ok == (w.request in s3.frames && !resumeTraps(w.request)) && s3.traps == resumeTraps && w.task in tasks && (Snap().Live(w.task) <==> s3.Live(w.task))
      requires Snap().Live(w.task) ==> w.request in s3.frames && MayQueue(Snap(), w.task, RawOutcome) && tasks[w.task].phase == Waiting
                                       && tasks[w.task].blocker == InHand && running != Some(w.task)
      modifies this
      ensures Inv(Snap()) && Progress(s0, Snap(), k, {id}, x) && Cascade(old(Snap()), Snap()) && Smooth(old(Snap()), Snap(), {}, {})
      ensures Served(s1, Snap(), id, w, Cancelled) && NoNewLost(s3, Snap()) && Snap().LiveSet() == old(Snap()).LiveSet()
      ensures s3.Live(w.task) ==> if resumeTraps(w.request) then LeftStranded(Snap(), w, Cancelled) else Requeued(Snap(), w)
    {
      hide Tree, Phases, Subtrees, Queue, Waits, Requests, Consumers, Failures, Settled, Answers, Askings, Gifts, Progress;
      hide Inv, OwnerOk, PhaseOk, BlockerOk, ConsumerOk, Quiet, Cascade, Spend, MakeReady, Strand, AboutToWake, Served, Smooth, NothingEnds, NoNewLost;
      hide NoLiveChild, FirstUnobservedFailure, Told, RunState.LiveSet, Lost, LogsCascade, LeftStranded, Requeued, MayQueue;
      ghost var s4 := Snap();
      SmoothRefl(s4, {}, {});
      if ok && tasks[w.task].phase != Done {
        Enqueue(w.task, RawOutcome);
        ReadyWake(s0, s4, w.task, k, {id}, x);
        ReadyLive(s4, w.task, RawOutcome);
        ReadyEnds(s4, w.task, RawOutcome);
        SmoothTail(s4, s4, Snap(), {}, {});
        WakeQueued(s0, s1, s3, id, w, Cancelled, k, x);
      } else if tasks[w.task].phase != Done {
        LeaveStranded(w);
        StrandWake(s0, s4, w.task, w.request, k, {id}, x);
        StrandEnds(s4, w.task, w.request);
        SmoothTail(s4, s4, Snap(), {}, {});
        WakeStranded(s0, s1, s3, id, w, k, x);
      } else {
        CascadeRefl(s4);
        NotLostRefl(s4);
        WakeEnded(s0, s1, s3, s4, s4, id, w, Cancelled, k, x);
      }
    }

    // ------------------------------------------------------------ the steps of a run

    /** Fails the task that is being run. */
    method FailStep(id: TaskId, reason: Reason)
      requires Stepping(Snap(), id)
      modifies this
      ensures Stepped(Snap()) && !asleep && Evolves(old(Snap()), Snap()) && SameRequests(old(Snap()), Snap())
      ensures EndsWith(Snap(), id, Error(reason)) && Progress(old(Snap()), Snap(), {}, {}, {id})
      ensures NoLiveChild(old(Snap()), id) ==> Told(old(Snap()), Snap(), id, Error(reason))
    {
      hide Stepping, Tidy, Inv, Stepped, Evolves, Progress, MayComplete, AlreadyEnding, NoLiveChild, FirstUnobservedFailure, Told, CutGoesOn;
      ghost var s := Snap();
      SteppingFails(s, id);
      SteppingIs(s, id);
      CompleteTask(id, Error(reason));
      SteppedNow(s, Snap(), id);
    }

    method ForgetRequest(r: Request)
      modifies this
      ensures Snap() == DropRequest(old(Snap()), r)
    {
      frames := frames - {r};
    }

    /** Resumes the live task `id` for request `r`; it joins the queue unless the guest traps. */
    method ResumeLive(id: TaskId, r: Request, payload: Payload)
      requires Continuable(Snap(), id, r) && Snap().Live(id) && MayTell(Snap(), id, r, payload)
      modifies this
      ensures Stepped(Snap()) && Evolves(old(Snap()), Snap()) && SameRequests(old(Snap()), Snap()) && !asleep
      ensures resumeTraps(r) ==> EndsWith(Snap(), id, Error(Trapped))
      ensures !resumeTraps(r) ==> Continued(old(Snap()), Snap(), id, r, payload)
    {
      hide Continuable, Stepping, Tidy, Inv, Stepped, Evolves, Progress, MayComplete, AlreadyEnding, NoLiveChild, FirstUnobservedFailure, Told;
      hide Spend, MakeReady, DropFrames, MayQueue, MaySpend, EndsWith, Unsettled, Continued, RunState.LiveSet, CutGoesOn, MayTell;
      ghost var s := Snap();
      ContinuableIs(s, id, r);
      SpentMayQueue(s, id, r, payload);
      var ok := ResumeTask(id, r, payload);
      ghost var s1 := Snap();
      if ok {
        Enqueue(id, RawOutcome);
        ghost var s2 := Snap();
        QueuedNow(s1, id, RawOutcome);
        Wake();
        WokenStep(s2, Snap());
        EvolvesTrans(s, s1, s2);
        EvolvesTrans(s, s2, Snap());
        ContinuedNow(s, id, r, payload);
      } else {
        CompleteTask(id, Error(Trapped));
        EndsWithDone(Snap(), id, Error(Trapped));
        SteppedNow(s1, Snap(), id);
        EvolvesTrans(s, s1, Snap());
      }
    }

    /** Fails task `id`, unless it has ended: its answer has the wrong kind, or its handler gave none
        that is usable. */
    method FailUnlessEnded(id: TaskId, ghost r: Request, reason: Reason)
      requires Continuable(Snap(), id, r)
      modifies this
      ensures Stepped(Snap()) && Evolves(old(Snap()), Snap()) && SameRequests(old(Snap()), Snap())
      ensures asleep ==> old(asleep)
      ensures old(Snap()).IsDone(id) ==> tasks == old(tasks) && readyQueue == old(readyQueue)
      ensures old(Snap()).Live(id) ==> !asleep && EndsWith(Snap(), id, Error(reason))
    {
      hide Continuable, Stepping, Tidy, Inv, Stepped, Evolves, Progress, MayComplete, NoLiveChild, FirstUnobservedFailure, Told;
      hide DropFrames, EndsWith, Unsettled, RunState.LiveSet, CutGoesOn;
      ghost var s := Snap();
      ContinuableIs(s, id, r);
      ghost var dead := tasks[id].phase == Done;
      CompleteTask(id, Error(reason));
      if dead {
        DoneStep(s, id);
      } else {
        EndsWithDone(Snap(), id, Error(reason));
        SteppedNow(s, Snap(), id);
      }
    }

    /** Continues task `id` with request `r`, unless the answer has the wrong kind or the task has
        ended meanwhile. */
    method ApplyContinuation(id: TaskId, r: Request, tail: bool, kind: Continuation, payload: Payload)
      requires Continuable(Snap(), id, r) && (payload.Status? && Snap().Live(id) ==> MayTell(Snap(), id, r, payload))
      modifies this
      ensures Stepped(Snap()) && Evolves(old(Snap()), Snap()) && SameRequests(old(Snap()), Snap())
      ensures asleep ==> old(asleep)
      ensures old(Snap()).IsDone(id) ==> tasks == old(tasks) && readyQueue == old(readyQueue)
      ensures old(Snap()).Live(id) ==> !asleep
      ensures old(Snap()).Live(id) && !Acceptable(tail, kind) ==> EndsWith(Snap(), id, Error(InvalidContinuation))
      ensures old(Snap()).Live(id) && Acceptable(tail, kind) && resumeTraps(r) ==> EndsWith(Snap(), id, Error(Trapped))
      ensures old(Snap()).Live(id) && Acceptable(tail, kind) && !resumeTraps(r) ==> Continued(old(Snap()), Snap(), id, r, payload)
    {
      hide Continuable, Stepping, Tidy, Inv, Stepped, Evolves, Progress, MayComplete, NoLiveChild, FirstUnobservedFailure, Told;
      hide Spend, MakeReady, DropFrames, DropRequest, MayQueue, MaySpend, EndsWith, Unsettled, Continued, RunState.LiveSet, CutGoesOn, MayTell;
      ghost var s := Snap();
      ContinuableIs(s, id, r);
      if !Acceptable(tail, kind) {
        FailUnlessEnded(id, r, InvalidContinuation);
        return;
      }
      if tasks[id].phase == Done {
        DoneStep(s, id);
        ForgetRequest(r);
        ContinuableFrame(s, id, r);
        DroppedStep(s, r);
        return;
      }
      if !payload.Status? { ContinuedPlain(s, id, r, payload); }
      ResumeLive(id, r, payload);
    }

    /** Takes up the work of the task at hand: a yielded request is resumed, anything else is
        handed to the guest as it is. */
    method TakeUp(id: TaskId) returns (ok: bool)
      requires Begun(Snap(), id)
      modifies this
      ensures Stepping(Snap(), id) && Evolves(old(Snap()), Snap()) && SameRequests(old(Snap()), Snap())
      ensures old(tasks)[id].work.ResumeWith? ==>
                ok == !resumeTraps(old(tasks)[id].work.request) && Snap() == Spend(old(Snap()), id, old(tasks)[id].work.request, Unit)
      ensures !old(tasks)[id].work.ResumeWith? ==> ok && Snap() == TakeWork(old(Snap()), id)
      ensures ok ==> !TrappedLast(Snap(), id)
    {
      hide Stepping, Tidy, Inv, Stepped, Evolves, Spend;
      ghost var s := Snap();
      var work := tasks[id].work;
      match work
      case ResumeWith(r) =>
        BegunRequest(s, id);
        SpendRuns(s, id);
        ok := ResumeTask(id, r, Unit);
      case _ =>
        TakeWorkRuns(s, id);
        tasks := tasks[id := tasks[id].(work := Idle)];
        ok := true;
    }

    /** The task at hand returned `raw`. */
    method Return(id: TaskId, raw: Raw)
      requires Stepping(Snap(), id) && !TrappedLast(Snap(), id)
      modifies this
      ensures Stepped(Snap()) && !asleep && Evolves(old(Snap()), Snap()) && SameRequests(old(Snap()), Snap())
      ensures !NoLiveChild(old(Snap()), id) ==> Snap() == MarkCompleting(DropFrames(old(Snap()), id), id, Value(raw))
      ensures NoLiveChild(old(Snap()), id) ==>
                && OwnerEnds(old(Snap()), Snap(), id, TerminalFor(id, Value(raw), FirstUnobservedFailure(old(tasks), old(tasks)[id].children)))
                && ConcludedWith(old(Snap()), Snap(), id, raw)
                && Progress(old(Snap()), Snap(), {}, {}, {id})
    {
      hide Stepping, Tidy, Inv, Stepped, Evolves, Progress, MayComplete, AlreadyEnding, NoLiveChild, FirstUnobservedFailure, Told, TerminalFor, CutGoesOn, ConcludedWith;
      hide MarkCompleting, DropFrames, EndsWith, Unsettled, RunState.LiveSet;
      ghost var s := Snap();
      SteppingFails(s, id);
      SteppingIs(s, id);
      CompleteTask(id, Value(raw));
      if NoLiveChild(s, id) {
        EndsWithDone(Snap(), id, TerminalFor(id, Value(raw), FirstUnobservedFailure(s.tasks, s.tasks[id].children)));
        TerminalConcludes(s, Snap(), id, raw);
        SteppedNow(s, Snap(), id);
      } else {
        WaitingStep(s, id, Value(raw));
      }
    }

    /** How continuing the task at hand turns out. */
    ghost predicate AnsweredNow(s: RunState, s': RunState, id: TaskId, r: Request, tail: bool, kind: Continuation, payload: Payload) {
      if !Acceptable(tail, kind) then EndsWith(s', id, Error(InvalidContinuation))
      else if resumeTraps(r) then EndsWith(s', id, Error(Trapped))
      else Continued(s, s', id, r, payload)
    }

    method RecordAsking(r: Request, id: TaskId, t: TaskId)
      modifies this
      ensures Snap() == Ask(old(Snap()), r, id, t, false)
    {
      past := past.(asked := past.asked[r := Asking(id, t, false)]);
    }

    /** Tells the task at hand how task `t`, which has ended, ended. */
    method AnswerWait(id: TaskId, r: Request, tail: bool, t: TaskId, ghost o: Outcome)
      requires Serving(Snap(), id, r) && EndsWith(Snap(), t, o) && r !in past.asked && tasks[t].claimed && Unasked(Snap(), t)
      modifies this
      ensures Stepped(Snap()) && !asleep && Evolves(old(Snap()), Snap()) && SameRequests(old(Snap()), Snap())
      ensures ObservedEnd(Snap(), t, o)
      ensures o.Cancelled? ==> t in old(tasks) && old(tasks)[t].capability !in tokens
      ensures AnsweredNow(old(Snap()), Snap(), id, r, tail, Resume, Status(WaitStatus(o)))
    {
      hide Serving, Stepping, Tidy, Inv, Stepped, Evolves, MarkObserved, Continuable, MayBlock, MayQueue, MayTell, Noticed, MayTellEnd, Unasked;
      ghost var s0 := Snap();
      AskRuns(s0, id, r, t);
      RecordAsking(r, id, t);
      ghost var s := Snap();
      ServingIs(s, id, r);
      ObservedNow(s, t, o);
      ObservedRuns(s, id, r, t);
      SetObserved(t);
      ghost var s1 := Snap();
      ServingIs(s1, id, r);
      if tasks[t].terminal.value.outcome.Cancelled? {
        ForgetRuns(s1, id, r, t);
        ForgetCapability(tasks[t].capability);
      } else {
        EvolvesRefl(s1);
      }
      ghost var s2 := Snap();
      ServingIs(s2, id, r);
      StillTells(s, s2, id, r, t, o);
      ApplyContinuation(id, r, tail, Resume, Status(WaitStatus(tasks[t].terminal.value.outcome)));
      EvolvesTrans(s, s1, s2);
      EvolvesTrans(s0, s, s2);
      EvolvesTrans(s0, s2, Snap());
      ObservedStays(s2, Snap(), t, o);
      if o.Cancelled? { SpentToken(s2, Snap(), t); }
    }

    method ClaimCapability(t: TaskId)
      requires t in tasks
      modifies this
      ensures Snap() == Claim(old(Snap()), t)
    {
      tasks := tasks[t := tasks[t].(claimed := true)];
    }

    method Block(id: TaskId, t: TaskId, r: Request)
      requires id in tasks && t in tasks
      modifies this
      ensures Snap() == BlockOnTask(old(Snap()), id, t, r)
    {
      tasks := tasks[id := tasks[id].(phase := Waiting, blocker := OnTask(t, r))];
      tasks := tasks[t := tasks[t].(waiters := tasks[t].waiters + [Waiter(id, r)])];
      past := past.(asked := past.asked[r := Asking(id, t, true)]);
      running := None;
    }

    /** Request `r` asks for the end of the task behind `token`. Whoever asks first is the only
        one to be told: at once if the task has ended, otherwise when it ends. */
    method WaitFor(id: TaskId, r: Request, tail: bool, token: Token)
      requires Serving(Snap(), id, r) && r !in past.asked
      modifies this
      ensures Stepped(Snap()) && !asleep && Evolves(old(Snap()), Snap()) && SameRequests(old(Snap()), Snap())
      ensures Waited(old(Snap()), Snap(), id, r, tail, token)
    {
      hide Serving, Stepping, Tidy, Inv, Stepped, Evolves, Claim, BlockOnTask, Continuable, MayBlock, MayQueue;
      ghost var s := Snap();
      ServingIs(s, id, r);
      if token !in tokens { FailStep(id, StaleCapability); return; }
      var t := tokens[token];
      if tasks[t].claimed { FailStep(id, AlreadyObserved); return; }
      Unclaimed(s, t);
      ClaimCapability(t);
      ghost var s1 := Snap();
      ClaimRuns(s, id, r, t);
      ClaimForm(s, t);
      ServingIs(s1, id, r);
      if tasks[t].terminal.Some? {
        EndHolds(s1, t);
        AnswerWait(id, r, tail, t, tasks[t].terminal.value.outcome);
      } else {
        LiveHolds(s1, t);
        BlockOnTaskStops(s1, id, t, r);
        BlockForm(s1, id, t, r);
        Block(id, t, r);
      }
      EvolvesTrans(s, s1, Snap());
    }

    /** How asking for the end of the task behind `token` turns out. */
    ghost predicate Waited(s: RunState, s': RunState, id: TaskId, r: Request, tail: bool, token: Token) {
      id in s.tasks &&
      if token !in s.tokens || s.tokens[token] !in s.tasks then EndsWith(s', id, Error(StaleCapability))
      else
        var t := s.tokens[token];
        if s.tasks[t].claimed then EndsWith(s', id, Error(AlreadyObserved))
        else if s.tasks[t].terminal.None? then s' == BlockOnTask(Claim(s, t), id, t, r)
        else
          var o := s.tasks[t].terminal.value.outcome;
          && ObservedEnd(s', t, o) && (o.Cancelled? ==> token !in s'.tokens)
          && AnsweredNow(s, s', id, r, tail, Resume, Status(WaitStatus(o)))
    }

    /** Request `r` asks why the task behind `token` failed; the answer uses the token up. */
    method TellFailure(id: TaskId, r: Request, tail: bool, token: Token)
      requires Serving(Snap(), id, r)
      modifies this
      ensures Stepped(Snap()) && !asleep && Evolves(old(Snap()), Snap()) && SameRequests(old(Snap()), Snap())
      ensures FailureTold(old(Snap()), Snap(), id, r, tail, token)
    {
      hide Serving, Stepping, Tidy, Inv, Stepped, Evolves, MarkObserved, Continuable, MayBlock, MayQueue, Noticed, MayDeliver, MayTell;
      ghost var s := Snap();
      ServingIs(s, id, r);
      if token !in tokens { FailStep(id, StaleCapability); return; }
      var t := tokens[token];
      if tasks[t].terminal.None? || !tasks[t].terminal.value.outcome.Failed? { FailStep(id, NoFailureMessage); return; }
      var failure := tasks[t].terminal.value.outcome.failure;
      EndHolds(s, t);
      NoObserver(s, t);
      StandsFor(s, t, Failed(failure));
      DeliverRuns(s, id, r, token, Failed(failure));
      DeliverQuiet(s, t, token, Failed(failure));
      DeliverMessage(token, Failed(failure));
      ghost var s1 := Snap();
      ServingIs(s1, id, r);
      ObservedNow(s1, t, Failed(failure));
      ObservedRuns(s1, id, r, t);
      SetObserved(t);
      ghost var s2 := Snap();
      ServingIs(s2, id, r);
      ApplyContinuation(id, r, tail, Tail, Message(failure.reason));
      EvolvesTrans(s, s1, s2);
      EvolvesTrans(s, s2, Snap());
      ObservedStays(s2, Snap(), t, Failed(failure));
      SpentToken(s2, Snap(), t);
      EvolvesTrans(s1, s2, Snap());
      GivenStays(s1, Snap(), token);
    }

    /** How asking for a failure message turns out. */
    ghost predicate FailureTold(s: RunState, s': RunState, id: TaskId, r: Request, tail: bool, token: Token) {
      if token !in s.tokens || s.tokens[token] !in s.tasks then EndsWith(s', id, Error(StaleCapability))
      else
        var t := s.tokens[token];
        if s.tasks[t].terminal.None? || !s.tasks[t].terminal.value.outcome.Failed? then EndsWith(s', id, Error(NoFailureMessage))
        else
          var o := s.tasks[t].terminal.value.outcome;
          && ObservedEnd(s', t, o) && token !in s'.tokens && token in s'.given && s'.given[token] == o
          && AnsweredNow(s, s', id, r, tail, Tail, Message(o.failure.reason))
    }

    /** The answer to a request that is neither a wait nor a question about a failure. */
    method Handle(id: TaskId, r: Request, tail: bool, reply: Reply)
      requires Serving(Snap(), id, r)
      modifies this
      ensures Stepped(Snap()) && !asleep && Evolves(old(Snap()), Snap())
      ensures issued == old(issued) && minted == old(minted) && closed == old(closed)
      ensures Handled(old(Snap()), Snap(), id, r, tail, reply)
    {
      hide Serving, Stepping, Tidy, Inv, Stepped, Evolves, Continuable, MayBlock, MayQueue, Continued;
      ghost var s := Snap();
      ServingIs(s, id, r);
      match reply
      case NoHandler => FailStep(id, UnhandledEffect);
      case Threw => FailStep(id, Trapped);
      case Junk => FailStep(id, InvalidHandlerResult);
      case Now(kind) => ApplyContinuation(id, r, tail, kind, Reply);
      case Pending =>
        BlockOnHandlerStops(s, id, r);
        tasks := tasks[id := tasks[id].(phase := Waiting, blocker := OnHandler(r))];
        handlers := handlers[r := id];
        running := None;
    }

    ghost predicate Handled(s: RunState, s': RunState, id: TaskId, r: Request, tail: bool, reply: Reply) {
      match reply
      case NoHandler => EndsWith(s', id, Error(UnhandledEffect))
      case Threw => EndsWith(s', id, Error(Trapped))
      case Junk => EndsWith(s', id, Error(InvalidHandlerResult))
      case Now(kind) => AnsweredNow(s, s', id, r, tail, kind, Payload.Reply)
      case Pending => id in s.tasks && s' == BlockOnHandler(s, id, r)
    }

    /** The task at hand gives up its turn; request `r` is resumed when the turn comes back. */
    method GiveWay(id: TaskId, r: Request)
      requires Serving(Snap(), id, r)
      modifies this
      ensures Stepped(Snap()) && !asleep && Evolves(old(Snap()), Snap()) && SameRequests(old(Snap()), Snap())
      ensures id in old(tasks) && Snap() == MakeReady(old(Snap()), id, ResumeWith(r))
    {
      hide Serving, Stepping, Tidy, Inv, Stepped, Evolves, Continuable, MayBlock, MayQueue;
      ServingIs(Snap(), id, r);
      QueuedNow(Snap(), id, ResumeWith(r));
      Enqueue(id, ResumeWith(r));
    }

    /** The task at hand performs request `r`. */
    method Perform(id: TaskId, r: Request, tail: bool, effect: Effect)
      requires Stepping(Snap(), id) && !TrappedLast(Snap(), id) && r !in issued
      modifies this
      ensures Stepped(Snap()) && !asleep && Evolves(old(Snap()), Snap())
      ensures issued == old(issued) + {r} && minted == old(minted) && closed == old(closed)
      ensures Performed(Issue(old(Snap()), id, r), Snap(), id, r, tail, effect)
    {
      hide Serving, Stepping, Tidy, Inv, Stepped, Evolves, EndsWith, Continued, Continuable, MayBlock, MayQueue;
      hide Waited, FailureTold, Handled, MakeReady;
      ghost var s := Snap();
      IssueRuns(s, id, r);
      frames := frames[r := id];
      issued := issued + {r};
      ghost var s1 := Snap();
      match effect {
        case Wait(token) => WaitFor(id, r, tail, token);
        case FailureMessage(token) => TellFailure(id, r, tail, token);
        case Yield => GiveWay(id, r);
        case Handled(reply) => Handle(id, r, tail, reply);
      }
      EvolvesTrans(s, s1, Snap());
    }

    /** How request `r` turns out. */
    ghost predicate Performed(s: RunState, s': RunState, id: TaskId, r: Request, tail: bool, effect: Effect) {
      match effect
      case Wait(token) => Waited(s, s', id, r, tail, token)
      case FailureMessage(token) => FailureTold(s, s', id, r, tail, token)
      case Yield => id in s.tasks && s' == MakeReady(s, id, ResumeWith(r))
      case Handled(reply) => Handled(s, s', id, r, tail, reply)
    }

    /** The guest runs until it returns, traps or performs a request. */
    method RunGuest(id: TaskId, g: GuestStep)
      requires Stepping(Snap(), id) && !TrappedLast(Snap(), id) && FreshStep(g, issued)
      modifies this
      ensures Stepped(Snap()) && !asleep && Evolves(old(Snap()), Snap())
      ensures issued == old(issued) + Requested(g) && minted == old(minted) && closed == old(closed)
      ensures Ran(old(Snap()), Snap(), id, g)
    {
      hide Stepping, Tidy, Inv, Stepped, Evolves, Performed, EndsWith, OwnerEnds, NoLiveChild, MarkCompleting, DropFrames;
      SteppingIs(Snap(), id);
      match g
      case Crashed =>
        FailStep(id, Trapped);
      case Returned(raw) =>
        Return(id, raw);
      case Broke(r) =>
        ghost var s := Snap();
        IssueRuns(s, id, r);
        frames := frames[r := id];
        issued := issued + {r};
        ghost var s1 := Snap();
        FailStep(id, Trapped);
        EvolvesTrans(s, s1, Snap());
      case Performed(r, tail, effect) =>
        Perform(id, r, tail, effect);
    }

    /** What running the task at hand comes to. */
    ghost predicate Ran(s: RunState, s': RunState, id: TaskId, g: GuestStep) {
      match g
      case Crashed =>
        EndsWith(s', id, Error(Trapped)) && Progress(s, s', {}, {}, {id}) && (NoLiveChild(s, id) ==> Told(s, s', id, Error(Trapped)))
      case Broke(_) => EndsWith(s', id, Error(Trapped))
      case Returned(raw) =>
        id in s.tasks &&
        (if NoLiveChild(s, id) then
          && OwnerEnds(s, s', id, TerminalFor(id, Value(raw), FirstUnobservedFailure(s.tasks, s.tasks[id].children)))
          && ConcludedWith(s, s', id, raw)
          && Progress(s, s', {}, {}, {id})
        else
          s' == MarkCompleting(DropFrames(s, id), id, Value(raw)))
      case Performed(r, tail, effect) => Performed(Issue(s, id, r), s', id, r, tail, effect)
    }

    method SkipHead()
      requires readyQueue != []
      modifies this
      ensures Snap() == PopHead(old(Snap()))
    {
      readyQueue := readyQueue[1..];
    }

    method StartHead()
      requires readyQueue != []
      modifies this
      ensures Snap() == BeginStep(old(Snap()))
    {
      hooked := true;
      running := Some(readyQueue[0]);
      readyQueue := readyQueue[1..];
    }

    /** One step of the run loop: reports the final outcome, sleeps, or takes a task from the queue. */
    method RunHead(g: GuestStep) returns (r: StepResult)
      requires Resting(Snap()) && !closed && !asleep && FreshStep(g, issued)
      modifies this
      ensures Resting(Snap()) && Evolves(old(Snap()), Snap())
      ensures issued <= old(issued) + Requested(g) && minted == old(minted)
      ensures r.Finished? <==> old(finalOutcome).Some?
      ensures r.Finished? ==> finalOutcome == Some(r.outcome) && closed && tasks == old(tasks)
      ensures r.Sleeping? <==> old(finalOutcome).None? && old(readyQueue) == []
      ensures r.Sleeping? ==> asleep && tasks == old(tasks)
      ensures r.Next? ==> !asleep && TurnTaken(old(Snap()), Snap(), g)
    {
      hide Stepping, Tidy, Inv, Stepped, Evolves, EndsWith, Resting, FreshStep, Requested, TurnTaken;
      ghost var s := Snap();
      if finalOutcome.Some? {
        CloseRests(s);
        closed := true;
        return Finished(finalOutcome.value);
      }
      if readyQueue == [] {
        SleepRests(s);
        asleep := true;
        return Sleeping;
      }
      TakeTurn(g);
      return Next;
    }

    /** What taking the head of the queue comes to: a task that is already ending is skipped. */
    ghost predicate TurnTaken(s: RunState, s': RunState, g: GuestStep) {
      s.readyQueue != [] &&
      if s.Live(s.readyQueue[0]) then StepTaken(BeginStep(s), s', s.readyQueue[0], g) else s' == PopHead(s)
    }

    method TakeTurn(g: GuestStep)
      requires Resting(Snap()) && !closed && !asleep && FreshStep(g, issued) && readyQueue != []
      modifies this
      ensures Resting(Snap()) && Evolves(old(Snap()), Snap()) && !asleep
      ensures issued <= old(issued) + Requested(g) && minted == old(minted)
      ensures TurnTaken(old(Snap()), Snap(), g)
    {
      hide Stepping, Tidy, Inv, Stepped, Evolves, Ran, StepTaken, EndsWith, Resting, Begun, BeginStep, PopHead, FreshStep, Requested;
      ghost var s := Snap();
      HeadKnown(s);
      var id := readyQueue[0];
      if tasks[id].phase == Done || tasks[id].phase == Completing {
        PopRests(s);
        SkipHead();
        PopForm(s);
        return;
      }
      BeginRuns(s);
      StartHead();
      RunTask(id, g);
      EvolvesTrans(s, BeginStep(s), Snap());
      SteppedRests(Snap());
    }

    /** Runs the task at hand. */
    method RunTask(id: TaskId, g: GuestStep)
      requires Begun(Snap(), id) && FreshStep(g, issued)
      modifies this
      ensures Stepped(Snap()) && !asleep && Evolves(old(Snap()), Snap())
      ensures issued <= old(issued) + Requested(g) && minted == old(minted)
      ensures StepTaken(old(Snap()), Snap(), id, g)
    {
      hide Stepping, Tidy, Inv, Stepped, Evolves, Ran, EndsWith;
      ghost var s := Snap();
      var ok := TakeUp(id);
      ghost var s1 := Snap();
      if ok {
        RunGuest(id, g);
      } else {
        FailStep(id, Trapped);
      }
      EvolvesTrans(s, s1, Snap());
    }

    /** What a step comes to: the guest carries on unless it traps when its request is resumed. */
    ghost predicate StepTaken(s: RunState, s': RunState, id: TaskId, g: GuestStep) {
      && id in s.tasks
      && if !s.tasks[id].work.ResumeWith? then Ran(TakeWork(s, id), s', id, g)
         else
           var r := s.tasks[id].work.request;
           if resumeTraps(r) then EndsWith(s', id, Error(Trapped)) else Ran(Spend(s, id, r, Unit), s', id, g)
    }

    // ------------------------------------------------------------ what the host does between steps

    method DropHandler(r: Request)
      requires r in handlers && handlers[r] in tasks
      modifies this
      ensures Snap() == Unhook(old(Snap()), r)
    {
      var id := handlers[r];
      handlers := handlers - {r};
      if tasks[id].phase != Done { tasks := tasks[id := tasks[id].(blocker := InHand)]; }
    }

    method NextId() returns (id: TaskId)
      modifies this
      ensures id == old(nextTaskId) && Snap() == old(Snap()).(nextTaskId := id + 1)
    {
      id := nextTaskId;
      nextTaskId := id + 1;
    }

    method AddChild(owner: TaskId, id: TaskId, detached: bool)
      requires owner in tasks
      modifies this
      ensures Snap() == WithChild(old(Snap()), owner, id, detached)
    {
      if !detached {
        tasks := tasks[owner := tasks[owner].(children := tasks[owner].children + [id])];
      }
    }

    method Mint(cap: Token, id: TaskId)
      modifies this
      ensures Snap() == Minted(old(Snap()), cap, id)
    {
      tokens := tokens[cap := id];
      minted := minted[cap := id];
    }

    method Enroll(id: TaskId, task: Task)
      modifies this
      ensures Snap() == Enrolled(old(Snap()), id, task)
    {
      tasks := tasks[id := task];
      readyQueue := readyQueue + [id];
      asleep := false;
    }

    method AddTask(caller: TaskId, detached: bool, cap: Token)
      requires caller in tasks
      modifies this
      ensures Snap() == SpawnTask(old(Snap()), caller, detached, cap)
    {
      hide Enrolled, Minted, WithChild, NewTask, SpawnTask;
      EnrolledForm(Snap(), caller, detached, cap);
      var id := NextId();
      AddChild(caller, id, detached);
      Enroll(id, NewTask(cap, if detached then None else Some(caller), detached));
      Mint(cap, id);
    }

    method AddObserver(cap: Token)
      modifies this
      ensures Snap() == Register(old(Snap()), cap)
    {
      observers := observers + {cap};
      past := past.(watched := past.watched + {cap});
    }

    /** The asynchronous handler of request `r` answers. */
    method SettleHandler(r: Request, tail: bool, answer: Answer)
      requires Resting(Snap()) && r in handlers
      modifies this
      ensures Resting(Snap()) && Evolves(old(Snap()), Snap())
      ensures r !in handlers && issued == old(issued) && minted == old(minted) && closed == old(closed)
      ensures old(handlers)[r] in old(tasks)
      ensures old(Snap()).IsDone(old(handlers)[r]) ==> tasks == old(tasks)
      ensures old(Snap()).Live(old(handlers)[r]) ==>
                Settled(Unhook(old(Snap()), r), Snap(), old(handlers)[r], r, tail, answer)
    {
      hide Stepping, Tidy, Inv, Stepped, Evolves, EndsWith, Continued, Resting, Continuable, Acceptable, Unhook;
      ghost var s := Snap();
      RestingIs(s);
      var id := handlers[r];
      UnhookRests(s, r);
      UnhookForm(s, r);
      DropHandler(r);
      ghost var s1 := Snap();
      match answer {
        case Malformed => FailUnlessEnded(id, r, InvalidHandlerResult);
        case Rejected => FailUnlessEnded(id, r, HandlerRejected);
        case Continue(kind) => ApplyContinuation(id, r, tail, kind, Reply);
      }
      EvolvesTrans(s, s1, Snap());
      RestsAgain(s, Snap());
    }

    ghost predicate Settled(s: RunState, s': RunState, id: TaskId, r: Request, tail: bool, answer: Answer) {
      match answer
      case Malformed => EndsWith(s', id, Error(InvalidHandlerResult))
      case Rejected => EndsWith(s', id, Error(HandlerRejected))
      case Continue(kind) => AnsweredNow(s, s', id, r, tail, kind, Payload.Reply)
    }

    /** A guest function of task `caller` creates a task; `cap` is a newly allocated capability. */
    method Spawn(caller: TaskId, detached: bool, cap: Token) returns (token: Token)
      requires Resting(Snap()) && MaySpawn(Snap(), caller, cap)
      modifies this
      ensures token == cap && Snap() == SpawnTask(old(Snap()), caller, detached, cap)
      ensures Resting(Snap()) && Evolves(old(Snap()), Snap())
    {
      hide Resting, Evolves, SpawnTask;
      SpawnRests(Snap(), caller, detached, cap);
      AddTask(caller, detached, cap);
      return cap;
    }

    /** Cancels the task behind `token`. An unknown token or a task that has ended is left alone. */
    method CancelToken(token: Token) returns (changed: bool)
      requires Resting(Snap())
      modifies this
      ensures Resting(Snap()) && Evolves(old(Snap()), Snap()) && SameRequests(old(Snap()), Snap())
      ensures changed <==> token in old(tokens) && old(Snap()).Live(old(tokens)[token])
      ensures !changed ==> Snap() == old(Snap())
      ensures changed ==> !asleep && EndsWith(Snap(), old(tokens)[token], Cancelled)
      ensures changed && NoLiveChild(old(Snap()), old(tokens)[token]) ==> Told(old(Snap()), Snap(), old(tokens)[token], Cancelled)
      ensures changed && NoLiveChild(old(Snap()), old(tokens)[token]) && Alone(old(Snap()), old(tokens)[token]) ==>
                EndsAlone(old(Snap()), Snap(), old(tokens)[token])
      ensures changed ==> CutFrom(old(Snap()), Snap(), old(tokens)[token])
      ensures Cascade(old(Snap()), Snap())
    {
      hide Inv, Tidy, Resting, Evolves, Progress, Unsettled, Told, NoLiveChild, EndsWith, Lost, Alone, EndsAlone, Cascade, Falls, Over, Under, CutOff, CutGoesOn, CutFrom;
      ghost var s := Snap();
      RestingIs(s);
      EvolvesRefl(s);
      CascadeRefl(s);
      if token !in tokens { return false; }
      var id := tokens[token];
      changed := CancelTaskById(id);
      if changed {
        ghost var s1 := Snap();
        FallsCuts(s, s1, {id} + Under(s, id), Over(s, id));
        CutFromNow(s, s1, id);
        CancelTidy(s, s1, {id});
        ProgressCascade(s, s1, {}, {}, {id});
        StillResting(s, s1);
        StillNoneLost(s, s1);
        asleep := false;
        AwakeRests(s1, Snap());
        EvolvesTrans(s, s1, Snap());
        AwakeForm(s, s1, id);
        AwakeCascade(s, s1, id);
      }
    }

    /** Takes the value of a task that ended with one and was claimed; the token is used up. */
    method TakeValue(token: Token) returns (r: Result<Raw, Reason>)
      requires Resting(Snap())
      modifies this
      ensures Resting(Snap()) && Evolves(old(Snap()), Snap()) && SameRequests(old(Snap()), Snap())
      ensures r.Ok? <==> token in old(tokens) && old(tokens)[token] in old(tasks) && old(tasks)[old(tokens)[token]].claimed
                         && EndedWithValue(old(Snap()), old(tokens)[token])
      ensures r.Err? ==> Snap() == old(Snap()) && (r.error == StaleCapability <==> token !in old(tokens))
      ensures r.Ok? ==>
                && EndsWith(old(Snap()), old(tokens)[token], Value(r.value))
                && Snap() == MarkObserved(Deliver(old(Snap()), token, Value(r.value)), old(tokens)[token])
    {
      hide Inv, Tidy, Resting, Evolves, MarkObserved, Deliver, SameRequests, NoDup;
      ghost var s := Snap();
      RestingIs(s);
      EvolvesRefl(s);
      SameRequestsRefl(s);
      if token !in tokens { return Err(StaleCapability); }
      var t := tokens[token];
      PhaseKnown(s, t);
      if !tasks[t].claimed || tasks[t].terminal.None? || !tasks[t].terminal.value.outcome.Value? {
        return Err(NotAValue);
      }
      var raw := tasks[t].terminal.value.outcome.raw;
      EndHolds(s, t);
      TakeRests(s, t, Value(raw));
      DeliveredForm(s, t, token, Value(raw));
      DeliverMessage(token, Value(raw));
      SetObserved(t);
      return Ok(raw);
    }

    /** The stored outcome of `t`, which has ended, or else the one in its record; its token is used up. */
    method TakeOutcome(t: TaskId) returns (o: Outcome)
      requires Resting(Snap()) && Snap().IsDone(t) && tasks[t].terminal.Some? && tasks[t].capability in tokens
      modifies this
      ensures Resting(Snap()) && Evolves(old(Snap()), Snap()) && SameRequests(old(Snap()), Snap())
      ensures EndsWith(old(Snap()), t, o) && t in Deliver(old(Snap()), old(tasks)[t].capability, o).tasks
      ensures Snap() == MarkObserved(Deliver(old(Snap()), old(tasks)[t].capability, o), t)
    {
      hide Inv, Tidy, Resting, Evolves, MarkObserved, Deliver, SameRequests;
      ghost var s := Snap();
      RestingIs(s);
      var cap := tasks[t].capability;
      if cap in completed { StoredOutcome(s, t); }
      o := if cap in completed then completed[cap] else tasks[t].terminal.value.outcome;
      EndHolds(s, t);
      TakeRests(s, t, o);
      DeliveredForm(s, t, cap, o);
      DeliverMessage(cap, o);
      SetObserved(t);
    }

    /** What asking for the outcome of the task behind `token` comes to. */
    static ghost predicate Observed(s: RunState, s': RunState, token: Token, r: Observation) {
      if token !in s.tokens || s.tokens[token] !in s.tasks then r == Refused(StaleCapability) && s' == s
      else
        var t := s.tokens[token];
        if s.tasks[t].claimed then r == Refused(AlreadyObserved) && s' == s
        else if s.tasks[t].terminal.Some? then
          var o := s.tasks[t].terminal.value.outcome;
          && r == Answered(o)
          && t in Deliver(Claim(s, t), token, o).tasks && s' == MarkObserved(Deliver(Claim(s, t), token, o), t)
        else r == Later && s' == Register(Claim(s, t), token)
    }

    /** The host asks for the outcome of the task behind `token`, now or when it ends. */
    method Observe(token: Token) returns (r: Observation)
      requires Resting(Snap())
      modifies this
      ensures Resting(Snap()) && Evolves(old(Snap()), Snap()) && SameRequests(old(Snap()), Snap())
      ensures Observed(old(Snap()), Snap(), token, r)
    {
      hide Inv, Tidy, Resting, Evolves, Claim, MarkObserved, Deliver, Register, EndsWith, Unasked;
      ghost var s := Snap();
      RestingIs(s);
      EvolvesRefl(s);
      if token !in tokens { return Refused(StaleCapability); }
      var t := tokens[token];
      PhaseKnown(s, t);
      if tasks[t].claimed { return Refused(AlreadyObserved); }
      hide Observed;
      ClaimRests(s, t);
      Unclaimed(s, t);
      ClaimForm(s, t);
      ClaimCapability(t);
      ghost var s1 := Snap();
      r := AnswerOrRegister(t, token);
      EvolvesTrans(s, s1, Snap());
      ClaimedAndObserved(s, s1, Snap(), t, token, r);
    }

    /** Answers with the outcome of `t`, just claimed, or registers the observer. */
    method AnswerOrRegister(t: TaskId, token: Token) returns (r: Observation)
      requires Resting(Snap()) && t in tasks && tasks[t].claimed && tasks[t].waiters == [] && token in tokens && tokens[token] == t
      modifies this
      ensures Resting(Snap()) && Evolves(old(Snap()), Snap()) && SameRequests(old(Snap()), Snap())
      ensures old(tasks)[t].terminal.Some? ==>
                var o := old(tasks)[t].terminal.value.outcome;
                r == Answered(o) && t in Deliver(old(Snap()), token, o).tasks && Snap() == MarkObserved(Deliver(old(Snap()), token, o), t)
      ensures old(tasks)[t].terminal.None? ==> r == Later && Snap() == Register(old(Snap()), token)
    {
      hide Inv, Tidy, Resting, Evolves, MarkObserved, Deliver, Register, EndsWith;
      ghost var s := Snap();
      RestingIs(s);
      PhaseKnown(s, t);
      if tasks[t].terminal.Some? {
        EndHolds(s, t);
        var outcome := TakeOutcome(t);
        EndIs(s, t, outcome);
        r := Answered(outcome);
      } else {
        RegisterRests(s, t);
        RegisterForm(s, token);
        AddObserver(token);
        r := Later;
      }
    }

    static lemma ClaimedAndObserved(s: RunState, s1: RunState, s': RunState, t: TaskId, token: Token, r: Observation)
      requires token in s.tokens && s.tokens[token] == t && t in s.tasks && !s.tasks[t].claimed && s1 == Claim(s, t)
      requires s1.tasks[t].terminal.Some? ==>
                 var o := s1.tasks[t].terminal.value.outcome;
                 r == Answered(o) && t in Deliver(s1, token, o).tasks && s' == MarkObserved(Deliver(s1, token, o), t)
      requires s1.tasks[t].terminal.None? ==> r == Later && s' == Register(s1, token)
      ensures Observed(s, s', token, r)
    {
    }

    method Close()
      modifies this
      ensures Snap() == CloseRun(old(Snap()))
    {
      if publicOutcome.None? {
        publicOutcome := Some(Cancelled);
        hostSettled := true;
      }
      closed := true;
    }

    /** The host cancels the run: it is reported cancelled unless an outcome was reported before,
        and every task is cancelled, in the order of creation. */
    method CancelRun() returns (accepted: bool)
      requires Resting(Snap())
      modifies this
      ensures Resting(Snap()) && Evolves(old(Snap()), Snap())
      ensures issued == old(issued) && minted == old(minted)
      ensures accepted <==> !old(closed)
      ensures !accepted ==> Snap() == old(Snap())
      ensures accepted ==> closed && AllDone(Snap())
      ensures accepted ==> publicOutcome == if old(publicOutcome).None? then Some(Cancelled) else old(publicOutcome)
      ensures accepted && hooked ==> finalOutcome == publicOutcome
    {
      hide Inv, Tidy, Resting, Evolves, Progress, Unsettled, Told, NoLiveChild, EndsWith, AllDone, CloseRun, Cascade, Lost, Alone, Falls, Over, Under, CutOff, CutGoesOn;
      ghost var s := Snap();
      RestingIs(s);
      if closed { EvolvesRefl(s); return false; }
      CloseKeeps(s);
      CloseTidy(s);
      CloseForm(s);
      Close();
      ghost var s1 := Snap();
      CascadeRefl(s1);
      EvolvesRefl(s1);
      var n := nextTaskId;
      var id := 1;
      while id < n
        invariant 1 <= id <= n == nextTaskId
        invariant Steady(Snap()) && Cascade(s1, Snap()) && Evolves(s1, Snap())
        invariant closed && publicOutcome == s1.publicOutcome && hooked == s1.hooked
        invariant forall t :: 1 <= t < id ==> !Snap().Live(t)
        invariant tasks.Keys == s1.tasks.Keys
      {
        ghost var s2 := Snap();
        IdKnown(s2, id);
        var changed := CancelTaskById(id);
        FallsCuts(s2, Snap(), {id} + Under(s2, id), Over(s2, id));
        CancelTidy(s2, Snap(), {id});
        StillNoneLost(s2, Snap());
        ProgressCascade(s2, Snap(), {}, {}, {id});
        CascadeTrans(s1, s2, Snap());
        EvolvesTrans(s1, s2, Snap());
        SameIds(s2, Snap());
        SameLogs(s2, Snap());
        NoneRevived(s2, Snap(), id);
        id := id + 1;
      }
      AllCancelled(Snap());
      StillResting(s1, Snap());
      CancelRests(s1, Snap());
      EvolvesTrans(s, s1, Snap());
      SameLogs(s1, Snap());
      return true;
    }
  }

  // -------------------------------------------------------------- whole runs

  /** What can happen next: a turn of the run loop, or something the guest or the host asks for. */
  datatype Action =
    | Turn(guest: GuestStep)
    | HandlerAnswers(request: Request, tail: bool, answer: Answer)
    | Spawns(caller: TaskId, detached: bool)
    | Cancels(token: Token)
    | Takes(token: Token)
    | Observes(token: Token)
    | CancelsRun

  /** The same guest step, performing the request with the number `r`. */
  function Numbered(g: GuestStep, r: Request): GuestStep {
    match g
    case Broke(_) => Broke(r)
    case Performed(_, tail, effect) => Performed(r, tail, effect)
    case _ => g
  }

  /** `trail` is the course of a run: it starts afresh, rests after every action, and never goes back. */
  ghost predicate Course(trail: seq<RunState>) {
    && |trail| >= 1 && trail[0] == Initial(trail[0].traps)
    && (forall i {:trigger trail[i]} :: 0 <= i < |trail| ==> Resting(trail[i]))
    && (forall i, j {:trigger trail[i], trail[j]} :: 0 <= i <= j < |trail| ==> Evolves(trail[i], trail[j]))
  }

  lemma CourseGrows(trail: seq<RunState>, s: RunState)
    requires Course(trail) && Resting(s) && Evolves(trail[|trail| - 1], s)
    ensures Course(trail + [s])
  {
    hide Resting, Evolves, Initial;
    var next := trail + [s];
    forall i, j | 0 <= i <= j < |next| ensures Evolves(next[i], next[j]) {
      EvolvesRefl(s);
      if j == |trail| && i < |trail| {
        assert Evolves(trail[i], trail[|trail| - 1]);
        EvolvesTrans(trail[i], trail[|trail| - 1], s);
      }
    }
  }

  /** Requests below `r` may have been performed, and tokens come from the allocator. */
  ghost predicate Below(s: RunState, r: Request, issued: seq<nat>) {
    && (forall x :: x in s.issued ==> x < r)
    && (forall x :: x in s.minted ==> x in issued)
  }

  /** Takes action `a` if it is possible now, with request number `r` if it needs one and a token
      of the allocator, unless that is exhausted. */
  method Act(run: Run, allocator: CapabilityAllocator, a: Action, r: Request, ghost before: seq<nat>)
    requires Resting(run.Snap()) && allocator.Valid() && before <= allocator.issued && Below(run.Snap(), r, allocator.issued[|before|..])
    modifies run, allocator
    ensures Resting(run.Snap()) && Evolves(old(run.Snap()), run.Snap())
    ensures allocator.Valid() && before <= allocator.issued && Below(run.Snap(), r + 1, allocator.issued[|before|..])
  {
    hide Resting, Evolves, Run.Settled, Run.StepTaken, Run.Observed, EndsWith, Told, NoLiveChild, AllDone, Alone, EndsAlone, Cascade, Mix, Unmix, SpawnTask;
    EvolvesRefl(run.Snap());
    match a {
      case Turn(g) =>
        if !run.closed && !run.asleep { var result := run.RunHead(Numbered(g, r)); }
      case HandlerAnswers(request, tail, answer) =>
        if request in run.handlers { run.SettleHandler(request, tail, answer); }
      case Spawns(caller, detached) =>
        if caller in run.tasks && run.tasks[caller].phase != Done { SpawnNext(run, allocator, caller, detached, r, before); }
      case Cancels(token) => var changed := run.CancelToken(token);
      case Takes(token) => var value := run.TakeValue(token);
      case Observes(token) => var observation := run.Observe(token);
      case CancelsRun => var accepted := run.CancelRun();
    }
  }

  /** Creates a task with the next token, if there is one. */
  method SpawnNext(run: Run, allocator: CapabilityAllocator, caller: TaskId, detached: bool, ghost r: Request, ghost before: seq<nat>)
    requires Resting(run.Snap()) && run.Snap().Live(caller)
    requires allocator.Valid() && before <= allocator.issued && Below(run.Snap(), r, allocator.issued[|before|..])
    modifies run, allocator
    ensures Resting(run.Snap()) && Evolves(old(run.Snap()), run.Snap())
    ensures allocator.Valid() && before <= allocator.issued && Below(run.Snap(), r, allocator.issued[|before|..])
  {
    hide Resting, Evolves, Mix, Unmix;
    ghost var issued := allocator.issued;
    EvolvesRefl(run.Snap());
    var cap := allocator.Allocate();
    if cap.Ok? {
      assert allocator.issued[|before|..] == issued[|before|..] + [cap.value];
      var token := run.Spawn(caller, detached, cap.value);
    }
  }

  /** Plays any script on a new run, skipping what is not possible when its turn comes. The
      allocator may have served other runs before; no token of theirs is used again. */
  method Play(script: seq<Action>, allocator: CapabilityAllocator, resumeTraps: Request -> bool, scopesFail: TaskId -> bool, unreadable: Raw -> bool)
    returns (run: Run, ghost trail: seq<RunState>)
    requires allocator.Valid()
    modifies allocator
    ensures fresh(run) && |trail| == |script| + 1
    ensures Course(trail) && run.Snap() == trail[|script|]
    ensures allocator.Valid() && old(allocator.issued) <= allocator.issued
    ensures forall c :: c in run.minted ==> c in allocator.issued && c !in old(allocator.issued)
  {
    hide Resting, Evolves, Course, Mix, Unmix;
    ghost var before := allocator.issued;
    run := new Run(resumeTraps, scopesFail, unreadable);
    trail := [run.Snap()];
    CourseStarts(resumeTraps);
    var i := 0;
    while i < |script|
      invariant 0 <= i <= |script| && |trail| == i + 1 && fresh(run)
      invariant Course(trail) && run.Snap() == trail[i] && Resting(run.Snap())
      invariant allocator.Valid() && before <= allocator.issued && Below(run.Snap(), i, allocator.issued[|before|..])
    {
      Act(run, allocator, script[i], i, before);
      CourseGrows(trail, run.Snap());
      trail := trail + [run.Snap()];
      i := i + 1;
    }
    forall c | c in run.minted ensures c in allocator.issued && c !in before {
      LaterIssued(allocator.issued, |before|, c);
    }
  }

  lemma LaterIssued(issued: seq<nat>, n: nat, c: nat)
    requires n <= |issued| && (forall i, j :: 0 <= i < j < |issued| ==> issued[i] != issued[j]) && c in issued[n..]
    ensures c in issued && c !in issued[..n]
  {
    var i :| n <= i < |issued| && issued[i] == c;
  }

  lemma CourseStarts(traps: Request -> bool)
    ensures Course([Initial(traps)])
  {
    InitialRests(traps);
    EvolvesRefl(Initial(traps));
  }
}
