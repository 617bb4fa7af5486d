/** The updates that the steps of a run make besides completing and cancelling tasks, and that
    each of them keeps the invariants. */
module TaskSteps {
  import opened Options
  import opened TaskModel
  import opened TaskHearing
  import opened TaskLemmas
  import opened TaskProgress

  // ---------------------------------------------------------------- dequeuing

  function PopHead(s: RunState): RunState
    requires s.readyQueue != []
  {
    s.(readyQueue := s.readyQueue[1..])
  }

  /** The head of the queue is being run. */
  function BeginStep(s: RunState): RunState
    requires s.readyQueue != []
  {
    s.(readyQueue := s.readyQueue[1..], hooked := true, running := Some(s.readyQueue[0]))
  }

  lemma PopTail(q: seq<TaskId>)
    requires q != [] && NoDup(q)
    ensures NoDup(q[1..]) && q[0] !in q[1..]
    ensures forall t :: t in q <==> t == q[0] || t in q[1..]
  {
    assert q == [q[0]] + q[1..];
    forall t | t in q[1..] ensures t in q {}
  }

  lemma PopKeeps(s: RunState)
    requires Inv(s) && s.readyQueue != [] && !s.Live(s.readyQueue[0])
    ensures Inv(PopHead(s))
  {
    hide Tree, Subtrees, Waits, Requests, Consumers, Failures, Settled, Answers, Askings, Gifts;
    var s' := PopHead(s);
    HearingFrame(s, s');
    PopTail(s.readyQueue);
    PopDiff(s, s');
    EndsFrame(s, s');
    WaitsSame(s, s');
    ConsumersFrame(s, s');
    forall t | t in s'.tasks ensures PhaseOk(s', t) { assert PhaseOk(s, t); }
  }

  ghost predicate QueueOnly(s: RunState, s': RunState) {
    s' == s.(readyQueue := s'.readyQueue, hooked := s'.hooked, running := s'.running)
  }

  lemma PopDiff(s: RunState, s': RunState)
    requires QueueOnly(s, s')
    ensures SameTerminals(s, s') && SameOutcomes(s, s') && SameClaims(s, s') && Requests(s') == Requests(s)
  {
  }

  /** Waits do not depend on the queue. */
  lemma WaitsSame(s: RunState, s': RunState)
    requires Waits(s) && s'.tasks == s.tasks && s'.frames == s.frames && s'.handlers == s.handlers && s'.issued == s.issued
    ensures Waits(s')
  {
    forall t | t in s'.tasks ensures BlockerOk(s', t) { assert BlockerOk(s, t); }
  }

  lemma BeginPhases(s: RunState)
    requires Phases(s) && Queue(s) && s.readyQueue != [] && s.Live(s.readyQueue[0]) && s.running.None?
    ensures Phases(BeginStep(s)) && Queue(BeginStep(s))
    ensures s.tasks[s.readyQueue[0]].phase == Ready
  {
    var s' := BeginStep(s);
    PopTail(s.readyQueue);
    forall t | t in s'.tasks ensures PhaseOk(s', t) { assert PhaseOk(s, t); }
  }

  lemma BeginKeeps(s: RunState)
    requires Inv(s) && s.readyQueue != [] && s.Live(s.readyQueue[0]) && s.running.None?
    ensures Inv(BeginStep(s))
    ensures s.tasks[s.readyQueue[0]].phase == Ready
  {
    hide Tree, Phases, Queue, Subtrees, Waits, Requests, Consumers, Failures, Settled, Answers, Askings, Gifts;
    var s' := BeginStep(s);
    HearingFrame(s, s');
    BeginPhases(s);
    PopDiff(s, s');
    EndsFrame(s, s');
    WaitsSame(s, s');
    ConsumersFrame(s, s');
  }

  /** The work of the running task has been taken up. */
  function TakeWork(s: RunState, t: TaskId): RunState
    requires t in s.tasks
  {
    WithTask(s, t, s.tasks[t].(work := Idle))
  }

  lemma TakeWorkPhases(s: RunState, t: TaskId)
    requires Phases(s) && Queue(s) && s.running == Some(t) && t in s.tasks
    ensures Phases(TakeWork(s, t)) && Queue(TakeWork(s, t))
  {
    var s' := TakeWork(s, t);
    forall u | u in s'.tasks ensures PhaseOk(s', u) { assert PhaseOk(s, u); }
  }

  lemma TakeWorkWaits(s: RunState, t: TaskId)
    requires Waits(s) && t in s.tasks
    ensures Waits(TakeWork(s, t))
  {
    var s' := TakeWork(s, t);
    forall u | u in s'.tasks ensures BlockerOk(s', u) { assert BlockerOk(s, u); }
  }

  lemma TakeWorkDiff(s: RunState, t: TaskId)
    requires t in s.tasks
    ensures var s' := TakeWork(s, t); SameTerminals(s, s') && SameOutcomes(s, s') && SameClaims(s, s') && Requests(s') == Requests(s)
  {
  }

  lemma TakeWorkKeeps(s: RunState, t: TaskId)
    requires Inv(s) && s.running == Some(t) && t in s.tasks
    ensures Inv(TakeWork(s, t))
  {
    hide Tree, Phases, Queue, Subtrees, Waits, Requests, Consumers, Failures, Settled, Answers, Askings, Gifts;
    TakeWorkPhases(s, t);
    TakeWorkWaits(s, t);
    TakeWorkDiff(s, t);
    HearingFrame(s, TakeWork(s, t));
    EndsFrame(s, TakeWork(s, t));
    ConsumersFrame(s, TakeWork(s, t));
  }

  // ---------------------------------------------------------------- effect requests

  /** The guest performed a new effect request `r` in task `t`. */
  function Issue(s: RunState, t: TaskId, r: Request): RunState {
    s.(frames := s.frames[r := t], issued := s.issued + {r})
  }

  lemma IssueWaits(s: RunState, t: TaskId, r: Request)
    requires Waits(s) && Requests(s) && r !in s.issued
    ensures Waits(Issue(s, t, r))
  {
    var s' := Issue(s, t, r);
    assert r !in s.frames && r !in s.handlers;
    forall u | u in s'.tasks ensures BlockerOk(s', u) { assert BlockerOk(s, u); }
  }

  lemma IssuePhases(s: RunState, t: TaskId, r: Request)
    requires Phases(s) && Queue(s) && Requests(s) && r !in s.issued
    ensures var s' := Issue(s, t, r); Phases(s') && Queue(s') && Requests(s')
  {
    var s' := Issue(s, t, r);
    assert r !in s.frames;
    forall u | u in s'.tasks ensures PhaseOk(s', u) { assert PhaseOk(s, u); }
  }

  lemma IssueDiff(s: RunState, t: TaskId, r: Request)
    ensures var s' := Issue(s, t, r); SameTerminals(s, s') && SameOutcomes(s, s') && SameClaims(s, s')
  {
  }

  lemma IssueKeeps(s: RunState, t: TaskId, r: Request)
    requires Inv(s) && r !in s.issued
    ensures Inv(Issue(s, t, r))
  {
    hide Tree, Phases, Queue, Subtrees, Waits, Requests, Consumers, Failures, Settled, Answers, Askings, Gifts;
    IssuePhases(s, t, r);
    IssueWaits(s, t, r);
    IssueDiff(s, t, r);
    IssueHearing(s, Issue(s, t, r), t, r);
    EndsFrame(s, Issue(s, t, r));
    ConsumersFrame(s, Issue(s, t, r));
  }

  function DropRequest(s: RunState, r: Request): RunState {
    s.(frames := s.frames - {r})
  }

  lemma DropRequestWaits(s: RunState, r: Request)
    requires Waits(s) && Phases(s) && (r in s.frames ==> s.IsDone(s.frames[r]))
    ensures Waits(DropRequest(s, r))
  {
    var s' := DropRequest(s, r);
    forall u | u in s'.tasks ensures BlockerOk(s', u) { assert PhaseOk(s, u) && BlockerOk(s, u); }
  }

  lemma DropRequestPhases(s: RunState, r: Request)
    requires Phases(s) && Queue(s) && Requests(s)
    requires r in s.frames ==> s.IsDone(s.frames[r])
    ensures var s' := DropRequest(s, r); Phases(s') && Queue(s') && Requests(s')
  {
    var s' := DropRequest(s, r);
    forall u | u in s'.tasks ensures PhaseOk(s', u) { assert PhaseOk(s, u); }
  }

  lemma DropRequestDiff(s: RunState, r: Request)
    ensures var s' := DropRequest(s, r); SameTerminals(s, s') && SameOutcomes(s, s') && SameClaims(s, s')
  {
  }

  lemma DropRequestKeeps(s: RunState, r: Request)
    requires Inv(s) && (r in s.frames ==> s.IsDone(s.frames[r]))
    ensures Inv(DropRequest(s, r))
  {
    hide Tree, Phases, Queue, Subtrees, Waits, Requests, Consumers, Failures, Settled, Answers, Askings, Gifts;
    DropRequestPhases(s, r);
    DropRequestWaits(s, r);
    DropRequestDiff(s, r);
    DropRequestHearing(s, DropRequest(s, r), r);
    EndsFrame(s, DropRequest(s, r));
    ConsumersFrame(s, DropRequest(s, r));
  }

  // ---------------------------------------------------------------- waiting

  /** The capability of `t` gets its one consumer. */
  function Claim(s: RunState, t: TaskId): RunState
    requires t in s.tasks
  {
    WithTask(s, t, s.tasks[t].(claimed := true))
  }

  lemma ClaimConsumers(s: RunState, t: TaskId)
    requires Consumers(s) && t in s.tasks
    ensures Consumers(Claim(s, t))
  {
    var s' := Claim(s, t);
    forall u | u in s'.tasks ensures ConsumerOk(s', u) { assert ConsumerOk(s, u); }
  }

  lemma ClaimDiff(s: RunState, t: TaskId)
    requires t in s.tasks
    ensures var s' := Claim(s, t); SameScheduling(s, s') && SameOutcomes(s, s') && SameWaiters(s, s')
  {
  }

  lemma ClaimKeeps(s: RunState, t: TaskId)
    requires Inv(s) && t in s.tasks
    ensures Inv(Claim(s, t))
  {
    hide Tree, Phases, Queue, Subtrees, Waits, Requests, Consumers, Failures, Settled, Answers, Askings, Gifts;
    ClaimConsumers(s, t);
    ClaimDiff(s, t);
    HearingFrame(s, Claim(s, t));
    SchedulingFrame(s, Claim(s, t));
    WaitsFrame(s, Claim(s, t));
    EndsFrame(s, Claim(s, t));
  }

  /** The running task `id` waits for task `t`, which it has claimed. */
  function BlockOnTask(s: RunState, id: TaskId, t: TaskId, r: Request): RunState
    requires id in s.tasks && t in s.tasks
  {
    var waiting := s.tasks[id := s.tasks[id].(phase := Waiting, blocker := OnTask(t, r))];
    s.(tasks := waiting[t := waiting[t].(waiters := waiting[t].waiters + [Waiter(id, r)])], running := None,
       asked := s.asked[r := Asking(id, t, true)])
  }

  ghost predicate MayBlock(s: RunState, id: TaskId, r: Request) {
    && id in s.tasks && s.running == Some(id) && s.tasks[id].phase == Ready && s.tasks[id].work == Idle
    && r in s.frames && s.frames[r] == id && r in s.issued
  }

  /** Blocking changes phases, blockers and waiter lists only. */
  ghost predicate BlockedTask(a: Task, b: Task) {
    b == a.(phase := b.phase, blocker := b.blocker, waiters := b.waiters) && (b.phase == a.phase || (a.phase == Ready && b.phase == Waiting))
  }

  lemma BlockedForm(s: RunState, id: TaskId, t: TaskId, r: Request)
    requires id in s.tasks && s.tasks[id].phase == Ready && t in s.tasks
    ensures var s' := BlockOnTask(s, id, t, r);
            && s' == s.(running := None, tasks := s'.tasks, asked := s.asked[r := Asking(id, t, true)])
            && s'.tasks.Keys == s.tasks.Keys
            && (forall u {:trigger s'.tasks[u]} :: u in s.tasks ==> BlockedTask(s.tasks[u], s'.tasks[u]) && (u != t ==> s'.tasks[u].waiters == s.tasks[u].waiters))
  {
  }

  lemma BlockOnTaskPhases(s: RunState, id: TaskId, t: TaskId, r: Request)
    requires Phases(s) && Queue(s) && MayBlock(s, id, r) && t in s.tasks
    ensures var s' := BlockOnTask(s, id, t, r); Phases(s') && Queue(s')
  {
    var s' := BlockOnTask(s, id, t, r);
    forall u | u in s'.tasks ensures PhaseOk(s', u) { assert PhaseOk(s, u); }
  }

  lemma BlockOnTaskBlockers(s: RunState, id: TaskId, t: TaskId, r: Request)
    requires Waits(s) && MayBlock(s, id, r) && s.Live(t) && s.tasks[t].waiters == []
    ensures var s' := BlockOnTask(s, id, t, r); forall u :: u in s'.tasks ==> BlockerOk(s', u)
  {
    var s' := BlockOnTask(s, id, t, r);
    assert s'.tasks[t].waiters == [Waiter(id, r)];
    forall u | u in s'.tasks ensures BlockerOk(s', u) {
      assert BlockerOk(s, u);
      if u == id { assert Waiter(id, r) in s'.tasks[t].waiters; }
    }
  }

  lemma BlockOnTaskWaiters(s: RunState, id: TaskId, t: TaskId, r: Request)
    requires Waits(s) && MayBlock(s, id, r) && PhaseOk(s, id) && s.Live(t) && s.tasks[t].waiters == []
    ensures var s' := BlockOnTask(s, id, t, r);
            forall u, w {:trigger w in s'.tasks[u].waiters} :: u in s'.tasks && w in s'.tasks[u].waiters ==>
              && w.task in s'.tasks && w.request in s'.issued && (w.request in s'.frames ==> s'.frames[w.request] == w.task)
              && (s'.Live(u) && s'.Live(w.task) ==> s'.tasks[w.task].blocker == OnTask(u, w.request))
  {
    hide BlockerOk;
    var s' := BlockOnTask(s, id, t, r);
    assert s'.tasks[t].waiters == [Waiter(id, r)];
    forall u, w | u in s'.tasks && w in s'.tasks[u].waiters
      ensures w.task in s'.tasks && w.request in s'.issued && (w.request in s'.frames ==> s'.frames[w.request] == w.task)
              && (s'.Live(u) && s'.Live(w.task) ==> s'.tasks[w.task].blocker == OnTask(u, w.request))
    {
      if u != t { assert w in s.tasks[u].waiters; }
    }
  }

  lemma BlockOnTaskWaits(s: RunState, id: TaskId, t: TaskId, r: Request)
    requires Waits(s) && MayBlock(s, id, r) && PhaseOk(s, id) && s.Live(t) && s.tasks[t].waiters == []
    ensures Waits(BlockOnTask(s, id, t, r))
  {
    hide BlockerOk;
    BlockOnTaskBlockers(s, id, t, r);
    BlockOnTaskWaiters(s, id, t, r);
  }

  lemma BlockOnTaskConsumers(s: RunState, id: TaskId, t: TaskId, r: Request)
    requires Consumers(s) && id in s.tasks && t in s.tasks && s.tasks[t].claimed && s.tasks[t].capability !in s.observers
    requires s.Live(id)
    ensures Consumers(BlockOnTask(s, id, t, r))
  {
    var s' := BlockOnTask(s, id, t, r);
    forall u | u in s'.tasks ensures ConsumerOk(s', u) { assert ConsumerOk(s, u); }
  }

  lemma BlockOnTaskDiff(s: RunState, id: TaskId, t: TaskId, r: Request)
    requires id in s.tasks && s.tasks[id].phase == Ready && t in s.tasks
    ensures var s' := BlockOnTask(s, id, t, r); SameTerminals(s, s') && SameOutcomes(s, s') && Requests(s') == Requests(s)
  {
    hide BlockOnTask;
    BlockedForm(s, id, t, r);
  }

  lemma BlockOnTaskKeeps(s: RunState, id: TaskId, t: TaskId, r: Request)
    requires Inv(s) && MayBlock(s, id, r) && s.Live(t) && s.tasks[t].waiters == []
    requires s.tasks[t].claimed && s.tasks[t].capability !in s.observers && r !in s.asked && Unasked(s, t)
    ensures Inv(BlockOnTask(s, id, t, r))
  {
    At(s, id);
    hide Tree, Phases, Queue, Subtrees, Waits, Requests, Consumers, Failures, Settled, Answers, Askings, Gifts;
    BlockOnTaskPhases(s, id, t, r);
    BlockOnTaskWaits(s, id, t, r);
    BlockOnTaskConsumers(s, id, t, r);
    BlockOnTaskDiff(s, id, t, r);
    BlockOnTaskHearing(s, id, t, r);
    EndsFrame(s, BlockOnTask(s, id, t, r));
  }

  lemma BlockOnTaskAskings(s: RunState, id: TaskId, t: TaskId, r: Request)
    requires Askings(s) && MayBlock(s, id, r) && PhaseOk(s, id) && s.Live(t) && s.tasks[t].waiters == [] && s.tasks[t].claimed
    requires r !in s.asked && Unasked(s, t)
    ensures Askings(BlockOnTask(s, id, t, r))
  {
    var s' := BlockOnTask(s, id, t, r);
    assert s'.tasks[t].waiters == [Waiter(id, r)];
    assert AskedOk(s', r) && WaiterOk(s', t, Waiter(id, r));
    hide AskedOk, WaiterOk, Askings, Unasked;
    AskedMore(s, s', r);
  }

  lemma BlockOnTaskHearing(s: RunState, id: TaskId, t: TaskId, r: Request)
    requires Requests(s) && Answers(s) && Askings(s) && Gifts(s) && MayBlock(s, id, r) && PhaseOk(s, id)
    requires s.Live(t) && s.tasks[t].waiters == [] && s.tasks[t].claimed && r !in s.asked && Unasked(s, t)
    ensures var s' := BlockOnTask(s, id, t, r); Answers(s') && Askings(s') && Gifts(s')
  {
    forall e | e in s.resumed ensures e.request != r {}
    hide Requests;
    BlockOnTaskAskings(s, id, t, r);
    hide Answers, Askings, Gifts, Unasked;
    AnswersFrame(s, BlockOnTask(s, id, t, r));
    GiftsFrame(s, BlockOnTask(s, id, t, r));
  }

  /** The running task `id` waits for an asynchronous handler. */
  function BlockOnHandler(s: RunState, id: TaskId, r: Request): RunState
    requires id in s.tasks
  {
    s.(tasks := s.tasks[id := s.tasks[id].(phase := Waiting, blocker := OnHandler(r))],
       handlers := s.handlers[r := id], running := None)
  }

  lemma BlockOnHandlerPhases(s: RunState, id: TaskId, r: Request)
    requires Phases(s) && Queue(s) && Requests(s) && MayBlock(s, id, r)
    ensures var s' := BlockOnHandler(s, id, r); Phases(s') && Queue(s') && Requests(s')
  {
    var s' := BlockOnHandler(s, id, r);
    forall u | u in s'.tasks ensures PhaseOk(s', u) { assert PhaseOk(s, u); }
  }

  lemma BlockOnHandlerWaits(s: RunState, id: TaskId, r: Request)
    requires Waits(s) && MayBlock(s, id, r) && PhaseOk(s, id)
    ensures Waits(BlockOnHandler(s, id, r))
  {
    var s' := BlockOnHandler(s, id, r);
    forall u | u in s'.tasks ensures BlockerOk(s', u) { assert BlockerOk(s, u); }
  }

  lemma BlockOnHandlerDiff(s: RunState, id: TaskId, r: Request)
    requires s.Live(id)
    ensures var s' := BlockOnHandler(s, id, r); SameTerminals(s, s') && SameOutcomes(s, s') && SameClaims(s, s')
  {
  }

  lemma BlockOnHandlerHearing(s: RunState, id: TaskId, r: Request)
    requires Answers(s) && Askings(s) && Gifts(s) && s.Live(id) && !s.tasks[id].blocker.OnTask?
    ensures var s' := BlockOnHandler(s, id, r); Answers(s') && Askings(s') && Gifts(s')
  {
    hide Answers, Askings, Gifts;
    HearingFrame(s, BlockOnHandler(s, id, r));
  }

  lemma BlockOnHandlerKeeps(s: RunState, id: TaskId, r: Request)
    requires Inv(s) && MayBlock(s, id, r)
    ensures Inv(BlockOnHandler(s, id, r))
  {
    At(s, id);
    hide Tree, Phases, Queue, Subtrees, Waits, Requests, Consumers, Failures, Settled, Answers, Askings, Gifts;
    BlockOnHandlerPhases(s, id, r);
    BlockOnHandlerWaits(s, id, r);
    BlockOnHandlerDiff(s, id, r);
    BlockOnHandlerHearing(s, id, r);
    EndsFrame(s, BlockOnHandler(s, id, r));
    ConsumersFrame(s, BlockOnHandler(s, id, r));
  }

  /** The handler of request `r` has answered; nothing else is going to wake its task. */
  function Unhook(s: RunState, r: Request): RunState
    requires r in s.handlers && s.handlers[r] in s.tasks
  {
    var id := s.handlers[r];
    s.(handlers := s.handlers - {r},
       tasks := if s.Live(id) then s.tasks[id := s.tasks[id].(blocker := InHand)] else s.tasks)
  }

  lemma UnhookPhases(s: RunState, r: Request)
    requires Phases(s) && Queue(s) && Requests(s) && Waits(s) && r in s.handlers && s.handlers[r] in s.tasks
    ensures var s' := Unhook(s, r); Phases(s') && Queue(s') && Requests(s')
  {
    var s' := Unhook(s, r);
    forall u | u in s'.tasks ensures PhaseOk(s', u) { assert PhaseOk(s, u); }
  }

  lemma UnhookWaits(s: RunState, r: Request)
    requires Waits(s) && r in s.handlers && s.handlers[r] in s.tasks && PhaseOk(s, s.handlers[r])
    ensures Waits(Unhook(s, r))
  {
    var s' := Unhook(s, r);
    forall u | u in s'.tasks ensures BlockerOk(s', u) { assert BlockerOk(s, u); }
  }

  lemma UnhookDiff(s: RunState, r: Request)
    requires r in s.handlers && s.handlers[r] in s.tasks
    ensures var s' := Unhook(s, r); SameTerminals(s, s') && SameOutcomes(s, s') && SameClaims(s, s')
  {
  }

  lemma UnhookHearing(s: RunState, r: Request)
    requires Answers(s) && Askings(s) && Gifts(s) && Waits(s) && r in s.handlers && s.handlers[r] in s.tasks
    ensures var s' := Unhook(s, r); Answers(s') && Askings(s') && Gifts(s')
  {
    hide Answers, Askings, Gifts;
    HearingFrame(s, Unhook(s, r));
  }

  lemma UnhookKeeps(s: RunState, r: Request)
    requires Inv(s) && r in s.handlers && s.handlers[r] in s.tasks
    ensures Inv(Unhook(s, r))
  {
    At(s, s.handlers[r]);
    hide Tree, Phases, Queue, Subtrees, Waits, Requests, Consumers, Failures, Settled, Answers, Askings, Gifts;
    UnhookPhases(s, r);
    UnhookWaits(s, r);
    UnhookDiff(s, r);
    UnhookHearing(s, r);
    EndsFrame(s, Unhook(s, r));
    ConsumersFrame(s, Unhook(s, r));
  }

  // ---------------------------------------------------------------- spawning and observing

  function NewTask(cap: Token, owner: Option<TaskId>, detached: bool): Task {
    Task(cap, false, owner, detached, Ready, Starter, None, None, [], [], Unblocked)
  }

  /** Task `s.nextTaskId` is created by task `caller`; a detached task has no owner. */
  function SpawnTask(s: RunState, caller: TaskId, detached: bool, cap: Token): RunState
    requires caller in s.tasks
  {
    var id := s.nextTaskId;
    var owned := if detached then s.tasks
                 else s.tasks[caller := s.tasks[caller].(children := s.tasks[caller].children + [id])];
    s.(nextTaskId := id + 1,
       tasks := owned[id := NewTask(cap, if detached then None else Some(caller), detached)],
       tokens := s.tokens[cap := id],
       minted := s.minted[cap := id],
       readyQueue := s.readyQueue + [id],
       asleep := false)
  }

  function Enrolled(s: RunState, id: TaskId, task: Task): RunState {
    s.(tasks := s.tasks[id := task], readyQueue := s.readyQueue + [id], asleep := false)
  }

  function Minted(s: RunState, cap: Token, id: TaskId): RunState {
    s.(tokens := s.tokens[cap := id], minted := s.minted[cap := id])
  }

  function WithChild(s: RunState, owner: TaskId, id: TaskId, detached: bool): RunState
    requires owner in s.tasks
  {
    if detached then s else WithTask(s, owner, s.tasks[owner].(children := s.tasks[owner].children + [id]))
  }

  /** Creating a task piece by piece. */
  lemma EnrolledForm(s: RunState, caller: TaskId, detached: bool, cap: Token)
    requires caller in s.tasks
    ensures var id := s.nextTaskId;
            var owned := WithChild(s.(nextTaskId := id + 1), caller, id, detached);
            SpawnTask(s, caller, detached, cap)
              == Minted(Enrolled(owned, id, NewTask(cap, if detached then None else Some(caller), detached)), cap, id)
  {
  }

  ghost predicate MaySpawn(s: RunState, caller: TaskId, cap: Token) {
    s.Live(caller) && cap != 0 && cap !in s.minted
  }

  lemma SpawnOwners(s: RunState, caller: TaskId, detached: bool, cap: Token)
    requires Tree(s) && MaySpawn(s, caller, cap)
    ensures var s' := SpawnTask(s, caller, detached, cap); forall t {:trigger OwnerOk(s', t)} :: t in s'.tasks ==> OwnerOk(s', t)
  {
    var s' := SpawnTask(s, caller, detached, cap);
    assert s.nextTaskId !in s.tasks;
    forall t | t in s'.tasks ensures OwnerOk(s', t) {
      if t != s.nextTaskId { assert OwnerOk(s, t); }
    }
  }

  lemma SpawnTree(s: RunState, caller: TaskId, detached: bool, cap: Token)
    requires Tree(s) && MaySpawn(s, caller, cap)
    ensures Tree(SpawnTask(s, caller, detached, cap))
  {
    var s' := SpawnTask(s, caller, detached, cap);
    var id := s.nextTaskId;
    assert id !in s.tasks && caller in s.tasks;
    SpawnOwners(s, caller, detached, cap);
    hide OwnerOk;
    forall t, c | t in s'.tasks && c in s'.tasks[t].children ensures c in s'.tasks && s'.tasks[c].owner == Some(t) {
      if t in s.tasks && c != id { assert c in s.tasks[t].children; }
    }
  }

  lemma SpawnEnds(s: RunState, caller: TaskId, detached: bool, cap: Token)
    requires Tree(s) && Subtrees(s) && Failures(s) && MaySpawn(s, caller, cap)
    ensures var s' := SpawnTask(s, caller, detached, cap); Subtrees(s') && Failures(s')
  {
    var s' := SpawnTask(s, caller, detached, cap);
    var id := s.nextTaskId;
    assert id !in s.tasks && caller in s.tasks;
    forall t, c | t in s'.tasks && c in s'.tasks[t].children
      ensures s'.IsDone(t) ==> s'.IsDone(c)
      ensures EndedWithValue(s', t) ==> !FailedUnobserved(s', c)
    {
      if t in s.tasks && c != id { assert c in s.tasks[t].children; }
    }
  }

  lemma SpawnQueue(s: RunState, caller: TaskId, detached: bool, cap: Token)
    requires Tree(s) && Queue(s) && MaySpawn(s, caller, cap)
    ensures Queue(SpawnTask(s, caller, detached, cap))
  {
    assert s.nextTaskId !in s.tasks && s.nextTaskId !in s.readyQueue && caller in s.tasks;
    hide Tree;
  }

  lemma SpawnPhases(s: RunState, caller: TaskId, detached: bool, cap: Token)
    requires Tree(s) && Phases(s) && Queue(s) && MaySpawn(s, caller, cap)
    ensures var s' := SpawnTask(s, caller, detached, cap); Phases(s') && Queue(s')
  {
    var s' := SpawnTask(s, caller, detached, cap);
    assert s.nextTaskId !in s.tasks && caller in s.tasks;
    SpawnQueue(s, caller, detached, cap);
    hide Queue, Tree;
    forall t | t in s'.tasks ensures PhaseOk(s', t) {
      if t != s.nextTaskId { assert PhaseOk(s, t); }
    }
  }

  lemma SpawnLost(s: RunState, caller: TaskId, detached: bool, cap: Token)
    requires Tree(s) && Requests(s) && MaySpawn(s, caller, cap)
    ensures NoNewLost(s, SpawnTask(s, caller, detached, cap))
  {
    var id := s.nextTaskId;
    assert id !in s.tasks;
    NeverResumed(s.resumed, id);
    LostFrame(s, SpawnTask(s, caller, detached, cap), id);
  }

  lemma {:induction false} NeverResumed(log: seq<Resumption>, t: TaskId)
    requires forall i :: 0 <= i < |log| ==> log[i].task != t
    ensures LastResumed(log, t) == None
  {
    if log != [] { NeverResumed(log[..|log| - 1], t); }
  }

  lemma SpawnWaits(s: RunState, caller: TaskId, detached: bool, cap: Token)
    requires Tree(s) && Waits(s) && MaySpawn(s, caller, cap)
    ensures Waits(SpawnTask(s, caller, detached, cap))
  {
    var s' := SpawnTask(s, caller, detached, cap);
    var id := s.nextTaskId;
    assert id !in s.tasks && caller in s.tasks;
    forall t | t in s'.tasks ensures BlockerOk(s', t) {
      if t != id { assert BlockerOk(s, t); }
    }
    forall t, w | t in s'.tasks && w in s'.tasks[t].waiters
      ensures w.task in s'.tasks && w.request in s'.issued && (w.request in s'.frames ==> s'.frames[w.request] == w.task)
              && (s'.Live(t) && s'.Live(w.task) ==> s'.tasks[w.task].blocker == OnTask(t, w.request))
    {
      assert w in s.tasks[t].waiters;
    }
  }

  lemma SpawnClaims(s: RunState, caller: TaskId, detached: bool, cap: Token)
    requires Tree(s) && Consumers(s) && MaySpawn(s, caller, cap)
    ensures var s' := SpawnTask(s, caller, detached, cap); forall t {:trigger ConsumerOk(s', t)} :: t in s'.tasks ==> ConsumerOk(s', t)
  {
    var s' := SpawnTask(s, caller, detached, cap);
    var id := s.nextTaskId;
    assert id !in s.tasks && caller in s.tasks;
    assert cap !in s.tokens && cap !in s.observers && cap !in s.completed;
    forall t | t in s'.tasks ensures ConsumerOk(s', t) {
      if t != id { assert ConsumerOk(s, t); }
    }
  }

  lemma SpawnConsumers(s: RunState, caller: TaskId, detached: bool, cap: Token)
    requires Tree(s) && Consumers(s) && MaySpawn(s, caller, cap)
    ensures Consumers(SpawnTask(s, caller, detached, cap))
  {
    assert s.nextTaskId !in s.tasks && caller in s.tasks && cap !in s.tokens && cap !in s.observers && cap !in s.completed;
    SpawnClaims(s, caller, detached, cap);
    hide ConsumerOk, Tree;
  }

  lemma SpawnSettled(s: RunState, caller: TaskId, detached: bool, cap: Token)
    requires Tree(s) && Settled(s) && MaySpawn(s, caller, cap)
    requires Tree(SpawnTask(s, caller, detached, cap))
    ensures Settled(SpawnTask(s, caller, detached, cap))
  {
    var s' := SpawnTask(s, caller, detached, cap);
    var id := s.nextTaskId;
    assert id !in s.tasks && caller in s.tasks;
    if s.publicOutcome.Some? && !s.hostSettled {
      forall t | t in s'.tasks ensures !s'.Blocking(t) {
        if t == id {
          assert !s.Blocking(caller);
          ShelteredGrows(s, s', caller);
        } else {
          assert !s.Blocking(t);
          ShelteredGrows(s, s', t);
        }
      }
    }
    assert !AllDone(s) by { assert !s.IsDone(caller); }
  }

  lemma ShelteredGrows(s: RunState, s': RunState, t: TaskId)
    requires Tree(s) && Tree(s') && t in s.tasks && s.tasks.Keys <= s'.tasks.Keys
    requires forall u {:trigger s'.tasks[u]} :: u in s.tasks ==> s'.tasks[u].owner == s.tasks[u].owner && s'.tasks[u].detached == s.tasks[u].detached
    ensures s.Sheltered(t) == s'.Sheltered(t)
    decreases t
  {
    assert OwnerOk(s, t);
    if s.tasks[t].owner.Some? { ShelteredGrows(s, s', s.tasks[t].owner.value); }
  }

  lemma SpawnKeeps(s: RunState, caller: TaskId, detached: bool, cap: Token)
    requires Inv(s) && MaySpawn(s, caller, cap)
    ensures Inv(SpawnTask(s, caller, detached, cap))
  {
    hide Tree, Phases, Queue, Subtrees, Waits, Requests, Consumers, Failures, Settled, Answers, Askings, Gifts;
    SpawnTree(s, caller, detached, cap);
    SpawnEnds(s, caller, detached, cap);
    SpawnPhases(s, caller, detached, cap);
    SpawnWaits(s, caller, detached, cap);
    SpawnConsumers(s, caller, detached, cap);
    SpawnSettled(s, caller, detached, cap);
    SpawnRequests(s, caller, detached, cap);
    SpawnHearing(s, caller, detached, cap);
  }

  lemma SpawnHearing(s: RunState, caller: TaskId, detached: bool, cap: Token)
    requires Inv(s) && MaySpawn(s, caller, cap)
    ensures var s' := SpawnTask(s, caller, detached, cap); Answers(s') && Askings(s') && Gifts(s')
  {
    var s' := SpawnTask(s, caller, detached, cap);
    SpawnFresh(s, cap);
    hide Phases, Subtrees, Queue, Waits, Requests, Failures, Settled, Consumers;
    SpawnAnswers(s, s', s.nextTaskId, cap);
    SpawnAskings(s, s', s.nextTaskId, cap);
    SpawnGifts(s, s', s.nextTaskId, cap);
  }

  lemma SpawnFresh(s: RunState, cap: Token)
    requires Inv(s) && cap !in s.minted
    ensures s.nextTaskId !in s.tasks && s.nextTaskId !in s.firsts && cap !in s.given && cap !in s.watched
  {
    forall c | c in s.given ensures c in s.minted { assert GivenOk(s, c); }
  }

  /** One more task, which has neither ended nor been asked for. */
  ghost predicate OneMore(s: RunState, s': RunState, id: TaskId, cap: Token) {
    && id !in s.tasks && id !in s.firsts && cap !in s.given && cap !in s.watched && cap !in s.minted
    && s'.tasks.Keys == s.tasks.Keys + {id}
    && s'.tasks[id].phase == Ready && s'.tasks[id].terminal.None? && s'.tasks[id].waiters == []
    && (forall t {:trigger s'.tasks[t]} :: t in s.tasks ==> s'.tasks[t] == s.tasks[t].(children := s'.tasks[t].children))
    && s'.asked == s.asked && s'.firsts == s.firsts && s'.given == s.given && s'.watched == s.watched && s'.deliveries == s.deliveries
    && s'.observers == s.observers && s'.frames == s.frames && s'.resumed == s.resumed && s'.issued == s.issued && s'.minted == s.minted[cap := id]
  }

  lemma SpawnAnswers(s: RunState, s': RunState, id: TaskId, cap: Token)
    requires Answers(s) && OneMore(s, s', id, cap)
    ensures Answers(s')
  {
    forall t | t in s'.tasks ensures FirstOk(s', t) { assert t in s.tasks ==> FirstOk(s, t); }
    forall e | e in s'.resumed ensures AnswerOk(s', e) { assert AnswerOk(s, e); }
  }

  lemma SpawnAskings(s: RunState, s': RunState, id: TaskId, cap: Token)
    requires Askings(s) && OneMore(s, s', id, cap)
    ensures Askings(s')
  {
    forall r | r in s'.asked ensures AskedOk(s', r) {
      assert AskedOk(s, r);
      if WasResumed(s, r) { var i :| 0 <= i < |s.resumed| && s.resumed[i].request == r; assert s'.resumed[i].request == r; }
    }
    forall t, w | t in s'.tasks && w in s'.tasks[t].waiters ensures WaiterOk(s', t, w) { assert w in s.tasks[t].waiters && WaiterOk(s, t, w) && AskedOk(s, w.request); }
  }

  lemma SpawnGifts(s: RunState, s': RunState, id: TaskId, cap: Token)
    requires Gifts(s) && OneMore(s, s', id, cap)
    ensures Gifts(s')
  {
    forall c | c in s'.given ensures GivenOk(s', c) { assert GivenOk(s, c); }
    hide Noticed;
    forall t | t in s'.tasks ensures ObservedOk(s', t) {
      if t in s.tasks {
        assert ObservedOk(s, t);
        if Noticed(s, t) { StillNoticed(s, s', t); }
      }
    }
  }

  lemma SpawnRequests(s: RunState, caller: TaskId, detached: bool, cap: Token)
    requires Requests(s) && caller in s.tasks
    ensures Requests(SpawnTask(s, caller, detached, cap))
  {
  }

  function Register(s: RunState, cap: Token): RunState {
    s.(observers := s.observers + {cap}, watched := s.watched + {cap})
  }

  lemma RegisterConsumers(s: RunState, t: TaskId)
    requires Consumers(s) && t in s.tasks && s.tasks[t].claimed && s.tasks[t].waiters == [] && s.tasks[t].capability in s.tokens
    ensures Consumers(Register(s, s.tasks[t].capability))
  {
    var s' := Register(s, s.tasks[t].capability);
    assert ConsumerOk(s, t);
    forall u | u in s'.tasks ensures ConsumerOk(s', u) { assert ConsumerOk(s, u); }
  }

  lemma TokenOf(s: RunState, t: TaskId)
    requires Inv(s) && t in s.tasks && s.tasks[t].capability in s.tokens
    ensures s.tasks[t].capability in s.minted && s.minted[s.tasks[t].capability] == t
  {
    assert ConsumerOk(s, t);
  }

  lemma RegisterKeeps(s: RunState, t: TaskId)
    requires Inv(s) && s.Live(t) && s.tasks[t].claimed && s.tasks[t].waiters == [] && s.tasks[t].capability in s.tokens
    ensures Inv(Register(s, s.tasks[t].capability))
  {
    At(s, t);
    TokenOf(s, t);
    hide Tree, Phases, Queue, Subtrees, Waits, Requests, Consumers, Failures, Settled, Answers, Askings, Gifts;
    RegisterConsumers(s, t);
    RegisterHearing(s, Register(s, s.tasks[t].capability), t);
    TokensKeep(s, Register(s, s.tasks[t].capability));
  }
}
