/** The state of one managed run of the structured-concurrency task runtime and the
    indivisible updates that its operations are made of. `TaskRuntime.dfy` performs these
    updates on the fields of a class; this module says what each of them does to the whole
    state, so that it can be reasoned about on values. */
module TaskModel {
  import opened Options

  type TaskId = nat
  type Token = nat
  type Request = nat
  type Raw = nat

  const ROOT: TaskId := 1

  /** Why a task failed: the error message, and whether it was taken over from a child whose
      failure nobody observed. */
  datatype Failure = Failure(reason: Reason, unobservedChild: bool)
  datatype Reason =
    | Trapped
    | UnreadableOutcome
    | ScopeCleanup
    | InvalidContinuation
    | StaleCapability
    | AlreadyObserved
    | NoFailureMessage
    | UnhandledEffect
    | InvalidHandlerResult
    | HandlerRejected
    | NotAValue

  datatype Outcome = Value(raw: Raw) | Failed(failure: Failure) | Cancelled
  datatype Terminal = Terminal(outcome: Outcome, observed: bool)

  datatype Phase = Ready | Waiting | Completing | Done

  /** What the run loop does when it reaches a ready task. */
  datatype Work = Idle | Starter | RawOutcome | ResumeWith(request: Request)

  /** What a waiting task waits for. `InHand`: its wait is over and it is being continued.
      `Stranded`: its resumption trapped and nothing is going to wake it. This is a
      specification field: the runtime keeps the same information in other tasks' waiter
      lists and in promise callbacks. */
  datatype Blocker = Unblocked | OnTask(target: TaskId, req: Request) | OnHandler(req: Request) | InHand | Stranded(req: Request)

  datatype Waiter = Waiter(task: TaskId, request: Request)

  datatype Task = Task(
    capability: Token,
    claimed: bool,
    owner: Option<TaskId>,
    detached: bool,
    phase: Phase,
    work: Work,
    pendingCompletion: Option<Outcome>,
    terminal: Option<Terminal>,
    waiters: seq<Waiter>,
    children: seq<TaskId>,
    blocker: Blocker)

  /** What a task was resumed with for which of its requests, and whether it was still live then. */
  datatype Payload = Status(code: nat) | Message(reason: Reason) | Reply | Unit
  datatype Resumption = Resumption(task: TaskId, request: Request, payload: Payload, live: bool)

  /** A request by which task `asker` asked for the end of `target`: before that (`early`) or after. */
  datatype Asking = Asking(asker: TaskId, target: TaskId, early: bool)

  const CANCELLED_STATUS: nat := 2

  /** The fields above the line are the runtime's; those below record the history of the run
      (what is executing, which requests and tokens exist, what was resumed and delivered, who
      asked for whose end, with which outcome each task ended at first, what each token gave, which
      tokens were ever observed, and which tasks were cancelled while completing) and say which
      requests trap the guest when they are resumed. */
  datatype RunState = RunState(
    nextTaskId: nat,
    tasks: map<TaskId, Task>,
    tokens: map<Token, TaskId>,
    readyQueue: seq<TaskId>,
    asleep: bool,
    hooked: bool,
    frames: map<Request, TaskId>,
    observers: set<Token>,
    completed: map<Token, Outcome>,
    handlers: map<Request, TaskId>,
    publicOutcome: Option<Outcome>,
    finalOutcome: Option<Outcome>,
    closed: bool,
    // ---- history
    running: Option<TaskId>,
    hostSettled: bool,
    issued: set<Request>,
    minted: map<Token, TaskId>,
    resumed: seq<Resumption>,
    deliveries: seq<Token>,
    unhandled: seq<TaskId>,
    asked: map<Request, Asking>,
    firsts: map<TaskId, Outcome>,
    given: map<Token, Outcome>,
    watched: set<Token>,
    cut: set<TaskId>,
    traps: Request -> bool)
  {
    predicate Live(t: TaskId) { t in tasks && tasks[t].phase != Done }

    predicate IsDone(t: TaskId) { t in tasks && tasks[t].phase == Done }

    ghost function LiveSet(): set<TaskId> { set t | t in tasks && Live(t) }

    /** Some ancestor of `t` in the owner tree is detached. */
    predicate Sheltered(t: TaskId)
      requires Tree(this) && t in tasks
      decreases t
    {
      assert OwnerOk(this, t);
      match tasks[t].owner
      case None => false
      case Some(o) => tasks[o].detached || Sheltered(o)
    }

    /** A live task that keeps the run from reporting its public outcome. */
    predicate Blocking(t: TaskId)
      requires Tree(this)
    {
      Live(t) && !tasks[t].detached && !Sheltered(t)
    }
  }

  // ---------------------------------------------------------------- invariants

  /** Ids are handed out in order, owners and children agree, and an owner is older than what
      it owns. Only the root and detached tasks have no owner. */
  ghost predicate Tree(s: RunState) {
    && ROOT < s.nextTaskId
    && (forall t :: t in s.tasks <==> 1 <= t < s.nextTaskId)
    && (forall t {:trigger OwnerOk(s, t)} :: t in s.tasks ==> OwnerOk(s, t))
    && (forall t, c {:trigger c in s.tasks[t].children} :: t in s.tasks && c in s.tasks[t].children ==> c in s.tasks && s.tasks[c].owner == Some(t))
  }

  ghost predicate OwnerOk(s: RunState, t: TaskId)
    requires t in s.tasks
  {
    var task := s.tasks[t];
    && (task.owner.None? <==> t == ROOT || task.detached)
    && (t == ROOT ==> !task.detached && task.capability == 0)
    && (task.owner.Some? ==>
          && task.owner.value in s.tasks
          && task.owner.value < t
          && t in s.tasks[task.owner.value].children)
  }

  ghost predicate PhaseOk(s: RunState, t: TaskId)
    requires t in s.tasks
  {
    var task := s.tasks[t];
    && (task.phase == Done <==> task.terminal.Some?)
    && (task.phase == Completing <==> task.pendingCompletion.Some?)
    && (task.phase == Completing ==> task.pendingCompletion.value.Value? && s.hooked)
    && (task.phase == Waiting <==> task.blocker != Unblocked)
    && (task.phase == Ready && s.running != Some(t) ==> task.work != Idle)
    && (task.work.ResumeWith? ==> task.phase == Ready && task.work.request in s.frames && s.frames[task.work.request] == t)
  }

  ghost predicate Phases(s: RunState) {
    forall t {:trigger PhaseOk(s, t)} :: t in s.tasks ==> PhaseOk(s, t)
  }

  /** A terminal task has only terminal children. */
  ghost predicate Subtrees(s: RunState) {
    forall t, c {:trigger c in s.tasks[t].children} :: t in s.tasks && c in s.tasks[t].children && s.IsDone(t) ==> s.IsDone(c)
  }

  ghost predicate NoDup<T>(q: seq<T>) {
    forall i, j :: 0 <= i < j < |q| ==> q[i] != q[j]
  }

  /** A live task is ready exactly when it is in the ready queue, once, or is being run. */
  ghost predicate Queue(s: RunState) {
    && NoDup(s.readyQueue)
    && (forall t :: t in s.readyQueue ==> t in s.tasks && (s.Live(t) ==> s.tasks[t].phase == Ready && s.running != Some(t)))
    && (forall t :: t in s.tasks && s.tasks[t].phase == Ready && s.running != Some(t) ==> t in s.readyQueue)
    && (s.running.Some? ==> s.running.value in s.tasks && s.tasks[s.running.value].phase == Ready)
  }

  ghost predicate BlockerOk(s: RunState, t: TaskId)
    requires t in s.tasks
  {
    && |s.tasks[t].waiters| <= 1
    && match s.tasks[t].blocker
       case OnTask(u, r) => u in s.tasks && Waiter(t, r) in s.tasks[u].waiters && r in s.frames && s.frames[r] == t
       case OnHandler(r) => r in s.handlers && s.handlers[r] == t && r in s.frames && s.frames[r] == t
       case _ => true
  }

  /** Waiter lists, handler promises and blockers describe the same waits. */
  ghost predicate Waits(s: RunState) {
    && (forall t {:trigger BlockerOk(s, t)} :: t in s.tasks ==> BlockerOk(s, t))
    && (forall t, w {:trigger w in s.tasks[t].waiters} :: t in s.tasks && w in s.tasks[t].waiters ==>
          && w.task in s.tasks
          && w.request in s.issued
          && (w.request in s.frames ==> s.frames[w.request] == w.task)
          && (s.Live(t) && s.Live(w.task) ==> s.tasks[w.task].blocker == OnTask(t, w.request)))
    && (forall r :: r in s.handlers ==>
          && s.handlers[r] in s.tasks
          && (r in s.frames ==> s.frames[r] == s.handlers[r])
          && (s.Live(s.handlers[r]) ==> s.tasks[s.handlers[r]].blocker == OnHandler(r)))
  }

  /** Every request that was resumed is spent: it has no frame left and was resumed once. */
  ghost predicate Requests(s: RunState) {
    && s.frames.Keys <= s.issued
    && s.handlers.Keys <= s.issued
    && (forall i :: 0 <= i < |s.resumed| ==> s.resumed[i].request in s.issued && s.resumed[i].request !in s.frames && s.resumed[i].task in s.tasks)
    && (forall i, j :: 0 <= i < j < |s.resumed| ==> s.resumed[i].request != s.resumed[j].request)
  }

  ghost predicate ConsumerOk(s: RunState, t: TaskId)
    requires t in s.tasks
  {
    var task := s.tasks[t];
    && (task.capability == 0 <==> t == ROOT)
    && (t != ROOT ==> task.capability in s.minted && s.minted[task.capability] == t)
    && (task.waiters != [] ==> task.claimed && task.capability !in s.observers)
    && (task.capability in s.observers ==> task.claimed)
    && (task.capability in s.completed ==> task.detached && task.phase == Done)
  }

  /** A capability has one consumer, and a token that was delivered is gone. */
  ghost predicate Consumers(s: RunState) {
    && 0 !in s.minted
    && (forall t {:trigger ConsumerOk(s, t)} :: t in s.tasks ==> ConsumerOk(s, t))
    && (forall c {:trigger s.minted[c]} :: c in s.minted ==> s.minted[c] in s.tasks && s.tasks[s.minted[c]].capability == c)
    && (forall c {:trigger s.tokens[c]} :: c in s.tokens ==> c in s.minted && s.tokens[c] == s.minted[c])
    && s.observers <= s.tokens.Keys
    && s.completed.Keys <= s.minted.Keys
    && (forall c :: c in s.deliveries ==> c in s.minted && c !in s.tokens)
    && NoDup(s.deliveries)
  }

  ghost predicate FailedUnobserved(s: RunState, t: TaskId) {
    s.IsDone(t) && s.tasks[t].terminal.Some? && s.tasks[t].terminal.value.outcome.Failed? && !s.tasks[t].terminal.value.observed
  }

  ghost predicate EndedWithValue(s: RunState, t: TaskId) {
    s.IsDone(t) && s.tasks[t].terminal.Some? && s.tasks[t].terminal.value.outcome.Value?
  }

  /** A task that ended with a value has no child with an unobserved failure. */
  ghost predicate Failures(s: RunState) {
    forall t, c {:trigger c in s.tasks[t].children} :: t in s.tasks && c in s.tasks[t].children && EndedWithValue(s, t) ==> !FailedUnobserved(s, c)
  }

  // ------------------------------------------------- who was told what

  /** A task that has ended may end once more: it is cancelled after it had ended in the course of
      its own cancellation, or it fails after it was cancelled in the course of its own failure. */
  predicate Sequel(first: Outcome, last: Outcome) {
    first == last || (last.Cancelled? && !first.Cancelled?) || (last.Failed? && first.Cancelled?)
  }

  predicate HasEnded(s: RunState, t: TaskId) {
    t in s.tasks && s.tasks[t].terminal.Some? && t in s.firsts
  }

  function Recorded(s: RunState, t: TaskId): Outcome
    requires HasEnded(s, t)
  {
    s.tasks[t].terminal.value.outcome
  }

  /** Task `t` ended twice, with different outcomes. */
  predicate Revised(s: RunState, t: TaskId) {
    HasEnded(s, t) && Recorded(s, t) != s.firsts[t]
  }

  /** The end of `t` for those who asked before it ended, and for those who asked afterwards. */
  function EndFor(s: RunState, t: TaskId, early: bool): Outcome
    requires HasEnded(s, t)
  {
    if early then s.firsts[t] else Recorded(s, t)
  }

  ghost predicate FirstOk(s: RunState, t: TaskId)
    requires t in s.tasks
  {
    && (s.tasks[t].phase == Done <==> t in s.firsts)
    && (s.tasks[t].phase == Done <==> s.tasks[t].terminal.Some?)
    && (HasEnded(s, t) ==> Sequel(s.firsts[t], Recorded(s, t)))
  }

  /** Task `t` was cancelled, rather than completed, when it ended. */
  predicate CancelledFirst(s: RunState, t: TaskId) {
    t in s.firsts && s.firsts[t].Cancelled?
  }

  predicate AskedEarly(s: RunState, r: Request) {
    r in s.asked && s.asked[r].early
  }

  /** Whoever was told a status had asked for it, and was told how the target had ended by then.
      Whoever asked before the end is told a status; if it had ended itself by then, it had been
      cancelled. */
  ghost predicate AnswerOk(s: RunState, e: Resumption) {
    && (e.payload.Status? ==>
          && e.request in s.asked && s.asked[e.request].asker == e.task
          && HasEnded(s, s.asked[e.request].target)
          && e.payload.code == WaitStatus(EndFor(s, s.asked[e.request].target, s.asked[e.request].early)))
    && (AskedEarly(s, e.request) ==> e.payload.Status? && (e.live || CancelledFirst(s, e.task)))
  }

  ghost predicate WasResumed(s: RunState, r: Request) {
    exists i {:trigger s.resumed[i]} :: 0 <= i < |s.resumed| && s.resumed[i].request == r
  }

  /** A request that asked early still has its entry, or has been answered, or whoever asked has been
      cancelled. */
  ghost predicate AskedOk(s: RunState, r: Request)
    requires r in s.asked
  {
    var a := s.asked[r];
    && r in s.issued && a.asker in s.tasks && a.target in s.tasks && s.tasks[a.target].claimed
    && (r in s.frames ==> s.frames[r] == a.asker)
    && (if a.early then r in s.frames ==> Waiter(a.asker, r) in s.tasks[a.target].waiters else s.IsDone(a.target))
    && (a.early ==> (s.Live(a.asker) && r in s.frames) || CancelledFirst(s, a.asker) || WasResumed(s, r))
  }

  ghost predicate WaiterOk(s: RunState, t: TaskId, w: Waiter) {
    && w.request in s.asked && s.asked[w.request] == Asking(w.task, t, true)
    && (s.Live(w.task) && w.request in s.frames ==> s.tasks[w.task].blocker == OnTask(t, w.request))
  }

  ghost predicate GivenOk(s: RunState, c: Token)
    requires c in s.given
  {
    c in s.minted && HasEnded(s, s.minted[c]) && s.given[c] == EndFor(s, s.minted[c], c in s.watched)
  }

  /** The token of `t` has given the outcome of `t`. */
  ghost predicate GivenOut(s: RunState, t: TaskId)
    requires t in s.tasks
  {
    s.tasks[t].terminal.Some? && s.tasks[t].capability in s.given && s.given[s.tasks[t].capability] == s.tasks[t].terminal.value.outcome
  }

  /** The token of `t` has given its outcome, or somebody has asked for its end. */
  ghost predicate Noticed(s: RunState, t: TaskId)
    requires t in s.tasks
  {
    || GivenOut(s, t)
    || exists r {:trigger s.asked[r]} :: r in s.asked && s.asked[r].target == t && (s.asked[r].early ==> !Revised(s, t))
  }

  ghost predicate ObservedOk(s: RunState, t: TaskId)
    requires t in s.tasks
  {
    s.tasks[t].terminal.Some? && s.tasks[t].terminal.value.observed ==> Noticed(s, t)
  }

  ghost predicate Answers(s: RunState) {
    && (forall t {:trigger FirstOk(s, t)} :: t in s.tasks ==> FirstOk(s, t))
    && s.firsts.Keys <= s.tasks.Keys
    && (forall e {:trigger AnswerOk(s, e)} :: e in s.resumed ==> AnswerOk(s, e))
  }

  ghost predicate Askings(s: RunState) {
    && (forall r {:trigger AskedOk(s, r)} :: r in s.asked ==> AskedOk(s, r))
    && (forall t, w {:trigger w in s.tasks[t].waiters} :: t in s.tasks && w in s.tasks[t].waiters ==> WaiterOk(s, t, w))
    && (forall r, q {:trigger s.asked[r], s.asked[q]} :: r in s.asked && q in s.asked && s.asked[r].target == s.asked[q].target ==> r == q)
  }

  ghost predicate Gifts(s: RunState) {
    && (forall c {:trigger GivenOk(s, c)} :: c in s.given ==> GivenOk(s, c))
    && (forall c :: c in s.given <==> c in s.deliveries)
    && s.observers <= s.watched
    && (forall c {:trigger c in s.watched} :: c in s.watched ==> c in s.minted && (c in s.observers || c in s.given))
    && (forall t {:trigger ObservedOk(s, t)} :: t in s.tasks ==> ObservedOk(s, t))
  }

  ghost predicate AllDone(s: RunState) { forall t :: t in s.tasks ==> s.IsDone(t) }

  ghost predicate NothingBlocking(s: RunState)
    requires Tree(s)
  {
    forall t :: t in s.tasks ==> !s.Blocking(t)
  }

  /** A public outcome that the host did not impose is the root's, and nothing blocks any more;
      a final outcome is the public one, and every task is terminal. */
  ghost predicate Settled(s: RunState)
    requires Tree(s)
  {
    && (s.hostSettled ==> s.publicOutcome == Some(Cancelled))
    && (s.publicOutcome.Some? && !s.hostSettled ==>
          && s.IsDone(ROOT)
          && s.tasks[ROOT].terminal.Some?
          && s.publicOutcome == Some(s.tasks[ROOT].terminal.value.outcome)
          && NothingBlocking(s))
    && (s.finalOutcome.Some? ==> s.finalOutcome == s.publicOutcome && AllDone(s))
  }

  /** Holds at every point of every operation. */
  ghost predicate Inv(s: RunState) {
    && Tree(s)
    && Phases(s)
    && Subtrees(s)
    && Queue(s)
    && Waits(s)
    && Requests(s)
    && Consumers(s)
    && Failures(s)
    && Settled(s)
    && Answers(s)
    && Askings(s)
    && Gifts(s)
  }

  // ------------------------------------------------- what is unfinished inside an operation

  /** A task that should have been completed because its last child ended. */
  ghost predicate Stuck(s: RunState, t: TaskId) {
    && t in s.tasks
    && s.tasks[t].phase == Completing
    && forall c :: c in s.tasks[t].children ==> !s.Live(c)
  }

  /** A terminal task whose end has not been announced to everyone. */
  ghost predicate Unswept(s: RunState, t: TaskId) {
    && s.IsDone(t)
    && var task := s.tasks[t];
       (|| task.waiters != []
        || task.capability in s.observers
        || (task.capability in s.completed && task.terminal.Some? && s.completed[task.capability] != task.terminal.value.outcome)
        || (task.detached && FailedUnobserved(s, t) && t !in s.unhandled))
  }

  /** The run could report an outcome but has not. */
  ghost predicate Unsettled(s: RunState)
    requires Tree(s)
  {
    && s.hooked
    && s.IsDone(ROOT)
    && (|| (s.publicOutcome.None? && NothingBlocking(s))
        || (s.publicOutcome.Some? && s.finalOutcome.None? && AllDone(s)))
  }

  /** Work is queued while the run loop sleeps. */
  ghost predicate Drowsy(s: RunState) {
    s.asleep && exists t :: t in s.readyQueue && s.Live(t)
  }

  /** The last resumption of task `t`. */
  function LastResumed(log: seq<Resumption>, t: TaskId): Option<Resumption> {
    if log == [] then None
    else if log[|log| - 1].task == t then Some(log[|log| - 1])
    else LastResumed(log[..|log| - 1], t)
  }

  /** Task `t` trapped when it was last resumed. */
  ghost predicate TrappedLast(s: RunState, t: TaskId) {
    var last := LastResumed(s.resumed, t);
    last.Some? && s.traps(last.value.request)
  }

  /** Task `t` trapped when it was last resumed, which was to tell it of a cancellation. */
  ghost predicate Explained(s: RunState, t: TaskId, r: Request) {
    LastResumed(s.resumed, t) == Some(Resumption(t, r, Status(CANCELLED_STATUS), true)) && s.traps(r)
  }

  /** A live task that is neither run nor going to be: it is still in hand, or trapped without
      having ended, and that is not the end of its wait for a cancelled task. */
  ghost predicate Lost(s: RunState, t: TaskId) {
    && s.Live(t) && s.running != Some(t)
    && match s.tasks[t].blocker
       case InHand => true
       case Stranded(r) => !Explained(s, t, r)
       case _ => TrappedLast(s, t)
  }

  ghost predicate RootEnded(s: RunState) {
    s.IsDone(ROOT) && s.tasks[ROOT].terminal.Some?
  }

  /** The public outcome once it has been reported if it can be. */
  ghost function PublicNow(s: RunState): Option<Outcome>
    requires Tree(s)
  {
    if RootEnded(s) && s.publicOutcome.None? && NothingBlocking(s) then Some(s.tasks[ROOT].terminal.value.outcome)
    else s.publicOutcome
  }

  ghost function FinalNow(s: RunState): Option<Outcome>
    requires Tree(s)
  {
    if RootEnded(s) && PublicNow(s).Some? && AllDone(s) then PublicNow(s) else s.finalOutcome
  }

  /** The run's outcomes once whatever can be reported has been reported. */
  ghost function Finalized(s: RunState): RunState
    requires Tree(s)
  {
    s.(publicOutcome := PublicNow(s), finalOutcome := FinalNow(s))
  }

  // ---------------------------------------------------------------- indivisible updates

  function WithTask(s: RunState, t: TaskId, task: Task): RunState {
    s.(tasks := s.tasks[t := task])
  }

  /** Task `t` becomes terminal with outcome `o`, which nobody has observed yet. */
  function MarkDone(s: RunState, t: TaskId, o: Outcome): RunState
    requires t in s.tasks
  {
    s.(tasks := s.tasks[t := s.tasks[t].(phase := Done, work := Idle, pendingCompletion := None,
                                         terminal := Some(Terminal(o, false)), blocker := Unblocked)],
       firsts := if t in s.firsts then s.firsts else s.firsts[t := o],
       running := if s.running == Some(t) then None else s.running)
  }

  /** Task `t` waits for its live children before ending with `o`. */
  function MarkCompleting(s: RunState, t: TaskId, o: Outcome): RunState
    requires t in s.tasks
  {
    s.(tasks := s.tasks[t := s.tasks[t].(phase := Completing, work := Idle, pendingCompletion := Some(o), blocker := Unblocked)],
       running := if s.running == Some(t) then None else s.running)
  }

  /** The guest is resumed for request `r` of task `w`: the request's frame is used up. */
  function Spend(s: RunState, w: TaskId, r: Request, p: Payload): RunState
    requires w in s.tasks
  {
    var task := s.tasks[w];
    s.(frames := s.frames - {r},
       resumed := s.resumed + [Resumption(w, r, p, s.Live(w))],
       tasks := if task.phase == Waiting then s.tasks[w := task.(blocker := InHand)]
                else if task.work == ResumeWith(r) then s.tasks[w := task.(work := Idle)]
                else s.tasks)
  }

  /** Task `w` trapped when it was told of a cancellation for request `r`. */
  function Strand(s: RunState, w: TaskId, r: Request): RunState
    requires w in s.tasks
  {
    WithTask(s, w, s.tasks[w].(blocker := Stranded(r)))
  }

  /** Task `w` has work again and joins the ready queue. */
  function MakeReady(s: RunState, w: TaskId, work: Work): RunState
    requires w in s.tasks
  {
    s.(tasks := s.tasks[w := s.tasks[w].(phase := Ready, work := work, blocker := Unblocked)],
       readyQueue := s.readyQueue + [w],
       running := if s.running == Some(w) then None else s.running)
  }

  function MarkObserved(s: RunState, t: TaskId): RunState
    requires t in s.tasks && s.tasks[t].terminal.Some?
  {
    WithTask(s, t, s.tasks[t].(terminal := Some(s.tasks[t].terminal.value.(observed := true))))
  }

  function ClearWaiters(s: RunState, t: TaskId): RunState
    requires t in s.tasks
  {
    WithTask(s, t, s.tasks[t].(waiters := []))
  }

  /** Outcomes of detached tasks are kept for late observers. */
  function Store(s: RunState, t: TaskId): RunState
    requires t in s.tasks && s.tasks[t].terminal.Some?
  {
    var task := s.tasks[t];
    if task.detached && task.capability != 0 then
      s.(completed := s.completed[task.capability := task.terminal.value.outcome])
    else s
  }

  /** Token `cap` cannot be used any more. */
  function Forget(s: RunState, cap: Token): RunState {
    s.(completed := s.completed - {cap}, tokens := s.tokens - {cap})
  }

  /** What token `cap` stands for, outcome `o`, is handed to its one consumer. */
  function Deliver(s: RunState, cap: Token, o: Outcome): RunState {
    s.(completed := s.completed - {cap}, tokens := s.tokens - {cap}, observers := s.observers - {cap},
       deliveries := s.deliveries + [cap], given := s.given[cap := o])
  }

  /** Request `r` of task `asker` asks for the end of task `t`. */
  function Ask(s: RunState, r: Request, asker: TaskId, t: TaskId, early: bool): RunState {
    s.(asked := s.asked[r := Asking(asker, t, early)])
  }

  /** Task `t` is cancelled while it is completing. */
  function MarkCut(s: RunState, t: TaskId): RunState {
    s.(cut := s.cut + {t})
  }

  function ReportUnhandled(s: RunState, t: TaskId): RunState
    requires t in s.tasks && s.tasks[t].terminal.Some?
  {
    var term := s.tasks[t].terminal.value;
    if s.tasks[t].detached && term.outcome.Failed? && !term.observed then s.(unhandled := s.unhandled + [t]) else s
  }

  function DropFrames(s: RunState, t: TaskId): RunState {
    s.(frames := map r | r in s.frames && s.frames[r] != t :: s.frames[r])
  }

  /** The first failure among `children`, in order, that nobody has observed. */
  function FirstUnobservedFailure(tasks: map<TaskId, Task>, children: seq<TaskId>): Option<Failure> {
    if children == [] then None
    else if children[0] in tasks && tasks[children[0]].terminal.Some?
            && tasks[children[0]].terminal.value.outcome.Failed?
            && !tasks[children[0]].terminal.value.observed
    then Some(tasks[children[0]].terminal.value.outcome.failure)
    else FirstUnobservedFailure(tasks, children[1..])
  }

  /** Child `i` of `t`, in the order in which they were created, failed and nobody observed it. */
  ghost predicate FailedChild(s: RunState, t: TaskId, i: nat)
    requires t in s.tasks
  {
    && i < |s.tasks[t].children| && s.tasks[t].children[i] in s.tasks
    && var end := s.tasks[s.tasks[t].children[i]].terminal;
       end.Some? && end.value.outcome.Failed? && !end.value.observed
  }

  /** How a task ends that returned `raw` and has no live child: the first child that failed unobserved
      makes it fail with the reason of that child; otherwise it fails if its callback scopes do not
      close, or if `raw` cannot be read, and else its value is `raw`. */
  ghost predicate Concludes(s: RunState, t: TaskId, raw: Raw, scopesFail: bool, unreadable: bool, o: Outcome)
    requires t in s.tasks
  {
    && (forall i: nat {:trigger FailedChild(s, t, i)} :: FailedChild(s, t, i) && (forall j: nat :: j < i ==> !FailedChild(s, t, j)) ==>
          o == Failed(Failure(s.tasks[s.tasks[t].children[i]].terminal.value.outcome.failure.reason, true)))
    && ((forall i: nat :: !FailedChild(s, t, i)) ==>
          && (o == Failed(Failure(ScopeCleanup, false)) <==> scopesFail)
          && (o == Failed(Failure(UnreadableOutcome, false)) <==> !scopesFail && unreadable)
          && (o == Value(raw) <==> !scopesFail && !unreadable))
  }

  function WaitStatus(o: Outcome): nat {
    match o
    case Value(_) => 0
    case Failed(_) => 1
    case Cancelled => CANCELLED_STATUS
  }
}
