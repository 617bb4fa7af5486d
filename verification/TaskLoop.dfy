/** What one step of the run loop, and each request of the host, does to the state of a run. */
module TaskLoop {
  import opened Options
  import opened TaskModel
  import opened TaskHearing
  import opened TaskLemmas
  import opened TaskProgress
  import opened TaskRevision
  import opened TaskSteps
  import opened TaskRest

  // ---------------------------------------------------------------- starting a step

  /** Task `id` has just been taken from the queue. */
  ghost predicate Begun(s: RunState, id: TaskId) {
    && Inv(s) && Tidy(s) && NoneLost(s) && s.hooked && !s.asleep
    && id in s.tasks && s.running == Some(id) && s.tasks[id].phase == Ready && !TrappedLast(s, id)
  }

  lemma BeginRuns(s: RunState)
    requires Resting(s) && !s.closed && !s.asleep && s.readyQueue != [] && s.Live(s.readyQueue[0])
    ensures var s' := BeginStep(s); Begun(s', s.readyQueue[0]) && Evolves(s, s') && SameRequests(s, s')
  {
    hide Tidy, Phases, Subtrees, Queue, Waits, Requests, Consumers, Failures, Settled, Answers, Askings, Gifts, Evolves;
    BeginKeeps(s);
    BeginTidy(s);
    BeginLost(s);
  }

  lemma BeginLost(s: RunState)
    requires NoneLost(s) && Phases(s) && s.running.None? && s.readyQueue != [] && s.Live(s.readyQueue[0]) && s.tasks[s.readyQueue[0]].phase == Ready
    ensures NoneLost(BeginStep(s)) && !TrappedLast(BeginStep(s), s.readyQueue[0])
  {
    SameLost(s, BeginStep(s));
    assert PhaseOk(s, s.readyQueue[0]) && !Lost(s, s.readyQueue[0]);
  }

  lemma PopRests(s: RunState)
    requires Resting(s) && s.readyQueue != [] && !s.Live(s.readyQueue[0])
    ensures Resting(PopHead(s)) && Evolves(s, PopHead(s))
  {
    hide Tidy, Phases, Subtrees, Waits, Requests, Consumers, Failures, Settled, Answers, Askings, Gifts, Evolves, Gentle;
    PopKeeps(s);
    PopGentle(s, PopHead(s));
    GentleStep(s, PopHead(s));
    SameLost(s, PopHead(s));
    hide Lost;
    PopTail(s.readyQueue);
  }

  lemma SleepRests(s: RunState)
    requires Resting(s) && s.readyQueue == []
    ensures var s' := s.(asleep := true); Resting(s') && Evolves(s, s')
  {
    hide Tidy, Phases, Subtrees, Waits, Requests, Consumers, Failures, Settled, Answers, Askings, Gifts, Evolves, Gentle;
    var s' := s.(asleep := true);
    SameLost(s, s');
    hide Lost;
    HistoryKeeps(s, s');
    SleepGentle(s, s');
    GentleStep(s, s');
  }

  lemma SameCut(s: RunState, s': RunState)
    requires s'.tasks == s.tasks && s'.firsts == s.firsts && s'.cut == s.cut && s'.traps == s.traps && s'.asked == s.asked
    ensures CutExact(s) ==> CutExact(s')
    ensures CarriesOn(s') <==> CarriesOn(s)
  {
    SameCutting(s, s');
  }

  lemma ClosedEvolves(s: RunState, s': RunState)
    requires s' == s.(closed := s'.closed, publicOutcome := s'.publicOutcome, hostSettled := s'.hostSettled) && (s.closed ==> s'.closed)
    requires s.publicOutcome.Some? ==> s'.publicOutcome == s.publicOutcome && s'.hostSettled == s.hostSettled
    ensures Evolves(s, s')
  {
    forall t | t in s.tasks ensures TaskEvolves(s.tasks[t], s'.tasks[t]) {}
  }

  lemma CloseRests(s: RunState)
    requires Resting(s)
    ensures var s' := s.(closed := true); Resting(s') && Evolves(s, s')
  {
    hide Phases, Subtrees, Queue, Waits, Requests, Consumers, Failures, Settled, Answers, Askings, Gifts;
    var s' := s.(closed := true);
    SameLost(s, s');
    SameCut(s, s');
    hide Lost, CutExact, CarriesOn, Evolves;
    HistoryKeeps(s, s');
    ClosedEvolves(s, s');
    forall u | Stuck(s', u) ensures Stuck(s, u) {}
    forall u | Unswept(s', u) ensures Unswept(s, u) {}
    SameBlocking(s, s');
    if AllDone(s') { assert AllDone(s) by { forall t | t in s.tasks ensures s.IsDone(t) { assert s'.IsDone(t); } } }
  }

  lemma TakeWorkRuns(s: RunState, id: TaskId)
    requires Begun(s, id) && !s.tasks[id].work.ResumeWith?
    ensures var s' := TakeWork(s, id); Stepping(s', id) && !TrappedLast(s', id) && Evolves(s, s') && SameRequests(s, s')
  {
    hide Tree, Tidy, Phases, Subtrees, Queue, Waits, Requests, Consumers, Failures, Settled, Answers, Askings, Gifts, Evolves, Gentle;
    TakeWorkKeeps(s, id);
    TakeWorkGentle(s, id);
    GentleStep(s, TakeWork(s, id));
  }

  lemma BegunRequest(s: RunState, id: TaskId)
    requires Begun(s, id) && s.tasks[id].work.ResumeWith?
    ensures MaySpend(s, id, s.tasks[id].work.request)
  {
    At(s, id);
  }

  lemma SpendRuns(s: RunState, id: TaskId)
    requires Begun(s, id) && s.tasks[id].work.ResumeWith?
    ensures var s' := Spend(s, id, s.tasks[id].work.request, Unit);
            Stepping(s', id) && (!s.traps(s.tasks[id].work.request) ==> !TrappedLast(s', id)) && Evolves(s, s') && SameRequests(s, s')
  {
    hide Tree, Tidy, Phases, Subtrees, Queue, Waits, Requests, Consumers, Failures, Settled, Answers, Askings, Gifts, Evolves, Gentle;
    var r := s.tasks[id].work.request;
    BegunRequest(s, id);
    At(s, id);
    TellsPlain(s, id, r, Unit);
    hide MayTell;
    SpendKeeps(s, id, r, Unit);
    SpendGentle(s, id, r, Unit);
    GentleStep(s, Spend(s, id, r, Unit));
    SpentLost(s, id, r, Unit);
  }

  lemma HeadKnown(s: RunState)
    requires Resting(s) && s.readyQueue != []
    ensures s.readyQueue[0] in s.tasks
    ensures s.Live(s.readyQueue[0]) ==> s.tasks[s.readyQueue[0]].phase == Ready
  {
  }

  lemma PopForm(s: RunState)
    requires s.readyQueue != []
    ensures var s' := PopHead(s); s'.asleep == s.asleep && s'.issued == s.issued && s'.minted == s.minted
  {
  }

  lemma SteppedRests(s: RunState)
    requires Stepped(s) && !s.asleep
    ensures Resting(s)
  {
  }

  // ---------------------------------------------------------------- serving a request

  /** Task `id` is being run and has performed request `r`. */
  ghost predicate Serving(s: RunState, id: TaskId, r: Request) {
    Stepping(s, id) && Framed(s, id, r) && !TrappedLast(s, id)
  }

  lemma IssueRuns(s: RunState, id: TaskId, r: Request)
    requires Stepping(s, id) && !TrappedLast(s, id) && r !in s.issued
    ensures var s' := Issue(s, id, r); Serving(s', id, r) && Evolves(s, s') && r !in s'.asked
  {
    hide Tree, Tidy, Phases, Subtrees, Queue, Waits, Requests, Consumers, Failures, Settled, Answers, Askings, Gifts, Evolves, Gentle;
    IssueKeeps(s, id, r);
    IssueHearing(s, Issue(s, id, r), id, r);
    IssueGentle(s, id, r);
    GentleStep(s, Issue(s, id, r));
  }

  lemma ServingIs(s: RunState, id: TaskId, r: Request)
    requires Serving(s, id, r)
    ensures !TrappedLast(s, id) && NoneLost(s) && NoneLostBut(s, id)
    ensures Stepping(s, id) && Continuable(s, id, r) && s.Live(id) && MayBlock(s, id, r) && MayQueue(s, id, ResumeWith(r))
    ensures Inv(s) && Tidy(s) && s.hooked && !s.asleep && s.running == Some(id) && s.tasks[id].phase != Completing
    ensures forall c :: c in s.tokens ==> s.tokens[c] in s.tasks && s.tasks[s.tokens[c]].capability == c
  {
    hide Tree, Tidy, Phases, Subtrees, Waits, Failures, Settled, Answers, Askings, Gifts;
    forall c | c in s.tokens ensures s.tokens[c] in s.tasks && s.tasks[s.tokens[c]].capability == c {
      assert s.minted[c] == s.tokens[c];
    }
  }

  lemma ClaimRuns(s: RunState, id: TaskId, r: Request, t: TaskId)
    requires Serving(s, id, r) && t in s.tasks
    ensures var s' := Claim(s, t); Serving(s', id, r) && Evolves(s, s') && SameRequests(s, s')
  {
    hide Tree, Tidy, Phases, Subtrees, Queue, Waits, Requests, Consumers, Failures, Settled, Answers, Askings, Gifts, Evolves, Gentle;
    ClaimKeeps(s, t);
    ClaimGentle(s, t);
    GentleStep(s, Claim(s, t));
  }

  lemma AskRuns(s: RunState, id: TaskId, r: Request, t: TaskId)
    requires Serving(s, id, r) && r !in s.asked && s.IsDone(t) && s.tasks[t].claimed && Unasked(s, t)
    ensures var s' := Ask(s, r, id, t, false);
            Serving(s', id, r) && Evolves(s, s') && SameRequests(s, s') && Noticed(s', t) && s'.tasks == s.tasks && MayTellEnd(s', id, r, t)
  {
    ServingIs(s, id, r);
    AskKeeps(s, id, r, t);
    AskNotices(s, id, r, t);
    hide Inv, Tidy, Evolves, Gentle, Serving, Stepping, Lost, TrappedLast, Noticed, MayTellEnd, Unasked;
    AskGentle(s, r, id, t);
    GentleStep(s, Ask(s, r, id, t, false));
    StillNoneLost(s, Ask(s, r, id, t, false));
    StillServing(s, Ask(s, r, id, t, false), id, r);
  }

  /** Task `id` asked with request `r` for the end of task `t`, which has ended. */
  ghost predicate MayTellEnd(s: RunState, id: TaskId, r: Request, t: TaskId) {
    HasEnded(s, t) && r in s.asked && s.asked[r] == Asking(id, t, false)
  }

  lemma TellsEnd(s: RunState, id: TaskId, r: Request, t: TaskId)
    requires MayTellEnd(s, id, r, t)
    ensures MayTell(s, id, r, Status(WaitStatus(Recorded(s, t))))
  {
  }

  /** Marking its end as observed and using up its token leave the answer as it was. */
  lemma StillTells(s: RunState, s': RunState, id: TaskId, r: Request, t: TaskId, o: Outcome)
    requires MayTellEnd(s, id, r, t) && EndsWith(s, t, o)
    requires s' == MarkObserved(s, t) || s' == Forget(MarkObserved(s, t), MarkObserved(s, t).tasks[t].capability)
    ensures MayTell(s', id, r, Status(WaitStatus(o)))
  {
    assert MayTellEnd(s', id, r, t) && Recorded(s', t) == o;
    TellsEnd(s', id, r, t);
  }

  lemma AskKeeps(s: RunState, id: TaskId, r: Request, t: TaskId)
    requires Serving(s, id, r) && r !in s.asked && s.IsDone(t) && s.tasks[t].claimed && Unasked(s, t)
    ensures Inv(Ask(s, r, id, t, false))
  {
    var s' := Ask(s, r, id, t, false);
    AskLateHearing(s, r, id, t);
    hide Phases, Queue, Waits, Requests, Consumers, Answers, Askings, Gifts;
    AskDiff(s, r, id, t);
    EndsFrame(s, s');
    SchedulingFrame(s, s');
    WaitsFrame(s, s');
    ConsumersFrame(s, s');
  }

  lemma AskDiff(s: RunState, r: Request, id: TaskId, t: TaskId)
    ensures var s' := Ask(s, r, id, t, false); SameScheduling(s, s') && SameWaiters(s, s') && SameClaims(s, s') && SameOutcomes(s, s')
  {
  }

  lemma AskNotices(s: RunState, id: TaskId, r: Request, t: TaskId)
    requires Inv(s) && s.IsDone(t) && r !in s.asked
    ensures var s' := Ask(s, r, id, t, false); Noticed(s', t) && MayTellEnd(s', id, r, t)
  {
    var s' := Ask(s, r, id, t, false);
    assert FirstOk(s, t);
    assert s'.asked[r].target == t;
  }

  lemma ObservedRuns(s: RunState, id: TaskId, r: Request, t: TaskId)
    requires Serving(s, id, r) && s.IsDone(t) && s.tasks[t].terminal.Some? && Noticed(s, t)
    ensures var s' := MarkObserved(s, t); Serving(s', id, r) && Evolves(s, s') && SameRequests(s, s')
  {
    hide Noticed;
    hide Tree, Tidy, Phases, Subtrees, Queue, Waits, Requests, Consumers, Failures, Settled, Answers, Askings, Gifts, Evolves, Gentle;
    MarkObservedKeeps(s, t);
    ObservedGentle(s, t);
    GentleStep(s, MarkObserved(s, t));
  }

  /** A task that has ended has no observer left. */
  lemma NoObserver(s: RunState, t: TaskId)
    requires Inv(s) && Tidy(s) && s.IsDone(t)
    ensures s.tasks[t].capability !in s.observers
  {
    assert !Unswept(s, t);
  }

  lemma ForgetRuns(s: RunState, id: TaskId, r: Request, t: TaskId)
    requires Serving(s, id, r) && s.IsDone(t)
    ensures var s' := Forget(s, s.tasks[t].capability); Serving(s', id, r) && Evolves(s, s') && SameRequests(s, s')
  {
    hide Tree, Tidy, Phases, Subtrees, Queue, Waits, Requests, Consumers, Failures, Settled, Answers, Askings, Gifts, Evolves, Gentle;
    var cap := s.tasks[t].capability;
    NoObserver(s, t);
    ForgetKeeps(s, cap);
    ForgetGentle(s, cap);
    GentleStep(s, Forget(s, cap));
  }

  /** A step that leaves tasks, frames and the log alone leaves the task at hand at its request. */
  lemma StillServing(s: RunState, s': RunState, id: TaskId, r: Request)
    requires Serving(s, id, r) && Inv(s') && Tidy(s') && NoneLost(s')
    requires s'.tasks == s.tasks && s'.running == s.running && s'.frames == s.frames && s'.hooked == s.hooked && s'.asleep == s.asleep
    requires s'.resumed == s.resumed && s'.traps == s.traps
    ensures Serving(s', id, r)
  {
    hide Inv, Tidy, Lost;
  }

  lemma DeliverRuns(s: RunState, id: TaskId, r: Request, cap: Token, o: Outcome)
    requires Serving(s, id, r) && MayDeliver(s, cap, o)
    ensures var s' := Deliver(s, cap, o); Serving(s', id, r) && Evolves(s, s') && SameRequests(s, s') && s'.tasks == s.tasks
  {
    ServingIs(s, id, r);
    hide Inv, Tidy, Evolves, MayDeliver, Serving, Stepping, Lost, TrappedLast, NoneLost;
    DeliverSteady(s, cap, o);
    DeliverSame(s, id, cap, o);
    StillServing(s, Deliver(s, cap, o), id, r);
  }

  /** Delivering the outcome of a task leaves nothing new to do. */
  lemma DeliverSteady(s: RunState, cap: Token, o: Outcome)
    requires Steady(s) && MayDeliver(s, cap, o)
    ensures var s' := Deliver(s, cap, o); Steady(s') && Evolves(s, s')
  {
    hide Inv, Tidy, Evolves, Gentle, MayDeliver, Lost, Deliver;
    DeliverKeeps(s, cap, o);
    DeliverFresh(s, cap, o);
    DeliverGentle(s, cap, o);
    GentleStep(s, Deliver(s, cap, o));
    StillNoneLost(s, Deliver(s, cap, o));
  }

  lemma DeliverFresh(s: RunState, cap: Token, o: Outcome)
    requires Inv(s) && MayDeliver(s, cap, o)
    ensures cap !in s.given
  {
    NotGiven(s, cap);
  }

  lemma DeliverSame(s: RunState, id: TaskId, cap: Token, o: Outcome)
    ensures var s' := Deliver(s, cap, o); TrappedLast(s', id) == TrappedLast(s, id) && s'.tasks == s.tasks
  {
  }

  /** A token that can still be used has not given anything. */
  lemma NotGiven(s: RunState, cap: Token)
    requires Inv(s)
    ensures cap in s.tokens ==> cap !in s.given
  {
  }

  /** What the token of a task that has ended stands for: nobody observed it before. */
  lemma StandsFor(s: RunState, t: TaskId, o: Outcome)
    requires Inv(s) && Tidy(s) && EndsWith(s, t, o) && s.tasks[t].capability in s.tokens
    ensures MayDeliver(s, s.tasks[t].capability, o)
  {
    assert ConsumerOk(s, t) && FirstOk(s, t);
    NoObserver(s, t);
    NotGiven(s, s.tasks[t].capability);
  }

  /** Nobody waits for or observes a task that has not been claimed. */
  lemma Unclaimed(s: RunState, t: TaskId)
    requires Inv(s) && t in s.tasks && !s.tasks[t].claimed
    ensures s.tasks[t].waiters == [] && s.tasks[t].capability !in s.observers && Unasked(s, t)
  {
    At(s, t);
    forall r | r in s.asked ensures s.asked[r].target != t { assert AskedOk(s, r); }
  }

  lemma BlockOnTaskStops(s: RunState, id: TaskId, t: TaskId, r: Request)
    requires Serving(s, id, r) && s.Live(t) && s.tasks[t].waiters == [] && s.tasks[t].claimed && s.tasks[t].capability !in s.observers
    requires r !in s.asked && Unasked(s, t)
    ensures var s' := BlockOnTask(s, id, t, r); Stepped(s') && Evolves(s, s') && SameRequests(s, s')
  {
    hide Tree, Tidy, Phases, Subtrees, Queue, Waits, Consumers, Failures, Settled, Answers, Askings, Gifts, Evolves, Gentle;
    BlockOnTaskKeeps(s, id, t, r);
    BlockOnTaskGentle(s, id, t, r);
    GentleStep(s, BlockOnTask(s, id, t, r));
    LostFrame(s, BlockOnTask(s, id, t, r), id);
  }

  lemma BlockOnHandlerStops(s: RunState, id: TaskId, r: Request)
    requires Serving(s, id, r)
    ensures var s' := BlockOnHandler(s, id, r); Stepped(s') && Evolves(s, s')
  {
    hide Tree, Tidy, Phases, Subtrees, Queue, Waits, Consumers, Failures, Settled, Answers, Askings, Gifts, Evolves, Gentle;
    BlockOnHandlerKeeps(s, id, r);
    BlockOnHandlerGentle(s, id, r);
    GentleStep(s, BlockOnHandler(s, id, r));
    LostFrame(s, BlockOnHandler(s, id, r), id);
  }

  // ---------------------------------------------------------------- returning a value

  /** A task that returned a value while children of it live waits for them. */
  lemma WaitingStep(s: RunState, id: TaskId, o: Outcome)
    requires Stepping(s, id) && !TrappedLast(s, id) && !NoLiveChild(s, id)
    requires Inv(MarkCompleting(DropFrames(s, id), id, o))
    ensures var s' := MarkCompleting(DropFrames(s, id), id, o); Stepped(s') && Evolves(s, s') && SameRequests(s, s') && s'.asleep == s.asleep
  {
    hide Tree, Tidy, Phases, Subtrees, Queue, Waits, Requests, Consumers, Failures, Settled, Answers, Askings, Gifts, Evolves, Gentle, TaskEvolves;
    var s1 := DropFrames(s, id);
    var s' := MarkCompleting(s1, id, o);
    At(s, id);
    DropFramesKeeps(s, id);
    DropFramesGentle(s, id);
    GentleStep(s, s1);
    WaitingTidy(s1, id, o);
    CompletingEvolves(s1, id, o);
    LostFrame(s1, s', id);
    EvolvesTrans(s, s1, s');
  }

  lemma CompletingEvolves(s: RunState, t: TaskId, o: Outcome)
    requires t in s.tasks && s.tasks[t].phase == Ready
    ensures Evolves(s, MarkCompleting(s, t, o))
  {
  }

  // ---------------------------------------------------------------- what later steps leave alone

  ghost predicate ObservedEnd(s: RunState, t: TaskId, o: Outcome) {
    EndsWith(s, t, o) && s.tasks[t].terminal.value.observed
  }

  lemma ObservedStays(s: RunState, s': RunState, t: TaskId, o: Outcome)
    requires ObservedEnd(s, t, o) && Evolves(s, s')
    ensures ObservedEnd(s', t, o)
  {
    assert TaskEvolves(s.tasks[t], s'.tasks[t]);
  }

  lemma SpentToken(s: RunState, s': RunState, t: TaskId)
    requires Inv(s) && Stepped(s') && t in s.tasks && s.tasks[t].capability !in s.tokens && Evolves(s, s')
    ensures s.tasks[t].capability !in s'.tokens
  {
    At(s, t);
  }

  lemma ObservedNow(s: RunState, t: TaskId, o: Outcome)
    requires EndsWith(s, t, o)
    ensures var s' := MarkObserved(s, t);
            && ObservedEnd(s', t, o) && s'.tasks[t].capability == s.tasks[t].capability
            && s'.readyQueue == s.readyQueue && s'.resumed == s.resumed && s'.tokens == s.tokens && s'.minted == s.minted
            && s'.observers == s.observers && s'.asleep == s.asleep
  {
  }

  lemma GivenStays(s: RunState, s': RunState, cap: Token)
    requires cap in s.given && Evolves(s, s')
    ensures cap in s'.given && s'.given[cap] == s.given[cap]
  {
  }

  lemma BlockForm(s: RunState, id: TaskId, t: TaskId, r: Request)
    requires id in s.tasks && t in s.tasks
    ensures var s' := BlockOnTask(s, id, t, r); s'.asleep == s.asleep
  {
  }

  lemma ClaimForm(s: RunState, t: TaskId)
    requires t in s.tasks
    ensures var s' := Claim(s, t);
            && t in s'.tasks && s'.tasks[t] == s.tasks[t].(claimed := true)
            && s' == s.(tasks := s'.tasks) && s'.tasks.Keys == s.tasks.Keys
  {
  }

  lemma EndHolds(s: RunState, t: TaskId)
    requires Inv(s) && t in s.tasks && s.tasks[t].terminal.Some?
    ensures EndsWith(s, t, s.tasks[t].terminal.value.outcome)
  {
    At(s, t);
  }

  lemma EndIs(s: RunState, t: TaskId, o: Outcome)
    requires EndsWith(s, t, o)
    ensures s.tasks[t].terminal.value.outcome == o
  {
  }

  lemma LiveHolds(s: RunState, t: TaskId)
    requires Inv(s) && t in s.tasks && s.tasks[t].terminal.None?
    ensures s.Live(t)
  {
    At(s, t);
  }

  // ---------------------------------------------------------------- what the host asks for

  lemma RestingIs(s: RunState)
    requires Resting(s)
    ensures Inv(s) && Tidy(s) && NoneLost(s) && s.running.None?
    ensures forall c :: c in s.tokens ==> s.tokens[c] in s.tasks && s.tasks[s.tokens[c]].capability == c && s.tokens[c] != ROOT
    ensures forall r :: r in s.handlers ==> s.handlers[r] in s.tasks && s.hooked && r in s.issued
  {
    forall c | c in s.tokens ensures s.tokens[c] in s.tasks && s.tasks[s.tokens[c]].capability == c && s.tokens[c] != ROOT {
      assert s.minted[c] == s.tokens[c];
      assert ConsumerOk(s, s.tokens[c]);
    }
  }

  /** The handler of request `r` has answered: its task can be continued, unless it has ended. */
  lemma UnhookRests(s: RunState, r: Request)
    requires Resting(s) && r in s.handlers && s.handlers[r] in s.tasks
    ensures var s' := Unhook(s, r); Continuable(s', s.handlers[r], r) && Evolves(s, s')
    ensures var s' := Unhook(s, r); s'.Live(s.handlers[r]) == s.Live(s.handlers[r]) && (s.IsDone(s.handlers[r]) ==> s'.tasks == s.tasks)
  {
    hide Tree, Tidy, Phases, Subtrees, Failures, Settled, Answers, Askings, Gifts, Consumers, Evolves, Gentle;
    var s' := Unhook(s, r);
    RestingIs(s);
    UnhookKeeps(s, r);
    UnhookGentle(s, r);
    GentleStep(s, s');
    UnhookLost(s, r);
    hide Lost;
    At(s, s.handlers[r]);
  }

  lemma UnhookLost(s: RunState, r: Request)
    requires NoneLost(s) && r in s.handlers && s.handlers[r] in s.tasks
    ensures NoneLostBut(Unhook(s, r), s.handlers[r])
  {
    forall t | t != s.handlers[r] && Lost(Unhook(s, r), t) ensures Lost(s, t) {}
  }

  lemma RestsAgain(s: RunState, s': RunState)
    requires Resting(s) && Stepped(s')
    requires s'.asleep ==> s.asleep && s'.readyQueue == s.readyQueue && s'.tasks == s.tasks
    ensures Resting(s')
  {
  }

  /** Cancelling leaves nothing to do; a run that has not begun keeps its root unless it is closed. */
  lemma CancelTidy(s: RunState, s': RunState, x: set<TaskId>)
    requires Inv(s) && Inv(s') && Tidy(s) && Progress(s, s', {}, {}, x) && (Unsettled(s') ==> Unsettled(s)) && CutGoesOn(s, s')
    requires ROOT !in x || s.closed
    ensures Tidy(s') && Evolves(s, s')
  {
    hide Tree, Subtrees, Queue, Requests, Consumers, Failures, Settled, Answers, Askings, Gifts, Unsettled, Stuck, Unswept, Evolves;
    CutStaysNow(s, s');
    hide CarriesOn, CutExact;
    ProgressCascade(s, s', {}, {}, x);
    CascadeEvolves(s, s');
    if !s.hooked && !s.closed {
      UnbegunRoot(s);
      At(s, ROOT);
      assert !s'.IsDone(ROOT);
    }
  }

  /** Task `id` and what is attached below it have been cancelled. */
  ghost predicate CutFrom(s: RunState, s': RunState, id: TaskId) {
    CarriesOn(s) ==> Line(s, s', {id} + Under(s, id), Over(s, id)) && CutExact(s')
  }

  lemma CutFromNow(s: RunState, s': RunState, id: TaskId)
    requires Resting(s) && Falls(s, s', {id} + Under(s, id), Over(s, id))
    ensures CutFrom(s, s', id) && CutFrom(s, s'.(asleep := false), id)
  {
    hide Inv, Under, Over, Stuck, Unswept, Unsettled, NoneLost, Drowsy;
    AwakeLine(s, s', {id} + Under(s, id), Over(s, id));
    hide Line, CutExact, CarriesOn;
  }

  lemma AwakeLine(s: RunState, s': RunState, z: set<TaskId>, a: set<TaskId>)
    ensures Line(s, s', z, a) ==> Line(s, s'.(asleep := false), z, a)
    ensures CutExact(s') ==> CutExact(s'.(asleep := false))
  {
    if Line(s, s', z, a) { SameLine(s, s', s'.(asleep := false), z, a); }
    SameCutting(s', s'.(asleep := false));
  }

  lemma UnbegunRoot(s: RunState)
    requires Inv(s) && !s.hooked && s.issued == {}
    ensures ROOT in s.tasks && s.tasks[ROOT].owner.None? && Quiet(s.tasks[ROOT])
  {
    At(s, ROOT);
  }

  lemma CancelRests(s: RunState, s': RunState)
    requires Inv(s') && Tidy(s') && NoneLost(s') && s.running.None? && Cascade(s, s') && (!s'.asleep || AllDone(s'))
    ensures Resting(s')
  {
  }

  lemma AwakeRests(s: RunState, s': RunState)
    requires Inv(s) && Tidy(s) && NoneLost(s) && s.running.None? && s' == s.(asleep := false)
    ensures Resting(s') && Evolves(s, s')
  {
    HistoryKeeps(s, s');
    SleepGentle(s, s');
    GentleStep(s, s');
    StillNoneLost(s, s');
  }

  lemma SpawnStuck(s: RunState, caller: TaskId, detached: bool, cap: Token)
    requires Inv(s) && MaySpawn(s, caller, cap)
    ensures NoNewStuck(s, SpawnTask(s, caller, detached, cap), {})
  {
    var s' := SpawnTask(s, caller, detached, cap);
    assert s.nextTaskId !in s.tasks;
    assert if detached then s'.tasks[caller] == s.tasks[caller] else s.nextTaskId in s'.tasks[caller].children && s'.Live(s.nextTaskId);
    hide Inv;
    forall t | Stuck(s', t) ensures Stuck(s, t) {
      forall c | c in s.tasks[t].children ensures !s.Live(c) { assert c in s'.tasks[t].children; }
    }
  }

  lemma SpawnDebts(s: RunState, caller: TaskId, detached: bool, cap: Token)
    requires Inv(s) && MaySpawn(s, caller, cap)
    ensures var s' := SpawnTask(s, caller, detached, cap); NoNewStuck(s, s', {}) && NoNewUnswept(s, s', {})
  {
    var s' := SpawnTask(s, caller, detached, cap);
    SpawnStuck(s, caller, detached, cap);
    assert s.nextTaskId !in s.tasks;
    hide Inv, Stuck;
    forall t | Unswept(s', t) ensures Unswept(s, t) {}
  }

  lemma SpawnUnsettled(s: RunState, caller: TaskId, detached: bool, cap: Token)
    requires Inv(s) && MaySpawn(s, caller, cap) && Tree(SpawnTask(s, caller, detached, cap))
    ensures Unsettled(SpawnTask(s, caller, detached, cap)) ==> Unsettled(s)
  {
    hide Phases, Subtrees, Queue, Waits, Requests, Consumers, Failures, Settled, Answers, Askings, Gifts;
    var s' := SpawnTask(s, caller, detached, cap);
    assert s.nextTaskId !in s.tasks;
    assert !AllDone(s') by { assert !s'.IsDone(s.nextTaskId); }
    if NothingBlocking(s') {
      forall t | t in s.tasks ensures !s.Blocking(t) {
        ShelteredGrows(s, s', t);
        assert !s'.Blocking(t);
      }
    }
  }

  lemma SpawnEvolves(s: RunState, caller: TaskId, detached: bool, cap: Token)
    requires Inv(s) && MaySpawn(s, caller, cap)
    ensures Evolves(s, SpawnTask(s, caller, detached, cap))
  {
    hide Tree, Phases, Subtrees, Queue, Waits, Requests, Consumers, Failures, Settled, Answers, Askings, Gifts;
    var s' := SpawnTask(s, caller, detached, cap);
    Outside(s);
    hide Inv;
    forall t | t in s.tasks ensures TaskEvolves(s.tasks[t], s'.tasks[t]) {}
    assert Remembers(s, s');
    hide TaskEvolves, Remembers;
  }

  lemma SpawnForm(s: RunState, caller: TaskId, detached: bool, cap: Token)
    requires Inv(s) && MaySpawn(s, caller, cap)
    ensures var s' := SpawnTask(s, caller, detached, cap);
            && s'.running == s.running && !s'.asleep && s'.hooked == s.hooked && s'.closed == s.closed && s'.issued == s.issued
            && (s.Live(ROOT) ==> s'.Live(ROOT))
  {
    Outside(s);
  }

  lemma SpawnRests(s: RunState, caller: TaskId, detached: bool, cap: Token)
    requires Resting(s) && MaySpawn(s, caller, cap)
    ensures var s' := SpawnTask(s, caller, detached, cap); Resting(s') && Evolves(s, s')
  {
    hide Tree, Phases, Subtrees, Queue, Waits, Requests, Consumers, Failures, Settled, Answers, Askings, Gifts;
    hide Stuck, Unswept, Unsettled, Evolves, SpawnTask, MaySpawn, Lost, CutExact, CarriesOn;
    SpawnKeeps(s, caller, detached, cap);
    SpawnDebts(s, caller, detached, cap);
    SpawnUnsettled(s, caller, detached, cap);
    SpawnEvolves(s, caller, detached, cap);
    SpawnForm(s, caller, detached, cap);
    SpawnNoneLost(s, caller, detached, cap);
    SpawnCut(s, caller, detached, cap);
  }

  lemma SpawnCut(s: RunState, caller: TaskId, detached: bool, cap: Token)
    requires Inv(s) && MaySpawn(s, caller, cap)
    ensures CutStays(s, SpawnTask(s, caller, detached, cap)) && (CarriesOn(SpawnTask(s, caller, detached, cap)) <==> CarriesOn(s))
  {
    var s' := SpawnTask(s, caller, detached, cap);
    Outside(s);
    forall t ensures Revised(s', t) <==> Revised(s, t) {}
    forall r ensures AskedEarly(s', r) <==> AskedEarly(s, r) {}
  }

  lemma SpawnNoneLost(s: RunState, caller: TaskId, detached: bool, cap: Token)
    requires Resting(s) && MaySpawn(s, caller, cap)
    ensures NoneLost(SpawnTask(s, caller, detached, cap))
  {
    SpawnLost(s, caller, detached, cap);
    StillNoneLost(s, SpawnTask(s, caller, detached, cap));
  }

  lemma Outside(s: RunState)
    requires Inv(s)
    ensures s.nextTaskId !in s.tasks && s.nextTaskId != ROOT
    ensures forall c :: c in s.tokens ==> c in s.minted
  {
  }

  lemma DeliverQuiet(s: RunState, t: TaskId, cap: Token, o: Outcome)
    requires EndsWith(s, t, o) && s.tasks[t].capability == cap
    ensures var a := Deliver(s, cap, o); a.tasks == s.tasks && a.running == s.running && (Drowsy(a) <==> Drowsy(s)) && Noticed(a, t)
  {
  }

  /** The outcome of a task goes to whoever may have it, and its token is used up. */
  lemma DeliverRests(s: RunState, t: TaskId, o: Outcome)
    requires Resting(s) && EndsWith(s, t, o) && s.tasks[t].capability in s.tokens
    ensures var a := Deliver(s, s.tasks[t].capability, o);
            Resting(a) && Evolves(s, a) && a.tasks == s.tasks && Noticed(a, t) && s.tasks[t].capability !in s.observers
  {
    var cap := s.tasks[t].capability;
    StandsFor(s, t, o);
    NoObserver(s, t);
    hide Inv, Tidy, Evolves, NoneLost, MayDeliver, Noticed;
    DeliverSteady(s, cap, o);
    DeliverQuiet(s, t, cap, o);
    hide Deliver, Drowsy;
  }

  lemma ObservedRests(s: RunState, t: TaskId)
    requires Resting(s) && s.IsDone(t) && s.tasks[t].terminal.Some? && Noticed(s, t)
    ensures var s' := MarkObserved(s, t); Resting(s') && Evolves(s, s') && s'.observers == s.observers
  {
    hide Noticed;
    hide Tree, Tidy, Phases, Subtrees, Waits, Requests, Consumers, Failures, Settled, Answers, Askings, Gifts, Evolves, Gentle, Lost;
    MarkObservedKeeps(s, t);
    ObservedGentle(s, t);
    GentleStep(s, MarkObserved(s, t));
    StillNoneLost(s, MarkObserved(s, t));
  }

  lemma TakeRests(s: RunState, t: TaskId, o: Outcome)
    requires Resting(s) && EndsWith(s, t, o) && s.tasks[t].capability in s.tokens
    ensures Deliver(s, s.tasks[t].capability, o).tasks == s.tasks && s.tasks[t].capability !in s.observers
    ensures var s' := MarkObserved(Deliver(s, s.tasks[t].capability, o), t); Resting(s') && Evolves(s, s')
  {
    DeliverRests(s, t, o);
    hide Resting, Evolves, Noticed, Deliver, MarkObserved;
    var a := Deliver(s, s.tasks[t].capability, o);
    ObservedRests(a, t);
    EvolvesTrans(s, a, MarkObserved(a, t));
  }

  lemma ClaimRests(s: RunState, t: TaskId)
    requires Resting(s) && t in s.tasks
    ensures Resting(Claim(s, t)) && Evolves(s, Claim(s, t))
  {
    hide Tree, Tidy, Phases, Subtrees, Waits, Requests, Consumers, Failures, Settled, Answers, Askings, Gifts, Evolves, Gentle;
    ClaimKeeps(s, t);
    ClaimGentle(s, t);
    GentleStep(s, Claim(s, t));
    StillNoneLost(s, Claim(s, t));
  }

  lemma RegisterRests(s: RunState, t: TaskId)
    requires Resting(s) && s.Live(t) && s.tasks[t].claimed && s.tasks[t].waiters == [] && s.tasks[t].capability in s.tokens
    ensures var s' := Register(s, s.tasks[t].capability); Resting(s') && Evolves(s, s')
  {
    hide Tree, Tidy, Phases, Subtrees, Waits, Requests, Consumers, Failures, Settled, Answers, Askings, Gifts, Evolves, Gentle;
    RegisterKeeps(s, t);
    RegisterGentle(s, t);
    GentleStep(s, Register(s, s.tasks[t].capability));
    StillNoneLost(s, Register(s, s.tasks[t].capability));
  }

  /** What is stored for a task is its outcome. */
  lemma StoredOutcome(s: RunState, t: TaskId)
    requires Inv(s) && Tidy(s) && s.IsDone(t) && s.tasks[t].terminal.Some? && s.tasks[t].capability in s.completed
    ensures s.completed[s.tasks[t].capability] == s.tasks[t].terminal.value.outcome
  {
    assert !Unswept(s, t);
  }

  lemma UnhookForm(s: RunState, r: Request)
    requires r in s.handlers && s.handlers[r] in s.tasks
    ensures var id := s.handlers[r];
            Unhook(s, r) == s.(handlers := s.handlers - {r},
                               tasks := if s.tasks[id].phase != Done then s.tasks[id := s.tasks[id].(blocker := InHand)] else s.tasks)
  {
  }

  lemma StillResting(s: RunState, s': RunState)
    requires s.running.None? && Cascade(s, s')
    ensures s'.running.None?
  {
  }

  lemma AwakeForm(s: RunState, s': RunState, t: TaskId)
    ensures var a := s'.(asleep := false);
            && a.LiveSet() == s'.LiveSet()
            && (EndsWith(s', t, Cancelled) ==> EndsWith(a, t, Cancelled)) && (Told(s, s', t, Cancelled) ==> Told(s, a, t, Cancelled))
            && (SameRequests(s, s') ==> SameRequests(s, a))
  {
  }

  lemma AwakeCascade(s: RunState, s': RunState, t: TaskId)
    ensures var a := s'.(asleep := false);
            (Cascade(s, s') ==> Cascade(s, a) && SameRequests(s, a)) && (t in s.tasks && EndsAlone(s, s', t) ==> EndsAlone(s, a, t))
  {
  }

  lemma DeliveredForm(s: RunState, t: TaskId, cap: Token, o: Outcome)
    requires t in s.tasks && s.tasks[t].terminal.Some?
    ensures Deliver(s, cap, o).tasks == s.tasks && SameRequests(s, MarkObserved(Deliver(s, cap, o), t))
  {
  }

  lemma SameRequestsRefl(s: RunState)
    ensures SameRequests(s, s)
  {
  }

  lemma RegisterForm(s: RunState, cap: Token)
    ensures SameRequests(s, Register(s, cap))
  {
  }

  lemma PhaseKnown(s: RunState, t: TaskId)
    requires Inv(s) && t in s.tasks
    ensures s.IsDone(t) <==> s.tasks[t].terminal.Some?
  {
    At(s, t);
  }

  // ---------------------------------------------------------------- cancelling the run

  /** The host closes the run; unless an outcome was reported, the run is now reported cancelled. */
  function CloseRun(s: RunState): RunState {
    s.(closed := true,
       publicOutcome := if s.publicOutcome.None? then Some(Cancelled) else s.publicOutcome,
       hostSettled := s.hostSettled || s.publicOutcome.None?)
  }

  lemma CloseDiff(s: RunState)
    ensures var s' := CloseRun(s); SameScheduling(s, s') && SameWaiters(s, s') && SameClaims(s, s')
  {
  }

  lemma CloseSettled(s: RunState)
    requires Tree(s) && Settled(s)
    ensures Tree(CloseRun(s)) && Settled(CloseRun(s))
  {
    var s' := CloseRun(s);
    assert Tree(s') by { forall t | t in s'.tasks ensures OwnerOk(s', t) { assert OwnerOk(s, t); } }
    SameBlocking(s, s');
    assert AllDone(s) ==> AllDone(s') by { if AllDone(s) { forall t | t in s'.tasks ensures s'.IsDone(t) { assert s.IsDone(t); } } }
  }

  lemma CloseKeeps(s: RunState)
    requires Inv(s)
    ensures Inv(CloseRun(s))
  {
    hide Phases, Queue, Waits, Requests, Consumers, Tree, Settled, Answers, Askings, Gifts;
    var s' := CloseRun(s);
    CloseDiff(s);
    CloseSettled(s);
    HearingFrame(s, s');
    SchedulingFrame(s, s');
    WaitsFrame(s, s');
    ConsumersFrame(s, s');
  }

  lemma CloseTidy(s: RunState)
    requires Inv(s) && Tidy(s)
    ensures Tree(CloseRun(s)) && Tidy(CloseRun(s)) && Evolves(s, CloseRun(s)) && (NoneLost(s) ==> NoneLost(CloseRun(s)))
  {
    hide Phases, Subtrees, Queue, Waits, Requests, Consumers, Failures, Settled, Answers, Askings, Gifts;
    SameLost(s, CloseRun(s));
    SameCut(s, CloseRun(s));
    hide Lost, CutExact, CarriesOn, Evolves;
    var s' := CloseRun(s);
    CloseSettled(s);
    forall u | Stuck(s', u) ensures Stuck(s, u) {}
    forall u | Unswept(s', u) ensures Unswept(s, u) {}
    SameBlocking(s, s');
    if AllDone(s') {
      assert AllDone(s) by { forall t | t in s.tasks ensures s.IsDone(t) { assert s'.IsDone(t); } }
      assert NothingBlocking(s);
    }
    ClosedEvolves(s, s');
  }

  lemma CloseForm(s: RunState)
    requires Inv(s)
    ensures var s' := CloseRun(s);
            && s'.tasks == s.tasks && s'.closed && s'.running == s.running && s'.hooked == s.hooked && s'.asleep == s.asleep
            && s'.nextTaskId == s.nextTaskId && 1 <= s.nextTaskId
            && s'.issued == s.issued && s'.minted == s.minted
            && s'.publicOutcome == (if s.publicOutcome.None? then Some(Cancelled) else s.publicOutcome)
  {
  }

  /** The root of a run that has an outcome has ended, unless the host imposed the outcome. */
  lemma IdKnown(s: RunState, id: TaskId)
    requires Inv(s) && 1 <= id < s.nextTaskId && s.publicOutcome.Some?
    ensures id in s.tasks && (id == ROOT && s.Live(id) ==> s.hostSettled)
  {
  }

  lemma NoneRevived(s: RunState, s': RunState, id: TaskId)
    requires Cascade(s, s') && (s.Live(id) ==> EndsWith(s', id, Cancelled))
    requires forall t :: 1 <= t < id ==> !s.Live(t)
    ensures forall t :: 1 <= t <= id ==> !s'.Live(t)
    ensures s.publicOutcome.Some? ==> s'.publicOutcome == s.publicOutcome
  {
    assert s'.tasks.Keys == s.tasks.Keys;
    forall t | 1 <= t <= id ensures !s'.Live(t) {
      assert !s.Live(t) || t == id;
      if t in s.tasks { assert TaskCascade(s.tasks[t], s'.tasks[t]); }
    }
  }

  lemma SameLogs(s: RunState, s': RunState)
    requires Cascade(s, s')
    ensures s'.issued == s.issued && s'.minted == s.minted && s'.closed == s.closed
  {
  }

  lemma AllCancelled(s: RunState)
    requires Inv(s) && Tidy(s) && s.publicOutcome.Some? && (forall t :: 1 <= t < s.nextTaskId ==> !s.Live(t))
    ensures AllDone(s) && (s.hooked ==> s.finalOutcome == s.publicOutcome)
  {
    forall t | t in s.tasks ensures s.IsDone(t) { assert !s.Live(t); }
    assert s.IsDone(ROOT);
  }

  // ---------------------------------------------------------------- a new run

  function InitialTask(): Task {
    Task(0, false, None, false, Ready, Starter, None, None, [], [], Unblocked)
  }

  ghost function Initial(traps: Request -> bool): RunState {
    RunState(2, map[ROOT := InitialTask()], map[], [ROOT], false, false, map[], {}, map[], map[],
             None, None, false, None, false, {}, map[], [], [], [], map[], map[], map[], {}, {}, traps)
  }

  lemma InitialRests(traps: Request -> bool)
    ensures Resting(Initial(traps))
  {
    var s := Initial(traps);
    assert OwnerOk(s, ROOT) && PhaseOk(s, ROOT) && BlockerOk(s, ROOT) && ConsumerOk(s, ROOT);
  }
}
