/** What holds between the steps of a run, and how a run evolves over any number of them. */
module TaskRest {
  import opened Options
  import opened TaskModel
  import opened TaskHearing
  import opened TaskLemmas
  import opened TaskProgress
  import opened TaskRevision
  import opened TaskSteps

  // ---------------------------------------------------------------- how a run evolves

  ghost predicate TaskEvolves(a: Task, b: Task) {
    && b.capability == a.capability && b.owner == a.owner && b.detached == a.detached
    && a.children <= b.children
    && (a.claimed ==> b.claimed)
    && (a.phase == Done ==> b.phase == Done)
    && (a.phase == Done && a.terminal.Some? ==>
          && b.terminal.Some? && b.terminal.value.outcome == a.terminal.value.outcome
          && (a.terminal.value.observed ==> b.terminal.value.observed))
    && (a.phase == Completing ==> b.phase == Done || (b.phase == Completing && b.pendingCompletion == a.pendingCompletion))
  }

  /** Between one resting state and a later one: no task is revived or changes its outcome, no
      reported outcome changes, no token changes its meaning or comes back, and nothing logged is taken back. */
  ghost predicate Evolves(s: RunState, s': RunState) {
    && s.tasks.Keys <= s'.tasks.Keys
    && (forall t {:trigger s'.tasks[t]} :: t in s.tasks ==> TaskEvolves(s.tasks[t], s'.tasks[t]))
    && (s.publicOutcome.Some? ==> s'.publicOutcome == s.publicOutcome && s'.hostSettled == s.hostSettled)
    && (s.finalOutcome.Some? ==> s'.finalOutcome == s.finalOutcome)
    && (s.hooked ==> s'.hooked) && (s.closed ==> s'.closed)
    && (forall c {:trigger c in s'.minted} :: c in s.minted ==> c in s'.minted && s'.minted[c] == s.minted[c])
    && (forall c {:trigger c in s'.tokens} :: c in s.minted && c in s'.tokens ==> c in s.tokens)
    && s.issued <= s'.issued && s'.traps == s.traps
    && s.resumed <= s'.resumed && s.deliveries <= s'.deliveries && s.unhandled <= s'.unhandled
    && (forall c {:trigger c in s'.observers} :: c in s.observers ==> c in s'.observers || c in s'.deliveries)
    && Remembers(s, s')
  }

  /** Who asked, how tasks ended at first and what tokens gave is never taken back. */
  ghost predicate Remembers(s: RunState, s': RunState) {
    && KeptAsked(s, s') && s.watched <= s'.watched && s.cut <= s'.cut
    && (forall t {:trigger t in s'.firsts} :: t in s.firsts ==> t in s'.firsts && s'.firsts[t] == s.firsts[t])
    && (forall c {:trigger c in s'.given} :: c in s.given ==> c in s'.given && s'.given[c] == s.given[c])
  }

  lemma RemembersTrans(a: RunState, b: RunState, c: RunState)
    requires Remembers(a, b) && Remembers(b, c)
    ensures Remembers(a, c)
  {
    forall t | t in a.firsts ensures t in c.firsts && c.firsts[t] == a.firsts[t] { assert t in b.firsts; }
    forall k | k in a.given ensures k in c.given && c.given[k] == a.given[k] { assert k in b.given; }
    forall r | r in a.asked ensures r in c.asked && c.asked[r] == a.asked[r] { assert r in b.asked; }
  }

  lemma EvolvesRefl(s: RunState)
    ensures Evolves(s, s)
  {
  }

  lemma EvolvesTrans(a: RunState, b: RunState, c: RunState)
    requires Evolves(a, b) && Evolves(b, c)
    ensures Evolves(a, c)
  {
    RemembersTrans(a, b, c);
    hide Remembers;
    forall t | t in a.tasks ensures TaskEvolves(a.tasks[t], c.tasks[t]) {
      assert TaskEvolves(a.tasks[t], b.tasks[t]) && TaskEvolves(b.tasks[t], c.tasks[t]);
    }
    forall k | k in a.minted ensures k in c.minted && c.minted[k] == a.minted[k] {
      assert k in b.minted && b.minted[k] == a.minted[k];
    }
    forall k | k in a.observers ensures k in c.observers || k in c.deliveries {
      assert k in b.observers || k in b.deliveries;
      if k in b.deliveries { StaysLogged(k, b.deliveries, c.deliveries); }
    }
  }

  lemma CascadeEvolves(s: RunState, s': RunState)
    requires Cascade(s, s')
    ensures Evolves(s, s')
  {
    forall t | t in s.tasks ensures TaskEvolves(s.tasks[t], s'.tasks[t]) {
      assert TaskCascade(s.tasks[t], s'.tasks[t]);
    }
  }

  /** Steps that leave terminals, claims and pending completions alone. */
  ghost predicate Mild(s: RunState, s': RunState) {
    && SameTerminals(s, s') && SameOutcomes(s, s')
    && (forall t {:trigger s'.tasks[t]} :: t in s.tasks ==>
          && (s.tasks[t].claimed ==> s'.tasks[t].claimed)
          && (s.tasks[t].phase == Completing ==> s'.tasks[t].phase == Completing && s'.tasks[t].pendingCompletion == s.tasks[t].pendingCompletion))
    && (s.hooked ==> s'.hooked) && (s.closed ==> s'.closed)
    && s'.minted == s.minted && s'.tokens.Keys <= s.tokens.Keys && s.issued <= s'.issued
    && s.resumed <= s'.resumed && s.deliveries <= s'.deliveries && s.unhandled <= s'.unhandled
    && (forall c {:trigger c in s'.observers} :: c in s.observers ==> c in s'.observers || c in s'.deliveries)
    && s'.traps == s.traps && Remembers(s, s')
  }

  lemma MildEvolves(s: RunState, s': RunState)
    requires Mild(s, s')
    ensures Evolves(s, s')
  {
  }

  // ---------------------------------------------------------------- resting

  /** Nothing is left to finish, announce or settle. */
  ghost predicate Tidy(s: RunState)
    requires Tree(s)
  {
    && (forall t {:trigger Stuck(s, t)} :: !Stuck(s, t))
    && (forall t {:trigger Unswept(s, t)} :: !Unswept(s, t))
    && !Unsettled(s)
    && (!s.hooked ==> s.issued == {} && (s.Live(ROOT) || s.closed))
    && (CarriesOn(s) ==> CutExact(s))
  }

  /** Every live task, apart perhaps from `id`, is run, going to be run, waits for something, or
      trapped on being told of a cancellation. */
  ghost predicate NoneLostBut(s: RunState, id: TaskId) {
    forall t {:trigger Lost(s, t)} :: t != id ==> !Lost(s, t)
  }

  ghost predicate NoneLost(s: RunState) {
    forall t {:trigger Lost(s, t)} :: !Lost(s, t)
  }

  lemma StillNoneLost(s: RunState, s': RunState)
    requires NoneLost(s) && NoNewLost(s, s')
    ensures NoneLost(s')
  {
    hide Lost;
  }

  ghost predicate Steady(s: RunState) {
    Inv(s) && Tidy(s) && NoneLost(s)
  }

  ghost predicate Resting(s: RunState) {
    Inv(s) && Tidy(s) && NoneLost(s) && s.running.None? && !Drowsy(s)
  }

  /** Steps after which nothing more is left to do than before. */
  ghost predicate Calm(s: RunState, s': RunState) {
    && SameTerminals(s, s') && SameOutcomes(s, s') && s'.hooked == s.hooked && s'.closed == s.closed
    && s'.unhandled == s.unhandled && (s'.hooked || s'.issued == s.issued) && s'.firsts == s.firsts && s'.cut == s.cut && s'.traps == s.traps
    && (forall t {:trigger s'.tasks[t]} :: t in s.tasks ==>
          && (s'.tasks[t].phase == Completing ==> s.tasks[t].phase == Completing)
          && (s.tasks[t].phase == Done ==> s'.tasks[t].waiters == s.tasks[t].waiters)
          && (s.tasks[t].phase == Done && s.tasks[t].capability in s'.observers ==> s.tasks[t].capability in s.observers))
    && (forall c {:trigger s'.completed[c]} :: c in s'.completed ==> c in s.completed && s'.completed[c] == s.completed[c])
  }

  lemma CalmDebts(s: RunState, s': RunState)
    requires Calm(s, s')
    ensures NoNewStuck(s, s', {}) && NoNewUnswept(s, s', {})
  {
    forall t | Stuck(s', t) ensures Stuck(s, t) {}
    forall t | Unswept(s', t) ensures Unswept(s, t) {}
  }

  lemma CalmUnsettled(s: RunState, s': RunState)
    requires Tree(s) && Tree(s') && Calm(s, s')
    ensures Unsettled(s') ==> Unsettled(s)
  {
    if NothingBlocking(s') { StillNothingBlocking(s', s); }
    if AllDone(s') { forall t | t in s.tasks ensures s.IsDone(t) { assert s'.IsDone(t); } }
  }

  lemma CalmTidy(s: RunState, s': RunState)
    requires Inv(s) && Inv(s') && Tidy(s) && Calm(s, s') && KeptAsked(s, s')
    ensures Tidy(s')
  {
    hide Tree, Phases, Subtrees, Queue, Waits, Requests, Consumers, Failures, Settled, Answers, Askings, Gifts, Unsettled, Stuck, Unswept, CutExact, CarriesOn;
    CalmDebts(s, s');
    CalmUnsettled(s, s');
    CalmCut(s, s');
  }

  lemma CalmCut(s: RunState, s': RunState)
    requires SameTerminals(s, s') && s'.firsts == s.firsts && s'.cut == s.cut && s'.traps == s.traps && KeptAsked(s, s')
    ensures CutStays(s, s') && (CarriesOn(s') ==> CarriesOn(s))
  {
    forall t ensures Revised(s', t) <==> Revised(s, t) {}
    if CarriesOn(s') {
      forall r | AskedEarly(s, r) ensures !s.traps(r) { assert r in s'.asked && AskedEarly(s', r); }
    }
  }

  lemma ProgressCut(s: RunState, s': RunState)
    requires Tree(s) && Tidy(s) && LogsCascade(s, s') && CutGoesOn(s, s')
    ensures CarriesOn(s') ==> CutExact(s')
  {
    hide Stuck, Unswept, Unsettled, Tree;
    CutStaysNow(s, s');
  }

  lemma ProgressTidy(s: RunState, s': RunState, x: set<TaskId>)
    requires Inv(s) && Inv(s') && Tidy(s) && Progress(s, s', {}, {}, x) && !Unsettled(s') && s.hooked && CutGoesOn(s, s')
    ensures Tidy(s')
  {
    hide Tree, Phases, Subtrees, Queue, Waits, Requests, Consumers, Failures, Settled, Answers, Askings, Gifts, Unsettled, Stuck, Unswept, CutExact, CutGoesOn, CarriesOn;
    ProgressCut(s, s');
    hide TasksCascade, Orphans;
  }

  lemma WaitingTidy(s: RunState, t: TaskId, o: Outcome)
    requires Inv(s) && Tidy(s) && s.Live(t) && !NoLiveChild(s, t) && s.hooked && Inv(MarkCompleting(s, t, o))
    ensures Tidy(MarkCompleting(s, t, o))
  {
    hide Phases, Subtrees, Queue, Waits, Requests, Consumers, Failures, Settled, Answers, Askings, Gifts, NothingBlocking;
    var s' := MarkCompleting(s, t, o);
    forall u | Stuck(s', u) ensures Stuck(s, u) {}
    forall u | Unswept(s', u) ensures Unswept(s, u) {}
    MarkCompletingDiff(s, t, o);
    CalmCut(s, s');
    if NothingBlocking(s') { StillNothingBlocking(s', s); }
    assert !AllDone(s') by { assert !s'.IsDone(t); }
  }

  // ---------------------------------------------------------------- small steps

  ghost predicate Gentle(s: RunState, s': RunState) {
    Calm(s, s') && Mild(s, s')
  }

  lemma GentleStep(s: RunState, s': RunState)
    requires Inv(s) && Inv(s') && Tidy(s) && Gentle(s, s')
    ensures Tidy(s') && Evolves(s, s')
  {
    hide Inv, Tree, Tidy, Calm, Evolves, KeptAsked;
    assert KeptAsked(s, s');
    hide Mild;
    CalmTidy(s, s');
    MildEvolves(s, s');
  }

  lemma SpendGentle(s: RunState, w: TaskId, r: Request, p: Payload)
    requires w in s.tasks
    ensures Gentle(s, Spend(s, w, r, p))
  {
    hide Spend;
    SpendForm(s, w, r, p);
  }

  lemma ReadyCalm(s: RunState, w: TaskId, work: Work)
    requires s.Live(w) && s.tasks[w].phase != Completing
    ensures Calm(s, MakeReady(s, w, work))
  {
  }

  lemma ReadyGentle(s: RunState, w: TaskId, work: Work)
    requires s.Live(w) && s.tasks[w].phase != Completing
    ensures Gentle(s, MakeReady(s, w, work))
  {
    ReadyCalm(s, w, work);
    hide Calm;
  }

  lemma DropFramesGentle(s: RunState, t: TaskId)
    ensures Gentle(s, DropFrames(s, t)) && NoNewLost(s, DropFrames(s, t))
  {
    SameLost(s, DropFrames(s, t));
  }

  lemma DropRequestGentle(s: RunState, r: Request)
    ensures Gentle(s, DropRequest(s, r)) && NoNewLost(s, DropRequest(s, r))
  {
    SameLost(s, DropRequest(s, r));
  }

  lemma IssueGentle(s: RunState, t: TaskId, r: Request)
    requires s.hooked
    ensures Gentle(s, Issue(s, t, r)) && NoNewLost(s, Issue(s, t, r))
  {
    SameLost(s, Issue(s, t, r));
  }

  /** A task is given work or claimed. */
  ghost predicate Touched(s: RunState, s': RunState) {
    && s'.tasks.Keys == s.tasks.Keys && s' == s.(tasks := s'.tasks)
    && (forall t {:trigger s'.tasks[t]} :: t in s.tasks ==>
          && s'.tasks[t] == s.tasks[t].(work := s'.tasks[t].work, claimed := s'.tasks[t].claimed) && (s.tasks[t].claimed ==> s'.tasks[t].claimed))
  }

  lemma TouchedCalm(s: RunState, s': RunState)
    requires Touched(s, s')
    ensures Calm(s, s')
  {
  }

  lemma TouchedMild(s: RunState, s': RunState)
    requires Touched(s, s')
    ensures Mild(s, s')
  {
  }

  lemma TakeWorkGentle(s: RunState, t: TaskId)
    requires t in s.tasks
    ensures Gentle(s, TakeWork(s, t)) && NoNewLost(s, TakeWork(s, t))
  {
    hide Calm, Mild, NoNewLost;
    TouchedCalm(s, TakeWork(s, t));
    TouchedMild(s, TakeWork(s, t));
    SameLost(s, TakeWork(s, t));
  }

  lemma ClaimGentle(s: RunState, t: TaskId)
    requires t in s.tasks
    ensures Gentle(s, Claim(s, t)) && NoNewLost(s, Claim(s, t))
  {
    hide Calm, Mild, NoNewLost;
    TouchedCalm(s, Claim(s, t));
    TouchedMild(s, Claim(s, t));
    SameLost(s, Claim(s, t));
  }

  lemma ObservedGentle(s: RunState, t: TaskId)
    requires s.IsDone(t) && s.tasks[t].terminal.Some?
    ensures Gentle(s, MarkObserved(s, t)) && NoNewLost(s, MarkObserved(s, t))
  {
    LostFrame(s, MarkObserved(s, t), t);
  }

  lemma ForgetGentle(s: RunState, cap: Token)
    ensures Gentle(s, Forget(s, cap)) && NoNewLost(s, Forget(s, cap))
  {
    SameLost(s, Forget(s, cap));
  }

  lemma DeliverGentle(s: RunState, cap: Token, o: Outcome)
    requires cap in s.given ==> s.given[cap] == o
    ensures Gentle(s, Deliver(s, cap, o)) && NoNewLost(s, Deliver(s, cap, o))
  {
    SameLost(s, Deliver(s, cap, o));
  }

  lemma AskGentle(s: RunState, r: Request, id: TaskId, t: TaskId)
    requires r !in s.asked
    ensures Gentle(s, Ask(s, r, id, t, false)) && NoNewLost(s, Ask(s, r, id, t, false))
  {
    SameLost(s, Ask(s, r, id, t, false));
  }

  lemma BlockOnTaskMild(s: RunState, id: TaskId, t: TaskId, r: Request)
    requires s.Live(id) && s.Live(t) && s.tasks[id].phase == Ready && r !in s.asked
    ensures Mild(s, BlockOnTask(s, id, t, r))
  {
    hide BlockOnTask;
    BlockedForm(s, id, t, r);
  }

  lemma BlockOnTaskGentle(s: RunState, id: TaskId, t: TaskId, r: Request)
    requires s.Live(id) && s.Live(t) && s.tasks[id].phase == Ready && r !in s.asked
    ensures Gentle(s, BlockOnTask(s, id, t, r))
  {
    BlockOnTaskMild(s, id, t, r);
    hide BlockOnTask, Mild;
    BlockedForm(s, id, t, r);
  }

  lemma BlockOnHandlerGentle(s: RunState, id: TaskId, r: Request)
    requires s.Live(id) && s.tasks[id].phase == Ready
    ensures Gentle(s, BlockOnHandler(s, id, r))
  {
  }

  lemma UnhookGentle(s: RunState, r: Request)
    requires r in s.handlers && s.handlers[r] in s.tasks
    ensures Gentle(s, Unhook(s, r))
  {
  }

  lemma PopGentle(s: RunState, s': RunState)
    requires QueueOnly(s, s') && s'.hooked == s.hooked
    ensures Gentle(s, s')
  {
  }

  lemma SleepGentle(s: RunState, s': RunState)
    requires s' == s.(asleep := s'.asleep)
    ensures Gentle(s, s') && NoNewLost(s, s')
  {
    SameLost(s, s');
  }

  /** The first step installs the hook; the root is live then. */
  lemma BeginTidy(s: RunState)
    requires Inv(s) && Tidy(s) && s.readyQueue != [] && Inv(BeginStep(s)) && !s.closed
    ensures Tidy(BeginStep(s)) && Evolves(s, BeginStep(s))
  {
    hide Phases, Subtrees, Queue, Waits, Requests, Consumers, Failures, Settled, Answers, Askings, Gifts;
    var s' := BeginStep(s);
    assert Mild(s, s');
    CalmCut(s, s');
    forall u | Stuck(s', u) ensures Stuck(s, u) {}
    forall u | Unswept(s', u) ensures Unswept(s, u) {}
    if s.hooked {
      PopDiff(s, s');
      if NothingBlocking(s') { StillNothingBlocking(s', s); }
      assert AllDone(s) <==> AllDone(s');
    }
  }

  lemma RegisterLost(s: RunState, cap: Token)
    ensures NoNewLost(s, Register(s, cap))
  {
    SameLost(s, Register(s, cap));
  }

  /** The capability of a live task is nobody else's. */
  lemma OwnCapability(s: RunState, t: TaskId, u: TaskId)
    requires Inv(s) && s.Live(t) && u in s.tasks && s.tasks[u].capability == s.tasks[t].capability
    ensures u == t
  {
    assert ConsumerOk(s, u) && ConsumerOk(s, t);
  }

  lemma RegisterCalm(s: RunState, t: TaskId)
    requires Inv(s) && s.Live(t)
    ensures Calm(s, Register(s, s.tasks[t].capability))
  {
    var s' := Register(s, s.tasks[t].capability);
    forall u | u in s.tasks && s.tasks[u].phase == Done && s.tasks[u].capability in s'.observers
      ensures s.tasks[u].capability in s.observers
    {
      if s.tasks[u].capability == s.tasks[t].capability { OwnCapability(s, t, u); }
    }
    hide Inv;
  }

  lemma RegisterMild(s: RunState, cap: Token)
    ensures Mild(s, Register(s, cap))
  {
  }

  lemma RegisterGentle(s: RunState, t: TaskId)
    requires Inv(s) && s.Live(t)
    ensures Gentle(s, Register(s, s.tasks[t].capability)) && NoNewLost(s, Register(s, s.tasks[t].capability))
  {
    hide Inv, Calm, Mild, NoNewLost;
    RegisterLost(s, s.tasks[t].capability);
    RegisterCalm(s, t);
    RegisterMild(s, s.tasks[t].capability);
  }

  // ---------------------------------------------------------------- one step of the run loop

  /** Task `id` is being run. */
  ghost predicate Stepping(s: RunState, id: TaskId) {
    && Inv(s) && Tidy(s) && NoneLost(s) && s.hooked && !s.asleep
    && id in s.tasks && s.running == Some(id) && s.tasks[id].phase == Ready && s.tasks[id].work == Idle
  }

  /** The step is over. */
  ghost predicate Stepped(s: RunState) {
    Inv(s) && Tidy(s) && NoneLost(s) && s.hooked && s.running.None?
  }

  lemma NotRunning(s: RunState, id: TaskId)
    requires Inv(s) && s.running.Some? ==> s.running == Some(id)
    requires Inv(s) && (s.IsDone(id) || (id in s.tasks && s.tasks[id].phase == Completing))
    ensures s.running.None?
  {
  }

  /** The request of the running task carries its frame. */
  ghost predicate Framed(s: RunState, id: TaskId, r: Request) {
    r in s.frames && s.frames[r] == id
  }

  lemma SteppingFails(s: RunState, id: TaskId)
    requires Stepping(s, id)
    ensures MayComplete(s, id) && !AlreadyEnding(s, id) && s.Live(id) && Inv(s) && Tidy(s) && NoneLostBut(s, id)
  {
  }

  lemma RunsOn(s: RunState, s': RunState, id: TaskId)
    requires Cascade(s, s') && (s.running.None? || s.running == Some(id))
    ensures s'.running.None? || s'.running == Some(id)
  {
  }

  lemma SteppedNow(s: RunState, s': RunState, id: TaskId)
    requires Inv(s) && Tidy(s) && s.hooked && Inv(s') && !Unsettled(s') && Progress(s, s', {}, {}, {id})
    requires s.running.None? || s.running == Some(id)
    requires s'.IsDone(id) && NoneLostBut(s, id) && NoNewLost(s, s') && CutGoesOn(s, s')
    ensures Stepped(s') && Evolves(s, s') && s'.issued == s.issued && s'.handlers == s.handlers && s'.minted == s.minted && s'.closed == s.closed
  {
    DoneNotLost(s', id);
    hide Inv, Tree, Tidy, Unsettled, Evolves, Lost, CutGoesOn;
    ProgressCascade(s, s', {}, {}, {id});
    RunsOn(s, s', id);
    NotRunning(s', id);
    ProgressTidy(s, s', {id});
    CascadeEvolves(s, s');
    SameIds(s, s');
  }

  lemma SteppingIs(s: RunState, id: TaskId)
    requires Stepping(s, id)
    ensures s.hooked && !s.asleep && id in s.tasks && s.running == Some(id)
  {
  }

  /** Task `id` can be continued with request `r`: it is being run, or its handler has answered. */
  ghost predicate Continuable(s: RunState, id: TaskId, r: Request) {
    && Inv(s) && Tidy(s) && NoneLostBut(s, id) && s.hooked && id in s.tasks
    && (r in s.frames ==> s.frames[r] == id)
    && (|| (Stepping(s, id) && Framed(s, id, r))
        || (s.running.None? && s.IsDone(id))
        || (s.running.None? && s.tasks[id].phase == Waiting && s.tasks[id].blocker == InHand && Framed(s, id, r)))
  }

  lemma ContinuableIs(s: RunState, id: TaskId, r: Request)
    requires Continuable(s, id, r)
    ensures Inv(s) && Tidy(s) && s.hooked && id in s.tasks && (s.running.None? || s.running == Some(id)) && MayComplete(s, id) && NoneLostBut(s, id)
    ensures s.Live(id) ==> MaySpend(s, id, r) && !AlreadyEnding(s, id) && r in s.frames
    ensures s.IsDone(id) ==> s.running.None? && AlreadyEnding(s, id)
  {
    At(s, id);
  }

  lemma ContinuedPlain(s: RunState, id: TaskId, r: Request, p: Payload)
    requires Continuable(s, id, r) && s.Live(id) && !p.Status?
    ensures MayTell(s, id, r, p)
  {
    At(s, id);
    TellsPlain(s, id, r, p);
  }

  lemma SpentLost(s: RunState, id: TaskId, r: Request, p: Payload)
    requires id in s.tasks
    ensures NoneLostBut(s, id) ==> NoneLostBut(Spend(s, id, r, p), id)
    ensures !s.traps(r) ==> !TrappedLast(Spend(s, id, r, p), id)
  {
    LastResumedAppend(s.resumed, Resumption(id, r, p, s.Live(id)), id);
    hide Lost;
    var s' := Spend(s, id, r, p);
    forall t | t != id && Lost(s', t) ensures Lost(s, t) { SpendLost(s, id, r, p, t); }
  }

  lemma SpentMayQueue(s: RunState, id: TaskId, r: Request, p: Payload)
    requires Continuable(s, id, r) && s.Live(id) && MayTell(s, id, r, p)
    ensures var s' := Spend(s, id, r, p);
            && Inv(s') && Tidy(s') && Evolves(s, s') && s'.hooked && id in s'.tasks
            && MayQueue(s', id, RawOutcome) && MayComplete(s', id) && !AlreadyEnding(s', id) && s'.Live(id)
            && s'.tasks[id].phase != Completing && NoneLostBut(s', id) && s'.traps == s.traps && (!s.traps(r) ==> !TrappedLast(s', id))
            && (s'.running.None? || s'.running == Some(id)) && r !in s'.frames && s'.asleep == s.asleep && s'.closed == s.closed
            && s'.issued == s.issued && s'.handlers == s.handlers && s'.minted == s.minted
            && s'.resumed == s.resumed + [Resumption(id, r, p, true)]
            && s'.readyQueue == s.readyQueue
  {
    hide Tree, Tidy, Phases, Subtrees, Queue, Waits, Requests, Consumers, Failures, Settled, Answers, Askings, Gifts, Evolves, Gentle;
    hide Unsettled, OwnerOk, ConsumerOk, BlockerOk, Continuable;
    SpentLost(s, id, r, p);
    hide Lost, LastResumed, TrappedLast;
    var s' := Spend(s, id, r, p);
    ContinuableIs(s, id, r);
    SpendKeeps(s, id, r, p);
    SpendGentle(s, id, r, p);
    GentleStep(s, s');
    At(s, id);
    At(s', id);
  }

  lemma ReadyLost(s: RunState, id: TaskId, work: Work)
    requires id in s.tasks && (s.running.None? || s.running == Some(id)) && !TrappedLast(s, id)
    ensures NoneLostBut(s, id) ==> NoneLost(MakeReady(s, id, work))
  {
    LostFrame(s, MakeReady(s, id, work), id);
  }

  lemma QueuedNow(s: RunState, id: TaskId, work: Work)
    requires Inv(s) && Tidy(s) && s.hooked && MayQueue(s, id, work) && s.tasks[id].phase != Completing
    requires (s.running.None? || s.running == Some(id)) && NoneLostBut(s, id) && !TrappedLast(s, id)
    ensures var s' := MakeReady(s, id, work);
            && Stepped(s') && Evolves(s, s') && s'.tasks[id].phase == Ready && s'.tasks[id].work == work
            && s'.readyQueue == s.readyQueue + [id] && s'.resumed == s.resumed && s'.frames == s.frames
            && s'.issued == s.issued && s'.handlers == s.handlers && s'.minted == s.minted && s'.closed == s.closed
  {
    ReadyLost(s, id, work);
    hide Lost, LastResumed;
    MakeReadyKeeps(s, id, work);
    ReadyGentle(s, id, work);
    GentleStep(s, MakeReady(s, id, work));
  }

  lemma WokenStep(s: RunState, s': RunState)
    requires Stepped(s) && s' == s.(asleep := false)
    ensures Stepped(s') && Evolves(s, s')
  {
    HistoryKeeps(s, s');
    SleepGentle(s, s');
    GentleStep(s, s');
    StillNoneLost(s, s');
  }

  lemma DroppedStep(s: RunState, r: Request)
    requires Stepped(s) && (r in s.frames ==> s.IsDone(s.frames[r]))
    ensures var s' := DropRequest(s, r);
            && Stepped(s') && Evolves(s, s') && s'.tasks == s.tasks && s'.asleep == s.asleep && s'.closed == s.closed
            && s'.readyQueue == s.readyQueue && s'.resumed == s.resumed
            && s'.issued == s.issued && s'.handlers == s.handlers && s'.minted == s.minted
  {
    DropRequestKeeps(s, r);
    DropRequestGentle(s, r);
    GentleStep(s, DropRequest(s, r));
    StillNoneLost(s, DropRequest(s, r));
  }

  lemma DoneStep(s: RunState, id: TaskId)
    requires Inv(s) && Tidy(s) && NoneLostBut(s, id) && s.hooked && s.running.None? && s.IsDone(id)
    ensures Stepped(s) && Evolves(s, s)
    ensures var s' := DropFrames(s, id);
            && Stepped(s') && Evolves(s, s') && s'.tasks == s.tasks && s'.asleep == s.asleep && s'.closed == s.closed
            && s'.readyQueue == s.readyQueue
            && s'.issued == s.issued && s'.handlers == s.handlers && s'.minted == s.minted
  {
    At(s, id);
    EvolvesRefl(s);
    DropFramesKeeps(s, id);
    DropFramesGentle(s, id);
    GentleStep(s, DropFrames(s, id));
    DoneNotLost(s, id);
    StillNoneLost(s, DropFrames(s, id));
  }

  /** What the frames, requests and tokens of a step's outcome have in common with its start. */
  ghost predicate SameRequests(s: RunState, s': RunState) {
    s'.issued == s.issued && s'.handlers == s.handlers && s'.minted == s.minted && s'.closed == s.closed
  }

  /** Task `id` has been resumed for `r` with `p` and is at the end of the queue. */
  ghost predicate Continued(s: RunState, s': RunState, id: TaskId, r: Request, p: Payload) {
    && s'.Live(id) && s'.tasks[id].phase == Ready && s'.tasks[id].work == RawOutcome
    && s'.readyQueue == s.readyQueue + [id]
    && s'.resumed == s.resumed + [Resumption(id, r, p, true)]
  }

  lemma ContinuedNow(s: RunState, id: TaskId, r: Request, p: Payload)
    requires s.Live(id)
    ensures var s' := MakeReady(Spend(s, id, r, p), id, RawOutcome).(asleep := false);
            Continued(s, s', id, r, p) && SameRequests(s, s')
  {
  }

  lemma EndsWithDone(s: RunState, t: TaskId, o: Outcome)
    requires EndsWith(s, t, o)
    ensures s.IsDone(t)
  {
  }

  lemma ContinuableFrame(s: RunState, id: TaskId, r: Request)
    requires Continuable(s, id, r)
    ensures r in s.frames ==> s.frames[r] == id
  {
  }
}
