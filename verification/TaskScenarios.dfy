/** Runs that reach states which the runtime does not rule out. */
module TaskScenarios {
  import opened Options
  import opened TaskModel
  import opened TaskHearing
  import opened TaskLemmas
  import opened TaskProgress
  import opened TaskRevision
  import opened TaskSteps
  import opened TaskRest
  import opened TaskLoop
  import opened TaskRuntime
  import opened TaskTheorems

  // ---------------------------------------------------------------- a waiter that is never woken

  /** The root waits for its child, the child is cancelled, and the guest traps when it is told:
      the root stays live and waits for nothing. */
  method StrandedWaiter() returns (run: Run, ghost trail: seq<RunState>)
    ensures fresh(run) && Course(trail) && run.Snap() == trail[|trail| - 1]
    ensures run.Snap().Live(ROOT) && run.tasks[ROOT].blocker == Stranded(0)
  {
    hide Resting, Evolves, Course, Told, Cascade, EndsAlone, Alone, NoLiveChild, CutFrom;
    run, trail := ChildAwaited();
    ghost var s := run.Snap();
    var changed := run.CancelToken(1);
    CourseGrows(trail, run.Snap());
    trail := trail + [run.Snap()];
    RootStrands(s, run.Snap());
  }

  /** The root waits for its child. */
  method ChildAwaited() returns (run: Run, ghost trail: seq<RunState>)
    ensures fresh(run) && Course(trail) && run.Snap() == trail[|trail| - 1]
    ensures Resting(run.Snap()) && WaitingForLeaf(run.Snap(), ROOT, 2, 1, 0) && run.resumeTraps(0)
  {
    hide Resting, Evolves, Course, Initial, SpawnTask, Run.TurnTaken;
    run := new Run(r => true, t => false, r => false);
    trail := [run.Snap()];
    CourseStarts(run.resumeTraps);
    MayStart(run.resumeTraps);
    var token := run.Spawn(ROOT, false, 1);
    CourseGrows(trail, run.Snap());
    trail := trail + [run.Snap()];
    Begins(run.resumeTraps);
    var turn := run.RunHead(Performed(0, false, Wait(1)));
    CourseGrows(trail, run.Snap());
    trail := trail + [run.Snap()];
    RootWaits(run, run.Snap());
  }

  /** The root with one child. */
  ghost function Family(traps: Request -> bool): RunState {
    SpawnTask(Initial(traps), ROOT, false, 1)
  }

  /** The root waits for its child with request 0. */
  ghost function FamilyWaits(traps: Request -> bool): RunState {
    var s := BeginStep(Family(traps));
    BlockOnTask(Claim(Issue(TakeWork(s, ROOT), ROOT, 0), 2), ROOT, 2, 0)
  }

  lemma MayStart(traps: Request -> bool)
    ensures MaySpawn(Initial(traps), ROOT, 1)
  {
  }

  lemma Begins(traps: Request -> bool)
    ensures var s := Family(traps); s.finalOutcome.None? && !s.closed && !s.asleep && s.readyQueue == [ROOT, 2] && s.issued == {}
  {
  }

  lemma RootWaits(run: Run, s: RunState)
    requires run.TurnTaken(Family(run.resumeTraps), s, Performed(0, false, Wait(1)))
    ensures s == FamilyWaits(run.resumeTraps) && WaitingForLeaf(s, ROOT, 2, 1, 0)
  {
    Begins(run.resumeTraps);
    assert s.LiveSet() == {ROOT, 2};
  }

  /** Task `w` waits with request `r` for task `t`, which has no children; token `cap` stands for `t`. */
  ghost predicate WaitingForLeaf(s: RunState, w: TaskId, t: TaskId, cap: Token, r: Request) {
    && w != t && s.Live(w) && s.Live(t) && cap in s.tokens && s.tokens[cap] == t
    && s.tasks[t].waiters == [Waiter(w, r)] && NoLiveChild(s, t) && Alone(s, t) && r in s.frames
  }

  lemma RootStrands(s: RunState, s': RunState)
    requires WaitingForLeaf(s, ROOT, 2, 1, 0) && s.traps(0) && Cascade(s, s')
    requires EndsAlone(s, s', 2) && Told(s, s', 2, Cancelled)
    ensures s'.Live(ROOT) && s'.tasks[ROOT].blocker == Stranded(0)
  {
    assert ROOT in s'.LiveSet();
    assert Waiter(ROOT, 0) in s.tasks[2].waiters;
    assert Served(s, s', 2, Waiter(ROOT, 0), Cancelled);
  }

  // ---------------------------------------------------------------- a guest that runs on after its task has ended

  /** A child waits for its sibling and is cancelled, then the sibling is cancelled too: the guest
      of the child is resumed although the child has ended. A task that it created now would break
      the invariants. */
  method EndedWaiterResumed() returns (run: Run, ghost trail: seq<RunState>)
    ensures fresh(run) && Course(trail) && |trail| > 1 && run.Snap() == trail[|trail| - 1]
    ensures trail[|trail| - 2].IsDone(2) && Resumption(2, 1, Status(CANCELLED_STATUS), false) !in trail[|trail| - 2].resumed
    ensures Resumption(2, 1, Status(CANCELLED_STATUS), false) in run.past.resumed && 2 in run.tasks && !Inv(SpawnTask(run.Snap(), 2, false, 3))
  {
    hide Resting, Evolves, Course, Told, Cascade, EndsAlone, Alone, NoLiveChild, SpawnTask, Inv;
    run, trail := SiblingWaits();
    ghost var s := run.Snap();
    var changed := run.CancelToken(1);
    CourseGrows(trail, run.Snap());
    trail := trail + [run.Snap()];
    ghost var s' := run.Snap();
    WaiterCancelled(s, s');
    changed := run.CancelToken(2);
    CourseGrows(trail, run.Snap());
    trail := trail + [run.Snap()];
    WaiterResumed(s', run.Snap());
  }

  /** One child of the root waits for the other. */
  method SiblingWaits() returns (run: Run, ghost trail: seq<RunState>)
    ensures fresh(run) && Course(trail) && run.Snap() == trail[|trail| - 1]
    ensures Resting(run.Snap()) && SiblingsWait(run.Snap()) && SiblingsRest(run.Snap()) && run.scopesFail == Never() && run.unreadable == Never()
  {
    hide Resting, Evolves, Course, Initial, SpawnTask, SiblingsTurn, SiblingsWait, SiblingsRest, Run.TurnTaken, Inv, Never;
    run := new Run(Never(), Never(), Never());
    trail := [run.Snap()];
    CourseStarts(run.resumeTraps);
    MayStart(run.resumeTraps);
    var token := run.Spawn(ROOT, false, 1);
    CourseGrows(trail, run.Snap());
    trail := trail + [run.Snap()];
    MayContinue(run.resumeTraps);
    token := run.Spawn(ROOT, false, 2);
    CourseGrows(trail, run.Snap());
    trail := trail + [run.Snap()];
    SiblingsBegin(run.resumeTraps);
    var turn := run.RunHead(Performed(0, false, Yield));
    CourseGrows(trail, run.Snap());
    trail := trail + [run.Snap()];
    RootYields(run, run.Snap());
    turn := run.RunHead(Performed(1, false, Wait(2)));
    CourseGrows(trail, run.Snap());
    trail := trail + [run.Snap()];
    ChildWaits(run, run.Snap());
  }

  function Never(): nat -> bool { (n: nat) => false }

  /** The other child is next in the queue, then the root, which has yielded. */
  ghost predicate SiblingsRest(s: RunState) {
    && s.tasks.Keys == {ROOT, 2, 3} && s.readyQueue == [3, ROOT] && s.hooked && !s.closed && !s.hostSettled && s.traps == Never()
    && s.tasks[ROOT].phase == Ready && s.tasks[ROOT].work == ResumeWith(0) && s.tasks[ROOT].children == [2, 3] && s.tasks[ROOT].owner.None?
    && s.tasks[3].phase == Ready && s.tasks[3].work == Starter && s.tasks[3].capability == 2 && s.tasks[2].phase == Waiting
    && s.asked == map[1 := Asking(2, 3, true)] && s.watched == {} && s.given == map[]
  }

  ghost predicate SiblingsWait(s: RunState) {
    && WaitingForLeaf(s, 2, 3, 2, 1) && 1 in s.tokens && s.tokens[1] == 2 && NoLiveChild(s, 2) && Alone(s, 2)
    && s.tasks[2].waiters == [] && s.tasks[2].capability == 1
  }

  /** The root with two children. */
  ghost function Siblings(traps: Request -> bool): RunState {
    SpawnTask(Family(traps), ROOT, false, 2)
  }

  /** The root has yielded. */
  ghost function SiblingsTurn(traps: Request -> bool): RunState {
    MakeReady(Issue(TakeWork(BeginStep(Siblings(traps)), ROOT), ROOT, 0), ROOT, ResumeWith(0))
  }

  lemma MayContinue(traps: Request -> bool)
    ensures MaySpawn(Family(traps), ROOT, 2)
  {
  }

  lemma SiblingsBegin(traps: Request -> bool)
    ensures var s := Siblings(traps); s.finalOutcome.None? && !s.closed && !s.asleep && s.readyQueue == [ROOT, 2, 3] && s.issued == {}
  {
  }

  lemma RootYields(run: Run, s: RunState)
    requires run.TurnTaken(Siblings(run.resumeTraps), s, Performed(0, false, Yield))
    ensures s == SiblingsTurn(run.resumeTraps)
    ensures s.finalOutcome.None? && !s.closed && !s.asleep && s.readyQueue == [2, 3, ROOT] && s.issued == {0}
  {
    SiblingsBegin(run.resumeTraps);
  }

  /** Child 2 waits for child 3 with request 1. */
  ghost function SiblingsBlocked(s: RunState): RunState
    requires s.readyQueue != [] && 2 in s.tasks && 3 in s.tasks
  {
    BlockOnTask(Claim(Issue(TakeWork(BeginStep(s), 2), 2, 1), 3), 2, 3, 1)
  }

  lemma ChildWaits(run: Run, s: RunState)
    requires run.TurnTaken(SiblingsTurn(run.resumeTraps), s, Performed(1, false, Wait(2))) && run.resumeTraps == Never()
    ensures SiblingsWait(s) && SiblingsRest(s)
  {
    var s0 := SiblingsTurn(run.resumeTraps);
    SiblingsReady(run.resumeTraps);
    hide SiblingsTurn, SiblingsWait, SiblingsRest, Never;
    assert s == SiblingsBlocked(s0);
    BlockedWaits(s0);
  }

  /** Two children that nobody has claimed; the first is next in the queue. */
  ghost predicate TwoReady(s: RunState) {
    && s.tasks.Keys == {ROOT, 2, 3} && s.readyQueue == [2, 3, ROOT] && s.tokens == map[1 := 2, 2 := 3]
    && s.tasks[2] == NewTask(1, Some(ROOT), false) && s.tasks[3] == NewTask(2, Some(ROOT), false) && s.tasks[ROOT].phase == Ready
    && s.tasks[ROOT].work == ResumeWith(0) && s.tasks[ROOT].children == [2, 3] && s.tasks[ROOT].owner.None?
    && s.hooked && !s.closed && !s.hostSettled && s.asked == map[] && s.watched == {} && s.given == map[]
  }

  lemma SiblingsReady(traps: Request -> bool)
    ensures TwoReady(SiblingsTurn(traps)) && SiblingsTurn(traps).traps == traps
  {
  }

  lemma BlockedWaits(s: RunState)
    requires TwoReady(s) && s.traps == Never()
    ensures SiblingsWait(SiblingsBlocked(s)) && SiblingsRest(SiblingsBlocked(s))
  {
  }

  lemma WaiterCancelled(s: RunState, s': RunState)
    requires SiblingsWait(s)
    requires Cascade(s, s') && EndsAlone(s, s', 2) && EndsWith(s', 2, Cancelled)
    ensures s'.IsDone(2) && s'.Live(3) && 2 in s'.tokens && s'.tokens[2] == 3 && Waiter(2, 1) in s'.tasks[3].waiters && 1 in s'.frames && NoLiveChild(s', 3)
  {
    assert 3 in s'.LiveSet();
    assert TaskCascade(s.tasks[3], s'.tasks[3]);
    assert s'.tasks[3].waiters == [Waiter(2, 1)];
    assert s'.tasks[3].children == s.tasks[3].children;
    forall c | c in s'.tasks[3].children ensures !s'.Live(c) { if c in s.tasks { assert TaskCascade(s.tasks[c], s'.tasks[c]); } }
  }

  lemma WaiterResumed(s: RunState, s': RunState)
    requires Resting(s) && Resting(s') && Evolves(s, s') && s.IsDone(2) && 3 in s.tasks && Waiter(2, 1) in s.tasks[3].waiters && 1 in s.frames
    requires Told(s, s', 3, Cancelled)
    ensures Resumption(2, 1, Status(CANCELLED_STATUS), false) !in s.resumed && Resumption(2, 1, Status(CANCELLED_STATUS), false) in s'.resumed
    ensures 2 in s'.tasks && !Inv(SpawnTask(s', 2, false, 3))
  {
    var e := Resumption(2, 1, Status(CANCELLED_STATUS), false);
    NowResumed(s, s', e);
    StillEnded(s, s', 2);
    hide Told, Tidy, NoneLost, Drowsy, Evolves, Inv;
    NotYetResumed(s, e);
    DeadSpawn(s', 2, 3);
  }

  lemma NowResumed(s: RunState, s': RunState, e: Resumption)
    requires Told(s, s', 3, Cancelled) && s.IsDone(2) && 3 in s.tasks && Waiter(2, 1) in s.tasks[3].waiters && 1 in s.frames
    requires e == Resumption(2, 1, Status(CANCELLED_STATUS), false)
    ensures e in s'.resumed
  {
    assert Served(s, s', 3, Waiter(2, 1), Cancelled);
  }

  lemma StillEnded(s: RunState, s': RunState, t: TaskId)
    requires Evolves(s, s') && s.IsDone(t)
    ensures s'.IsDone(t)
  {
    assert TaskEvolves(s.tasks[t], s'.tasks[t]);
  }

  lemma NotYetResumed(s: RunState, e: Resumption)
    requires Inv(s) && e.request in s.frames
    ensures e !in s.resumed
  {
    forall i | 0 <= i < |s.resumed| ensures s.resumed[i] != e { assert s.resumed[i].request !in s.frames; }
  }

  // ---------------------------------------------------------------- an observer that is told something else than what is recorded

  /** The host observes a child of the root, the child returns a value while a child of its own is
      live, and then it is cancelled: the host is given what the child completed with, and what is
      recorded is that it was cancelled. */
  method ObserverMisled() returns (run: Run, ghost trail: seq<RunState>)
    ensures fresh(run) && Course(trail) && run.Snap() == trail[|trail| - 1]
    ensures EndsWith(run.Snap(), 2, Cancelled) && run.tasks[2].capability == 1
    ensures 1 in run.past.given && !run.past.given[1].Cancelled?
  {
    hide Resting, Evolves, Course, Told, Cascade, EndsAlone, Alone, NoLiveChild, CutFrom, Inv, Never, CarriesOn;
    run, trail := ObservedCompletes();
    ghost var s := run.Snap();
    var changed := run.CancelToken(1);
    CourseGrows(trail, run.Snap());
    trail := trail + [run.Snap()];
    Misled(s, run.Snap());
  }

  /** A child of the root is observed and has returned, but it has a live child of its own. */
  method ObservedCompletes() returns (run: Run, ghost trail: seq<RunState>)
    ensures fresh(run) && Course(trail) && run.Snap() == trail[|trail| - 1]
    ensures Resting(run.Snap()) && ObservedAndCompleting(run.Snap()) && CarriesOn(run.Snap())
  {
    hide Resting, Evolves, Course, Run.TurnTaken, Inv, Never, ObservedAndCompleting, WithGrandchild, OneObserved, CarriesOn;
    run, trail := ObservedChild();
    ghost var s := run.Snap();
    OneIs(s, [2, ROOT]);
    var token := run.Spawn(2, false, 2);
    CourseGrows(trail, run.Snap());
    trail := trail + [run.Snap()];
    ghost var s1 := run.Snap();
    Grandchild(s, s1);
    var turn := run.RunHead(Returned(5));
    CourseGrows(trail, run.Snap());
    trail := trail + [run.Snap()];
    ChildCompletes(run, s1, run.Snap());
    NeverShaken(run.Snap());
  }

  /** A child of the root is observed, and the root has yielded to it. */
  method ObservedChild() returns (run: Run, ghost trail: seq<RunState>)
    ensures fresh(run) && Course(trail) && run.Snap() == trail[|trail| - 1]
    ensures Resting(run.Snap()) && OneObserved(run.Snap(), [2, ROOT]) && MaySpawn(run.Snap(), 2, 2)
  {
    hide Resting, Evolves, Course, Initial, SpawnTask, Run.TurnTaken, Run.Observed, Inv, Never, OneObserved;
    run := new Run(Never(), Never(), Never());
    trail := [run.Snap()];
    CourseStarts(run.resumeTraps);
    MayStart(run.resumeTraps);
    var token := run.Spawn(ROOT, false, 1);
    CourseGrows(trail, run.Snap());
    trail := trail + [run.Snap()];
    var observation := run.Observe(1);
    CourseGrows(trail, run.Snap());
    trail := trail + [run.Snap()];
    ghost var s := run.Snap();
    ChildObserved(run.resumeTraps, s, observation);
    OneIs(s, [ROOT, 2]);
    var turn := run.RunHead(Performed(0, false, Yield));
    CourseGrows(trail, run.Snap());
    trail := trail + [run.Snap()];
    ChildNext(run, s, run.Snap());
  }

  /** The root with one child, number 2, which is observed. */
  ghost predicate OneObserved(s: RunState, queue: seq<TaskId>) {
    && s.tasks.Keys == {ROOT, 2} && s.readyQueue == queue && s.nextTaskId == 3 && s.tokens == map[1 := 2] && s.minted == map[1 := 2]
    && s.tasks[2] == NewTask(1, Some(ROOT), false).(claimed := true) && s.tasks[ROOT].phase == Ready
    && 1 in s.observers && s.finalOutcome.None? && !s.closed && !s.asleep && s.traps == Never()
  }

  lemma OneIs(s: RunState, queue: seq<TaskId>)
    requires OneObserved(s, queue)
    ensures s.readyQueue == queue && s.finalOutcome.None? && !s.closed && !s.asleep && 2 in s.tasks && ROOT in s.tasks
  {
  }

  lemma ChildObserved(traps: Request -> bool, s: RunState, r: Observation)
    requires Run.Observed(Family(traps), s, 1, r) && traps == Never()
    ensures OneObserved(s, [ROOT, 2]) && ROOT in s.tasks && s.tasks[ROOT].work == Starter && s.issued == {}
  {
    hide Never;
  }

  lemma ChildNext(run: Run, s: RunState, s': RunState)
    requires OneObserved(s, [ROOT, 2]) && ROOT in s.tasks && s.tasks[ROOT].work == Starter && run.TurnTaken(s, s', Performed(0, false, Yield))
    ensures OneObserved(s', [2, ROOT]) && s'.issued == s.issued + {0} && MaySpawn(s', 2, 2)
  {
    hide Never;
  }

  /** Task 2 has a child, number 3. */
  ghost predicate WithGrandchild(s: RunState) {
    && s.tasks.Keys == {ROOT, 2, 3} && s.readyQueue == [2, ROOT, 3] && s.tokens == map[1 := 2, 2 := 3]
    && s.tasks[2] == NewTask(1, Some(ROOT), false).(claimed := true, children := [3]) && s.tasks[3].phase == Ready
    && 1 in s.observers && s.finalOutcome.None? && !s.closed && !s.asleep && s.traps == Never()
  }

  lemma Grandchild(s: RunState, s': RunState)
    requires OneObserved(s, [2, ROOT]) && s' == SpawnTask(s, 2, false, 2)
    ensures WithGrandchild(s') && s'.finalOutcome.None? && !s'.closed && !s'.asleep && s'.readyQueue != []
  {
    hide Never;
  }

  lemma ChildCompletes(run: Run, s: RunState, s': RunState)
    requires WithGrandchild(s) && run.TurnTaken(s, s', Returned(5))
    ensures ObservedAndCompleting(s') && s'.traps == Never()
  {
    hide Never;
    var b := TakeWork(BeginStep(s), 2);
    assert 3 in b.tasks[2].children && b.Live(3);
  }

  ghost predicate ObservedAndCompleting(s: RunState) {
    && s.Live(2) && s.tasks[2].phase == Completing && s.tasks[2].capability == 1 && 1 in s.observers
    && 1 in s.tokens && s.tokens[1] == 2
  }

  lemma NeverShaken(s: RunState)
    requires s.traps == Never()
    ensures CarriesOn(s)
  {
  }

  lemma Misled(s: RunState, s': RunState)
    requires Resting(s) && Resting(s') && Evolves(s, s') && CarriesOn(s) && CutFrom(s, s', 2) && EndsWith(s', 2, Cancelled) && Cascade(s, s')
    requires ObservedAndCompleting(s)
    ensures s'.tasks[2].capability == 1 && 1 in s'.given && !s'.given[1].Cancelled?
  {
    CancellingEndsTheTree(s, s', 2, 2);
    ObserverServed(s, s', 2);
    hide Resting, CutFrom, CarriesOn, LogsCascade;
    assert TaskEvolves(s.tasks[2], s'.tasks[2]);
  }

  // ---------------------------------------------------------------- a failure that nobody hears of

  /** A child waits for its sibling and is cancelled, then the sibling traps: its failure counts as
      observed by the child that has ended, and the run reports the value of the root. */
  method FailureUnheard() returns (run: Run, ghost trail: seq<RunState>)
    ensures fresh(run) && Course(trail) && run.Snap() == trail[|trail| - 1]
    ensures run.publicOutcome == Some(Value(7)) && EndsWith(run.Snap(), 3, Error(Trapped)) && !Heard(run.Snap(), 3)
  {
    hide Resting, Evolves, Course, Told, Cascade, EndsAlone, Alone, NoLiveChild, SpawnTask, Inv, CutFrom, SiblingsWait, SiblingsRest, Never;
    hide Run.TurnTaken, Heard;
    run, trail := SiblingWaits();
    ghost var s := run.Snap();
    FirstKnown(s);
    var changed := run.CancelToken(1);
    CourseGrows(trail, run.Snap());
    trail := trail + [run.Snap()];
    ghost var s1 := run.Snap();
    WaiterGone(s, s1);
    var turn := run.RunHead(Crashed);
    CourseGrows(trail, run.Snap());
    trail := trail + [run.Snap()];
    ghost var s2 := run.Snap();
    SiblingFails(run, s1, s2);
    turn := run.RunHead(Returned(7));
    CourseGrows(trail, run.Snap());
    trail := trail + [run.Snap()];
    RootReturns(run, s2, run.Snap());
  }

  lemma FirstKnown(s: RunState)
    requires SiblingsWait(s)
    ensures 1 in s.tokens && s.tokens[1] == 2 && NoLiveChild(s, 2) && Alone(s, 2) && s.Live(2)
  {
  }

  /** Task 2 was cancelled while it waited for task 3, which is next. */
  ghost predicate OneGone(s: RunState) {
    && s.tasks.Keys == {ROOT, 2, 3} && [3, ROOT] <= s.readyQueue && s.hooked && !s.closed && !s.hostSettled && s.traps == Never() && s.finalOutcome.None?
    && s.Live(ROOT) && s.tasks[ROOT].phase == Ready && s.tasks[ROOT].work == ResumeWith(0) && s.tasks[ROOT].children == [2, 3] && s.tasks[ROOT].owner.None?
    && s.Live(3) && s.tasks[3].phase == Ready && s.tasks[3].work == Starter && s.tasks[3].capability == 2 && s.tasks[3].waiters == [Waiter(2, 1)]
    && NoLiveChild(s, 3) && EndsWith(s, 2, Cancelled) && CancelledFirst(s, 2) && 1 in s.frames
    && s.asked == map[1 := Asking(2, 3, true)] && s.watched == {} && 2 !in s.given
  }

  lemma WaiterGone(s: RunState, s': RunState)
    requires SiblingsWait(s) && SiblingsRest(s) && Resting(s) && Resting(s') && Cascade(s, s') && EndsAlone(s, s', 2)
    requires EndsWith(s', 2, Cancelled) && CutFrom(s, s', 2)
    ensures OneGone(s')
  {
    NeverShaken(s);
    CancellingEndsTheTree(s, s', 2, 2);
    WaiterCancelled(s, s');
    hide CutFrom, CarriesOn, Resting, Never;
    assert ROOT in s'.LiveSet() && 3 in s'.LiveSet();
    StillRunning(s', ROOT);
    assert TaskCascade(s.tasks[3], s'.tasks[3]) && TaskCascade(s.tasks[ROOT], s'.tasks[ROOT]);
  }

  lemma StillRunning(s: RunState, t: TaskId)
    requires Resting(s) && s.Live(t)
    ensures s.finalOutcome.None?
  {
    assert s.finalOutcome.Some? ==> s.IsDone(t);
  }

  /** Task 3 has failed, and its only waiter had been cancelled. */
  ghost predicate OneFailed(s: RunState) {
    && s.tasks.Keys == {ROOT, 2, 3} && [ROOT] <= s.readyQueue && s.hooked && !s.closed && !s.hostSettled && s.traps == Never()
    && s.Live(ROOT) && s.tasks[ROOT].phase == Ready && s.tasks[ROOT].work == ResumeWith(0) && s.tasks[ROOT].children == [2, 3]
    && EndsWith(s, 2, Cancelled) && CancelledFirst(s, 2) && EndsWith(s, 3, Error(Trapped)) && s.tasks[3].terminal.value.observed && s.tasks[3].capability == 2
    && Resumption(2, 1, Status(1), false) in s.resumed && s.asked == map[1 := Asking(2, 3, true)] && s.watched == {} && 2 !in s.given
  }

  lemma SiblingFails(run: Run, s: RunState, s': RunState)
    requires OneGone(s) && Resting(s) && Resting(s') && run.TurnTaken(s, s', Crashed)
    ensures OneFailed(s') && s'.finalOutcome.None? && !s'.closed
  {
    var b := TakeWork(BeginStep(s), 3);
    ThirdRuns(run, s, s', b);
    RootReady(s);
    hide OneGone, Run.TurnTaken, Resting, TakeWork, BeginStep, ThirdAtHand, OneFailed, Told, Progress, EndsWith;
    ThirdTurn(s, b);
    ThirdFails(b, s');
    RootLives(s');
    StillRunning(s', ROOT);
  }

  lemma ThirdRuns(run: Run, s: RunState, s': RunState, b: RunState)
    requires OneGone(s) && run.TurnTaken(s, s', Crashed) && b == TakeWork(BeginStep(s), 3)
    ensures EndsWith(s', 3, Error(Trapped)) && Progress(b, s', {}, {}, {3}) && (NoLiveChild(b, 3) ==> Told(b, s', 3, Error(Trapped)))
  {
    assert s.readyQueue[0] == 3;
    hide EndsWith, Progress, NoLiveChild, Told, Never;
  }

  lemma RootLives(s: RunState)
    requires OneFailed(s)
    ensures s.Live(ROOT) && !s.closed
  {
  }

  ghost predicate ThirdAtHand(s: RunState) {
    && s.tasks.Keys == {ROOT, 2, 3} && [ROOT] <= s.readyQueue && s.hooked && !s.closed && !s.hostSettled && s.traps == Never()
    && s.Live(ROOT) && s.tasks[ROOT].phase == Ready && s.tasks[ROOT].work == ResumeWith(0) && s.tasks[ROOT].children == [2, 3] && s.tasks[ROOT].owner.None?
    && s.tasks[ROOT].blocker == Unblocked
    && s.Live(3) && s.tasks[3].capability == 2 && s.tasks[3].waiters == [Waiter(2, 1)]
    && NoLiveChild(s, 3) && EndsWith(s, 2, Cancelled) && CancelledFirst(s, 2) && 1 in s.frames
    && s.asked == map[1 := Asking(2, 3, true)] && s.watched == {} && 2 !in s.given
  }

  lemma ThirdTurn(s: RunState, b: RunState)
    requires OneGone(s) && s.tasks[ROOT].blocker == Unblocked && b == TakeWork(BeginStep(s), 3)
    ensures ThirdAtHand(b) && NoLiveChild(b, 3)
  {
    hide Never;
  }

  lemma RootReady(s: RunState)
    requires OneGone(s) && Resting(s)
    ensures s.tasks[ROOT].blocker == Unblocked
  {
    At(s, ROOT);
  }

  lemma ThirdFails(s: RunState, s': RunState)
    requires ThirdAtHand(s) && EndsWith(s', 3, Error(Trapped)) && Progress(s, s', {}, {}, {3}) && Told(s, s', 3, Error(Trapped))
    ensures OneFailed(s')
  {
    assert Waiter(2, 1) in s.tasks[3].waiters && Served(s, s', 3, Waiter(2, 1), Error(Trapped));
    assert TaskCascade(s.tasks[ROOT], s'.tasks[ROOT]) && TaskCascade(s.tasks[2], s'.tasks[2]) && TaskCascade(s.tasks[3], s'.tasks[3]);
    assert !s'.IsDone(ROOT);
    hide Never, Progress, Served;
  }

  /** The root is continued and its children have ended. */
  ghost predicate RootAtHand(s: RunState) {
    && s.tasks.Keys == {ROOT, 2, 3} && s.hooked && !s.hostSettled && s.Live(ROOT) && s.tasks[ROOT].children == [2, 3] && NoLiveChild(s, ROOT)
    && FirstUnobservedFailure(s.tasks, [2, 3]).None?
    && s.IsDone(2) && CancelledFirst(s, 2) && EndsWith(s, 3, Error(Trapped)) && s.tasks[3].capability == 2
    && Resumption(2, 1, Status(1), false) in s.resumed && s.asked == map[1 := Asking(2, 3, true)] && s.watched == {} && 2 !in s.given
  }

  lemma RootTurn(s: RunState, b: RunState)
    requires OneFailed(s) && b == Spend(BeginStep(s), ROOT, 0, Unit)
    ensures RootAtHand(b)
  {
    StaysLogged(Resumption(2, 1, Status(1), false), s.resumed, b.resumed);
    NoneUnobserved(b);
    hide Never;
  }

  lemma NoneUnobserved(s: RunState)
    requires EndsWith(s, 2, Cancelled) && EndsWith(s, 3, Error(Trapped)) && s.tasks[3].terminal.value.observed
    ensures FirstUnobservedFailure(s.tasks, [2, 3]).None?
  {
    assert [2, 3][1..] == [3] && [3][1..] == [];
    assert FirstUnobservedFailure(s.tasks, []).None?;
    assert FirstUnobservedFailure(s.tasks, [3]).None?;
  }

  lemma RootRuns(run: Run, s: RunState, s': RunState, b: RunState)
    requires OneFailed(s) && run.TurnTaken(s, s', Returned(7)) && run.resumeTraps == Never() && b == Spend(BeginStep(s), ROOT, 0, Unit)
    requires NoLiveChild(b, ROOT)
    ensures Progress(b, s', {}, {}, {ROOT})
    ensures EndsWith(s', ROOT, run.TerminalFor(ROOT, Value(7), FirstUnobservedFailure(b.tasks, b.tasks[ROOT].children)))
  {
    assert s.readyQueue[0] == ROOT && !run.resumeTraps(0);
    hide EndsWith, Progress, NoLiveChild, Told, Never, Run.TerminalFor, FirstUnobservedFailure;
  }

  lemma RootReturns(run: Run, s: RunState, s': RunState)
    requires OneFailed(s) && Resting(s') && run.TurnTaken(s, s', Returned(7)) && run.scopesFail == Never() && run.unreadable == Never() && run.resumeTraps == Never()
    ensures s'.publicOutcome == Some(Value(7)) && EndsWith(s', 3, Error(Trapped)) && !Heard(s', 3)
  {
    var b := Spend(BeginStep(s), ROOT, 0, Unit);
    RootTurn(s, b);
    RootRuns(run, s, s', b);
    assert run.TerminalFor(ROOT, Value(7), None) == Value(7);
    hide OneFailed, Run.TurnTaken, Spend, BeginStep, Never, Resting;
    RootEnds(b, s');
    RunReports(s');
  }

  /** All tasks have ended, and nobody who could have heard of the failure was live. */
  ghost predicate AllOver(s: RunState) {
    && s.tasks.Keys == {ROOT, 2, 3} && s.IsDone(2) && EndsWith(s, 3, Error(Trapped)) && EndsWith(s, ROOT, Value(7)) && s.hooked && !s.hostSettled
    && CancelledFirst(s, 2) && s.tasks[3].capability == 2 && Resumption(2, 1, Status(1), false) in s.resumed
    && s.asked == map[1 := Asking(2, 3, true)] && 2 !in s.given
  }

  lemma RootEnds(s: RunState, s': RunState)
    requires RootAtHand(s) && Progress(s, s', {}, {}, {ROOT}) && EndsWith(s', ROOT, Value(7))
    ensures AllOver(s')
  {
    StaysLogged(Resumption(2, 1, Status(1), false), s.resumed, s'.resumed);
    assert TaskCascade(s.tasks[2], s'.tasks[2]) && TaskCascade(s.tasks[3], s'.tasks[3]);
    hide Progress, FirstUnobservedFailure;
  }

  lemma RunReports(s: RunState)
    requires AllOver(s) && Resting(s)
    ensures s.publicOutcome == Some(Value(7)) && !Heard(s, 3)
  {
    assert NothingBlocking(s) by { forall t | t in s.tasks ensures !s.Blocking(t) { assert !s.Live(t); } }
    ReportsPromptly(s);
    NobodyHeard(s);
  }

  lemma NobodyHeard(s: RunState)
    requires AllOver(s) && Inv(s)
    ensures !Heard(s, 3)
  {
    var e := Resumption(2, 1, Status(1), false);
    var k :| 0 <= k < |s.resumed| && s.resumed[k] == e;
    forall i | 0 <= i < |s.resumed| && s.resumed[i].request == 1 ensures !s.resumed[i].live { assert i == k; }
    hide Inv;
    assert s.asked[1].target == 3;
  }
}
