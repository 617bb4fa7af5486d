/** What one operation may leave unfinished for its caller, step by step. */
module TaskProgress {
  import opened Options
  import opened TaskModel
  import opened TaskHearing
  import opened TaskLemmas

  /** What the invariants say about one task. */
  lemma At(s: RunState, t: TaskId)
    requires Inv(s) && t in s.tasks
    ensures OwnerOk(s, t) && PhaseOk(s, t) && BlockerOk(s, t) && ConsumerOk(s, t) && 1 <= t < s.nextTaskId
  {
  }

  lemma OwnerKnown(s: RunState, t: TaskId)
    requires Inv(s) && t in s.tasks
    ensures 1 <= t < s.nextTaskId
    ensures s.tasks[t].owner.Some? ==> s.tasks[t].owner.value in s.tasks && s.tasks[t].owner.value < t
    ensures |s.tasks[t].waiters| <= 1
  {
    At(s, t);
  }

  ghost predicate NoNewStuck(s: RunState, s': RunState, ex: set<TaskId>) {
    forall t {:trigger Stuck(s', t)} :: Stuck(s', t) ==> Stuck(s, t) || t in ex
  }

  ghost predicate NoNewUnswept(s: RunState, s': RunState, ex: set<TaskId>) {
    forall t {:trigger Unswept(s', t)} :: Unswept(s', t) ==> Unswept(s, t) || t in ex
  }

  /** A task that only its own step, or its owner's end, can finish. */
  ghost predicate Quiet(task: Task) {
    task.phase != Completing && !task.blocker.OnTask?
  }

  ghost predicate EndedWithoutValue(s: RunState, t: TaskId) {
    s.IsDone(t) && !EndedWithValue(s, t)
  }

  /** Task `t` was cancelled along with an owner that did not succeed. */
  ghost predicate Orphaned(s: RunState, t: TaskId) {
    t in s.tasks && s.tasks[t].owner.Some? && EndedWithoutValue(s, s.tasks[t].owner.value) && CancelledFirst(s, t)
  }

  /** Apart from `targets`, a quiet task ends only by being cancelled along with an owner that did
      not succeed. */
  ghost predicate Orphans(s: RunState, s': RunState, targets: set<TaskId>) {
    forall t {:trigger s'.IsDone(t)} :: s.Live(t) && s'.IsDone(t) && Quiet(s.tasks[t]) && t !in targets ==> Orphaned(s', t)
  }

  /** Every quiet task that ends is cancelled. */
  ghost predicate CutOff(s: RunState, s': RunState) {
    forall t {:trigger s'.IsDone(t)} :: s.Live(t) && s'.IsDone(t) && Quiet(s.tasks[t]) ==> CancelledFirst(s', t)
  }

  lemma CutOffTrans(a: RunState, b: RunState, c: RunState)
    requires Cascade(a, b) && Cascade(b, c) && CutOff(a, b) && CutOff(b, c)
    ensures CutOff(a, c)
  {
    forall t | a.Live(t) && c.IsDone(t) && Quiet(a.tasks[t]) ensures CancelledFirst(c, t) {
      assert TaskCascade(a.tasks[t], b.tasks[t]);
      assert b.IsDone(t) || (b.Live(t) && Quiet(b.tasks[t]));
    }
  }

  ghost predicate Progress(s: RunState, s': RunState, stuck: set<TaskId>, unswept: set<TaskId>, targets: set<TaskId>) {
    && Cascade(s, s')
    && NoNewStuck(s, s', stuck)
    && NoNewUnswept(s, s', unswept)
    && Orphans(s, s', targets)
  }

  lemma ProgressRefl(s: RunState)
    ensures Progress(s, s, {}, {}, {})
  {
  }

  lemma OrphansTrans(a: RunState, b: RunState, c: RunState, x: set<TaskId>, y: set<TaskId>)
    requires Cascade(a, b) && Cascade(b, c) && Orphans(a, b, x) && Orphans(b, c, y)
    ensures Orphans(a, c, x + y)
  {
    forall t | a.Live(t) && c.IsDone(t) && Quiet(a.tasks[t]) && t !in x + y ensures Orphaned(c, t) {
      assert TaskCascade(a.tasks[t], b.tasks[t]);
      if b.IsDone(t) {
        assert Orphaned(b, t) && TaskCascade(b.tasks[t], c.tasks[t]);
        var o := a.tasks[t].owner.value;
        assert TaskCascade(b.tasks[o], c.tasks[o]);
      } else {
        assert b.Live(t) && Quiet(b.tasks[t]);
      }
    }
  }

  lemma ProgressTrans(a: RunState, b: RunState, c: RunState,
                      k1: set<TaskId>, u1: set<TaskId>, t1: set<TaskId>,
                      k2: set<TaskId>, u2: set<TaskId>, t2: set<TaskId>)
    requires Progress(a, b, k1, u1, t1) && Progress(b, c, k2, u2, t2)
    ensures Progress(a, c, k1 + k2, u1 + u2, t1 + t2)
  {
    hide Cascade, Orphans, NoNewStuck, NoNewUnswept;
    CascadeTrans(a, b, c);
    OrphansTrans(a, b, c, t1, t2);
    DebtsTrans(a, b, c, k1, k2, u1, u2);
  }

  lemma ProgressWeaken(s: RunState, s': RunState, k: set<TaskId>, u: set<TaskId>, x: set<TaskId>,
                       k': set<TaskId>, u': set<TaskId>, x': set<TaskId>)
    requires Progress(s, s', k, u, x)
    requires forall t :: t in k && Stuck(s', t) ==> t in k' || Stuck(s, t)
    requires forall t :: t in u && Unswept(s', t) ==> t in u' || Unswept(s, t)
    requires forall t :: t in x && t !in x' && s.Live(t) && s'.IsDone(t) && Quiet(s.tasks[t]) ==> Orphaned(s', t)
    ensures Progress(s, s', k', u', x')
  {
  }

  // ---------------------------------------------------------------- one task's own steps

  /** Of the tasks, only `t` changes. */
  ghost predicate OwnTask(s: RunState, s': RunState, t: TaskId) {
    && t in s.tasks
    && s'.tasks.Keys == s.tasks.Keys
    && (forall u {:trigger s'.tasks[u]} :: u in s.tasks && u != t ==> s'.tasks[u] == s.tasks[u])
    && s'.tasks[t].capability == s.tasks[t].capability && s'.tasks[t].claimed == s.tasks[t].claimed
    && s'.tasks[t].owner == s.tasks[t].owner && s'.tasks[t].detached == s.tasks[t].detached
    && s'.tasks[t].children == s.tasks[t].children
    && (s'.running == s.running || (s'.running.None? && s.running == Some(t) && s'.IsDone(t)))
  }

  ghost predicate OwnStep(s: RunState, s': RunState, t: TaskId) {
    OwnTask(s, s', t) && LogsCascade(s, s')
  }

  lemma OwnTasks(s0: RunState, s: RunState, s': RunState, t: TaskId)
    requires TasksCascade(s0, s) && s0.Live(t) && OwnTask(s, s', t) && s'.IsDone(t)
    ensures TasksCascade(s0, s')
  {
    forall u | u in s0.tasks ensures TaskCascade(s0.tasks[u], s'.tasks[u]) {
      assert TaskCascade(s0.tasks[u], s.tasks[u]);
    }
  }

  lemma OwnCascade(s0: RunState, s: RunState, s': RunState, t: TaskId)
    requires Cascade(s0, s) && s0.Live(t) && OwnStep(s, s', t) && s'.IsDone(t)
    ensures Cascade(s0, s')
  {
    LogsTrans(s0, s, s');
    OwnTasks(s0, s, s', t);
  }

  /** A task's own step after it has ended: whether it ended with a value stays as it was. */
  lemma OwnProgress(s0: RunState, s: RunState, s': RunState, t: TaskId, k: set<TaskId>, u: set<TaskId>, x: set<TaskId>)
    requires Progress(s0, s, k, u, x) && s0.Live(t) && OwnStep(s, s', t)
    requires s.IsDone(t) && s'.IsDone(t) && (EndedWithValue(s', t) ==> EndedWithValue(s, t))
    requires NoNewStuck(s, s', {}) && NoNewUnswept(s, s', {})
    ensures Progress(s0, s', k, u, x)
  {
    hide LogsCascade, TasksCascade, OwnTask;
    OwnCascade(s0, s, s', t);
    OwnOrphans(s0, s, s', t, x);
  }

  /** Ending task `t`: its owner may now be stuck, and its end is still to be announced. */
  lemma EndProgress(s0: RunState, s: RunState, t: TaskId, o: Outcome, k: set<TaskId>, u: set<TaskId>, x: set<TaskId>)
    requires Tree(s) && Progress(s0, s, k, u, x) && s0.Live(t) && t in s.tasks && t in x
    requires o.Value? ==> s.Live(t)
    ensures Progress(s0, MarkDone(s, t, o),
                     k + (if s.tasks[t].owner.Some? then {s.tasks[t].owner.value} else {}), u + {t}, x)
  {
    var s' := MarkDone(s, t, o);
    EndOwnStep(s, t, o);
    EndDebts(s, t, o);
    assert EndedWithoutValue(s, t) ==> EndedWithoutValue(s', t);
    hide LogsCascade, TasksCascade, Tree, OwnTask, MarkDone, EndedWithoutValue;
    OwnCascade(s0, s, s', t);
    OwnOrphans(s0, s, s', t, x);
    DebtsTrans(s0, s, s', k, OwnerSet(s, t), u, {t});
    hide *;
  }

  lemma DebtsTrans(a: RunState, b: RunState, c: RunState, k: set<TaskId>, k': set<TaskId>, u: set<TaskId>, u': set<TaskId>)
    requires NoNewStuck(a, b, k) && NoNewStuck(b, c, k') && NoNewUnswept(a, b, u) && NoNewUnswept(b, c, u')
    ensures NoNewStuck(a, c, k + k') && NoNewUnswept(a, c, u + u')
  {
    hide Stuck, Unswept;
  }

  lemma EndOwnStep(s: RunState, t: TaskId, o: Outcome)
    requires t in s.tasks
    ensures OwnStep(s, MarkDone(s, t, o), t)
  {
  }

  lemma EndDebts(s: RunState, t: TaskId, o: Outcome)
    requires Tree(s) && t in s.tasks
    ensures NoNewStuck(s, MarkDone(s, t, o), if s.tasks[t].owner.Some? then {s.tasks[t].owner.value} else {})
    ensures NoNewUnswept(s, MarkDone(s, t, o), {t})
  {
    var s' := MarkDone(s, t, o);
    forall v | Stuck(s', v) && !Stuck(s, v) ensures s.tasks[t].owner == Some(v) {
      var c :| c in s.tasks[v].children && s.Live(c);
      assert c == t;
    }
  }

  // ---------------------------------------------------------------- the remaining updates

  lemma ObservedOwn(s: RunState, t: TaskId)
    requires s.IsDone(t) && s.tasks[t].terminal.Some?
    ensures var s' := MarkObserved(s, t);
            OwnStep(s, s', t) && s'.IsDone(t) && (EndedWithValue(s', t) ==> EndedWithValue(s, t))
  {
  }

  lemma ObservedDebts(s: RunState, t: TaskId)
    requires s.IsDone(t) && s.tasks[t].terminal.Some?
    ensures var s' := MarkObserved(s, t); NoNewStuck(s, s', {}) && NoNewUnswept(s, s', {})
  {
  }

  lemma ObservedProgress(s0: RunState, s: RunState, t: TaskId, k: set<TaskId>, u: set<TaskId>, x: set<TaskId>)
    requires Progress(s0, s, k, u, x) && s0.Live(t) && s.IsDone(t) && s.tasks[t].terminal.Some?
    ensures Progress(s0, MarkObserved(s, t), k, u, x)
  {
    ObservedOwn(s, t);
    ObservedDebts(s, t);
    OwnProgress(s0, s, MarkObserved(s, t), t, k, u, x);
  }

  lemma ClearedOwn(s: RunState, t: TaskId)
    requires s.IsDone(t)
    ensures var s' := ClearWaiters(s, t);
            OwnStep(s, s', t) && s'.IsDone(t) && (EndedWithValue(s', t) ==> EndedWithValue(s, t))
            && NoNewStuck(s, s', {}) && NoNewUnswept(s, s', {})
  {
  }

  lemma ClearedProgress(s0: RunState, s: RunState, t: TaskId, k: set<TaskId>, u: set<TaskId>, x: set<TaskId>)
    requires Progress(s0, s, k, u, x) && s0.Live(t) && s.IsDone(t)
    ensures Progress(s0, ClearWaiters(s, t), k, u, x)
  {
    ClearedOwn(s, t);
    OwnProgress(s0, s, ClearWaiters(s, t), t, k, u, x);
  }

  lemma TokensOwn(s: RunState, s': RunState, t: TaskId)
    requires s.IsDone(t)
    requires s' == s.(observers := s'.observers, tokens := s'.tokens, completed := s'.completed, deliveries := s'.deliveries, given := s'.given)
    requires forall c {:trigger c in s'.given} :: c in s.given ==> c in s'.given && s'.given[c] == s.given[c]
    requires forall c {:trigger c in s'.given} :: c in s'.given ==> c in s.given || c in s.watched
    requires s'.observers <= s.observers && s.deliveries <= s'.deliveries
    requires forall c {:trigger c in s'.observers} :: c in s.observers ==> c in s'.observers || c in s'.deliveries
    requires forall c {:trigger c in s'.tokens} :: c in s'.tokens ==> c in s.tokens && s'.tokens[c] == s.tokens[c]
    ensures OwnStep(s, s', t) && s'.IsDone(t) && (EndedWithValue(s', t) ==> EndedWithValue(s, t))
    ensures NoNewStuck(s, s', {})
  {
  }

  lemma TokensProgress(s0: RunState, s: RunState, s': RunState, t: TaskId, k: set<TaskId>, u: set<TaskId>, x: set<TaskId>)
    requires Progress(s0, s, k, u, x) && s0.Live(t) && s.IsDone(t) && t in u
    requires s' == s.(observers := s'.observers, tokens := s'.tokens, completed := s'.completed, deliveries := s'.deliveries, given := s'.given)
    requires forall c {:trigger c in s'.given} :: c in s.given ==> c in s'.given && s'.given[c] == s.given[c]
    requires forall c {:trigger c in s'.given} :: c in s'.given ==> c in s.given || c in s.watched
    requires s'.observers <= s.observers && s.deliveries <= s'.deliveries
    requires forall c {:trigger c in s'.observers} :: c in s.observers ==> c in s'.observers || c in s'.deliveries
    requires forall c {:trigger c in s'.tokens} :: c in s'.tokens ==> c in s.tokens && s'.tokens[c] == s.tokens[c]
    requires NoNewUnswept(s, s', {t})
    ensures Progress(s0, s', k, u, x)
  {
    TokensOwn(s, s', t);
    OwnCascade(s0, s, s', t);
    OwnOrphans(s0, s, s', t, x);
  }

  lemma OwnOrphans(s0: RunState, s: RunState, s': RunState, t: TaskId, x: set<TaskId>)
    requires Orphans(s0, s, x) && OwnStep(s, s', t) && s'.IsDone(t) && (t in x || s.IsDone(t))
    requires EndedWithoutValue(s, t) ==> EndedWithoutValue(s', t)
    ensures Orphans(s0, s', x)
  {
    forall v | s0.Live(v) && s'.IsDone(v) && Quiet(s0.tasks[v]) && v !in x ensures Orphaned(s', v) {
      assert s.IsDone(v);
      assert Orphaned(s, v);
    }
  }

  lemma StoreUnswept(s: RunState, t: TaskId)
    requires Consumers(s) && t in s.tasks && s.tasks[t].terminal.Some?
    ensures NoNewUnswept(s, Store(s, t), {t})
  {
    var s' := Store(s, t);
    assert ConsumerOk(s, t);
    forall v | Unswept(s', v) && v != t ensures Unswept(s, v) { assert ConsumerOk(s, v); }
  }

  lemma ForgetUnswept(s: RunState, cap: Token)
    ensures NoNewUnswept(s, Forget(s, cap), {})
  {
  }

  lemma DeliverUnswept(s: RunState, cap: Token, o: Outcome)
    ensures NoNewUnswept(s, Deliver(s, cap, o), {})
  {
  }

  /** Once stored, delivered and reported as needed, the end of `t` is known to everyone who should know. */
  lemma Swept(s: RunState, t: TaskId, s': RunState)
    requires s.IsDone(t) && s.tasks[t].terminal.Some? && s.tasks[t].waiters == []
    requires s.tasks[t].capability !in s.observers
    requires s.tasks[t].capability in s.completed ==> s.completed[s.tasks[t].capability] == s.tasks[t].terminal.value.outcome
    requires s' == s.(unhandled := s'.unhandled)
    requires s.tasks[t].detached && FailedUnobserved(s, t) ==> t in s'.unhandled
    ensures !Unswept(s', t)
  {
  }

  lemma Reported(s: RunState, t: TaskId)
    requires s.IsDone(t) && s.tasks[t].terminal.Some?
    ensures var s' := ReportUnhandled(s, t);
            && s' == s.(unhandled := s'.unhandled) && s.unhandled <= s'.unhandled
            && (s.tasks[t].detached && FailedUnobserved(s, t) ==> t in s'.unhandled)
  {
    var s' := ReportUnhandled(s, t);
    if s'.unhandled != s.unhandled { assert s'.unhandled[|s.unhandled|] == t; }
  }

  /** No task ends, waits differently for announcements, or is observed differently. */
  ghost predicate NoEnds(s: RunState, s': RunState) {
    && s'.tasks.Keys == s.tasks.Keys && s'.observers == s.observers && s'.completed == s.completed && s'.unhandled == s.unhandled
    && (forall t {:trigger s'.tasks[t]} :: t in s.tasks ==>
          && (s'.tasks[t].phase == Done <==> s.tasks[t].phase == Done) && (s'.tasks[t].phase == Completing <==> s.tasks[t].phase == Completing)
          && s'.tasks[t].children == s.tasks[t].children && s'.tasks[t].waiters == s.tasks[t].waiters && s'.tasks[t].terminal == s.tasks[t].terminal
          && s'.tasks[t].capability == s.tasks[t].capability && s'.tasks[t].detached == s.tasks[t].detached)
  }

  lemma NoEndsProgress(s: RunState, s': RunState)
    requires NoEnds(s, s') && TasksCascade(s, s') && LogsCascade(s, s')
    ensures Progress(s, s', {}, {}, {})
  {
    hide TasksCascade, LogsCascade;
    forall t | Stuck(s', t) ensures Stuck(s, t) {}
    forall t | Unswept(s', t) ensures Unswept(s, t) {}
  }

  lemma SpendMoves(s: RunState, w: TaskId, r: Request, p: Payload)
    requires MaySpend(s, w, r) && PhaseOk(s, w) && s.running != Some(w)
    ensures TasksCascade(s, Spend(s, w, r, p)) && NoEnds(s, Spend(s, w, r, p))
  {
  }

  lemma SpendProgress(s: RunState, w: TaskId, r: Request, p: Payload)
    requires MaySpend(s, w, r) && PhaseOk(s, w) && s.running != Some(w)
    ensures Progress(s, Spend(s, w, r, p), {}, {}, {})
  {
    SpendMoves(s, w, r, p);
    hide NoEnds, TasksCascade, PhaseOk, Progress;
    NoEndsProgress(s, Spend(s, w, r, p));
  }

  lemma ReadyMoves(s: RunState, w: TaskId)
    requires s.Live(w) && s.tasks[w].blocker == InHand && s.tasks[w].phase == Waiting && s.running != Some(w)
    ensures var s' := MakeReady(s, w, RawOutcome); TasksCascade(s, s') && NoEnds(s, s')
  {
  }

  lemma ReadyProgress(s: RunState, w: TaskId)
    requires s.Live(w) && s.tasks[w].blocker == InHand && s.tasks[w].phase == Waiting && s.running != Some(w)
    ensures Progress(s, MakeReady(s, w, RawOutcome), {}, {}, {})
  {
    ReadyMoves(s, w);
    hide NoEnds, TasksCascade, Progress;
    NoEndsProgress(s, MakeReady(s, w, RawOutcome));
  }

  lemma StrandMoves(s: RunState, w: TaskId, r: Request)
    requires s.Live(w) && s.tasks[w].blocker == InHand && s.tasks[w].phase == Waiting
    ensures TasksCascade(s, Strand(s, w, r)) && NoEnds(s, Strand(s, w, r))
  {
  }

  lemma StrandProgress(s: RunState, w: TaskId, r: Request)
    requires s.Live(w) && s.tasks[w].blocker == InHand && s.tasks[w].phase == Waiting
    ensures Progress(s, Strand(s, w, r), {}, {}, {})
  {
    StrandMoves(s, w, r);
    hide NoEnds, TasksCascade, Progress;
    NoEndsProgress(s, Strand(s, w, r));
  }

  lemma DropProgress(s: RunState, t: TaskId)
    ensures Progress(s, DropFrames(s, t), {}, {}, {})
  {
  }

  /** Settling the run, waking the loop and reporting a failure leave the tasks alone. */
  lemma LogProgress(s: RunState, s': RunState)
    requires s' == s.(asleep := s'.asleep, unhandled := s'.unhandled, publicOutcome := s'.publicOutcome, finalOutcome := s'.finalOutcome, cut := s'.cut)
    requires (s'.asleep ==> s.asleep) && s.cut <= s'.cut
    requires s.unhandled <= s'.unhandled
    requires s.publicOutcome.Some? ==> s'.publicOutcome == s.publicOutcome
    requires s.finalOutcome.Some? ==> s'.finalOutcome == s.finalOutcome
    ensures Progress(s, s', {}, {}, {})
  {
  }

  lemma FinalizedForm(s: RunState)
    requires Tree(s)
    ensures var s' := Finalized(s);
            && s' == s.(publicOutcome := s'.publicOutcome, finalOutcome := s'.finalOutcome)
            && (s.publicOutcome.Some? ==> s'.publicOutcome == s.publicOutcome)
  {
    hide Tree, NothingBlocking, AllDone, FinalNow;
  }

  lemma OutcomesKeep(s: RunState, s': RunState)
    requires Inv(s) && Tree(s') && Settled(s')
    requires s' == s.(publicOutcome := s'.publicOutcome, finalOutcome := s'.finalOutcome)
    ensures Inv(s')
  {
    hide Answers, Askings, Gifts;
    FinalizedFrame(s, s');
    HearingFrame(s, s');
  }

  lemma FinalizedKeeps(s: RunState)
    requires Inv(s)
    ensures Inv(Finalized(s)) && !Unsettled(Finalized(s))
  {
    assert PhaseOk(s, ROOT);
    FinalizedSettled(s);
    FinalizedForm(s);
    OutcomesKeep(s, Finalized(s));
  }

  lemma FinalizedProgress(s: RunState)
    requires Inv(s)
    ensures Progress(s, Finalized(s), {}, {}, {})
  {
    FinalizedForm(s);
    LogProgress(s, Finalized(s));
  }

  lemma FinalizedFrame(s: RunState, s': RunState)
    requires s' == s.(publicOutcome := s'.publicOutcome, finalOutcome := s'.finalOutcome)
    requires Inv(s)
    ensures Phases(s') && Queue(s') && Waits(s') && Requests(s') && Consumers(s') && Subtrees(s') && Failures(s')
  {
    OutcomesDiff(s, s');
    SchedulingFrame(s, s');
    WaitsFrame(s, s');
    ConsumersFrame(s, s');
  }

  lemma OutcomesDiff(s: RunState, s': RunState)
    requires s' == s.(publicOutcome := s'.publicOutcome, finalOutcome := s'.finalOutcome)
    ensures SameScheduling(s, s') && SameWaiters(s, s') && SameClaims(s, s')
  {
  }

  lemma SameBlocking(s: RunState, s': RunState)
    requires Tree(s) && Tree(s') && SameShape(s, s') && s'.tasks == s.tasks
    ensures NothingBlocking(s) <==> NothingBlocking(s')
  {
    if NothingBlocking(s) { StillNothingBlocking(s, s'); }
    if NothingBlocking(s') { StillNothingBlocking(s', s); }
  }

  lemma OutcomesSettled(s: RunState, s': RunState)
    requires Tree(s) && Settled(s) && (s.IsDone(ROOT) ==> s.tasks[ROOT].terminal.Some?)
    requires s' == s.(publicOutcome := s'.publicOutcome, finalOutcome := s'.finalOutcome)
    requires s'.publicOutcome == PublicNow(s) && s'.finalOutcome == FinalNow(s)
    ensures Tree(s') && Settled(s') && !Unsettled(s')
  {
    OutcomesDiff(s, s');
    TreeFrame(s, s');
    SameBlocking(s, s');
    assert AllDone(s) <==> AllDone(s');
  }

  lemma FinalizedSettled(s: RunState)
    requires Tree(s) && Settled(s) && (s.IsDone(ROOT) ==> s.tasks[ROOT].terminal.Some?)
    ensures Tree(Finalized(s)) && Settled(Finalized(s)) && !Unsettled(Finalized(s))
  {
    hide Tree, Settled, Answers, Askings, Gifts, Unsettled, PublicNow, FinalNow;
    OutcomesSettled(s, Finalized(s));
  }

  /** Reporting outcomes leaves the tasks alone. */
  lemma FinalizedSame(s: RunState)
    requires Inv(s)
    ensures var s' := Finalized(s); s'.tasks == s.tasks && s'.LiveSet() == s.LiveSet() && NoNewLost(s, s') && s'.frames == s.frames && s'.resumed == s.resumed && s'.tokens == s.tokens
  {
    hide Tree, Phases, Subtrees, Queue, Waits, Requests, Consumers, Failures, Settled, Answers, Askings, Gifts, PublicNow, FinalNow;
  }

  /** No task is revived. */
  lemma CascadeLive(s: RunState, s': RunState)
    requires Cascade(s, s')
    ensures s'.LiveSet() <= s.LiveSet()
  {
    forall t | t in s'.LiveSet() ensures t in s.LiveSet() {
      assert TaskCascade(s.tasks[t], s'.tasks[t]);
    }
  }

  lemma {:induction false} NoUnobservedFailure(s: RunState, children: seq<TaskId>)
    requires FirstUnobservedFailure(s.tasks, children).None?
    ensures forall c :: c in children ==> !FailedUnobserved(s, c)
  {
    if children != [] { NoUnobservedFailure(s, children[1..]); }
  }

  /** The search finds the first child that failed unobserved. */
  lemma {:induction false} FirstFailureFound(tasks: map<TaskId, Task>, children: seq<TaskId>) returns (i: nat)
    requires FirstUnobservedFailure(tasks, children).Some?
    ensures i < |children| && FailedIn(tasks, children, i) && forall j: nat :: j < i ==> !FailedIn(tasks, children, j)
    ensures FirstUnobservedFailure(tasks, children).value == tasks[children[i]].terminal.value.outcome.failure
  {
    if FailedIn(tasks, children, 0) {
      i := 0;
    } else {
      var k := FirstFailureFound(tasks, children[1..]);
      assert forall j: nat :: j < |children| - 1 ==> (FailedIn(tasks, children[1..], j) <==> FailedIn(tasks, children, j + 1));
      i := k + 1;
      forall j: nat | j < i ensures !FailedIn(tasks, children, j) {
        if j > 0 { assert !FailedIn(tasks, children[1..], j - 1); }
      }
    }
  }

  ghost predicate FailedIn(tasks: map<TaskId, Task>, children: seq<TaskId>, i: nat) {
    && i < |children| && children[i] in tasks && tasks[children[i]].terminal.Some?
    && tasks[children[i]].terminal.value.outcome.Failed? && !tasks[children[i]].terminal.value.observed
  }

  /** What the search says about the children of `t`. */
  lemma SearchMeaning(s: RunState, t: TaskId) returns (i: nat)
    requires t in s.tasks
    ensures var f := FirstUnobservedFailure(s.tasks, s.tasks[t].children);
            if f.None? then forall j: nat :: !FailedChild(s, t, j)
            else FailedChild(s, t, i) && (forall j: nat :: j < i ==> !FailedChild(s, t, j))
                 && f.value == s.tasks[s.tasks[t].children[i]].terminal.value.outcome.failure
  {
    i := 0;
    if FirstUnobservedFailure(s.tasks, s.tasks[t].children).Some? {
      i := FirstFailureFound(s.tasks, s.tasks[t].children);
    } else {
      NoneFailed(s.tasks, s.tasks[t].children);
    }
    forall j: nat ensures FailedChild(s, t, j) <==> FailedIn(s.tasks, s.tasks[t].children, j) {}
  }

  lemma {:induction false} NoneFailed(tasks: map<TaskId, Task>, children: seq<TaskId>)
    requires FirstUnobservedFailure(tasks, children).None?
    ensures forall j: nat :: !FailedIn(tasks, children, j)
  {
    if children != [] {
      NoneFailed(tasks, children[1..]);
      forall j: nat ensures !FailedIn(tasks, children, j) {
        if 0 < j < |children| { assert !FailedIn(tasks, children[1..], j - 1); }
      }
    }
  }

  // ---------------------------------------------------------------- what callers are told

  ghost predicate EndsWith(s: RunState, t: TaskId, o: Outcome) {
    s.IsDone(t) && s.tasks[t].terminal.Some? && s.tasks[t].terminal.value.outcome == o
  }

  /** Waiter `w` of task `t` has been resumed with the status of the end `o` of `t`. Unless it has
      ended, it is in the queue with work, or has trapped; one that traps ends as failed, and
      stays as it is only when `t` was cancelled. */
  ghost predicate Served(s: RunState, s': RunState, t: TaskId, w: Waiter, o: Outcome) {
    && w.request !in s'.frames
    && (w.request in s.frames ==> Answer(s, t, w, o) in s'.resumed)
    && (s'.Live(w.task) ==> s.Live(w.task) && w.task != t && if s.traps(w.request) then LeftStranded(s', w, o) else Requeued(s', w))
    && (s.Live(w.task) && w.task != t && s.traps(w.request) && !o.Cancelled? ==> EndsWith(s', w.task, Failed(Failure(Trapped, false))))
  }

  /** What the log says of waiter `w`: a waiter that has ended is resumed as well, if its request
      still has a frame. */
  function Answer(s: RunState, t: TaskId, w: Waiter, o: Outcome): Resumption {
    Resumption(w.task, w.request, Status(WaitStatus(o)), s.Live(w.task) && w.task != t)
  }

  ghost predicate Requeued(s: RunState, w: Waiter) {
    s.Live(w.task) && s.tasks[w.task].phase == Ready && s.tasks[w.task].work == RawOutcome && s.tasks[w.task].blocker == Unblocked && w.task in s.readyQueue
  }

  ghost predicate LeftStranded(s: RunState, w: Waiter, o: Outcome) {
    o.Cancelled? && s.Live(w.task) && s.tasks[w.task].blocker == Stranded(w.request)
  }

  ghost predicate AllServed(s: RunState, s': RunState, t: TaskId, o: Outcome) {
    forall w {:trigger w in s.tasks[t].waiters} :: t in s.tasks && w in s.tasks[t].waiters ==> Served(s, s', t, w, o)
  }

  /** Whoever waited for `t` has been served, and whoever observed it has been given its outcome. */
  ghost predicate Told(s: RunState, s': RunState, t: TaskId, o: Outcome) {
    && AllServed(s, s', t, o)
    && (t in s.tasks && s.tasks[t].capability in s.observers ==> s.tasks[t].capability in s'.given && s'.given[s.tasks[t].capability] == o)
    && (t in s.tasks && s.tasks[t].waiters != [] && !o.Cancelled? ==> s'.IsDone(t) && HasEnded(s', t) && s'.tasks[t].terminal.value.observed)
  }

  /** Announcing the end of `t` stores the outcome of a detached task; an observer is given the
      outcome, which uses the token up, and so is the token of a cancelled task that was claimed. */
  ghost predicate Notified(s: RunState, s': RunState, t: TaskId) {
    && s.IsDone(t) && s.tasks[t].terminal.Some?
    && s' == s.(tasks := s'.tasks, observers := s'.observers, tokens := s'.tokens, completed := s'.completed, deliveries := s'.deliveries,
                given := s'.given)
    && var cap := s.tasks[t].capability;
       && s'.observers == s.observers - {cap}
       && (if cap in s.observers then
             && s'.tasks == MarkObserved(s, t).tasks && s'.tokens == s.tokens - {cap} && cap !in s'.completed
             && s'.deliveries == s.deliveries + [cap] && s'.given == s.given[cap := s.tasks[t].terminal.value.outcome]
           else
             var spent := s.tasks[t].claimed && s.tasks[t].terminal.value.outcome.Cancelled?;
             && s'.tasks == s.tasks && s'.deliveries == s.deliveries && s'.given == s.given && s'.tokens == (if spent then s.tokens - {cap} else s.tokens)
             && (cap in s'.completed <==> s.tasks[t].detached && !spent)
             && (cap in s'.completed ==> s'.completed[cap] == s.tasks[t].terminal.value.outcome))
  }

  ghost predicate NoLiveChild(s: RunState, t: TaskId) {
    t in s.tasks && forall c :: c in s.tasks[t].children ==> !s.Live(c)
  }

  /** The waiter of a task that has just ended is ready to be resumed. */
  lemma WaiterReady(s1: RunState, s: RunState, id: TaskId, o: Outcome, w: Waiter)
    requires Phases(s1) && Queue(s1) && Waits(s1) && s1.Live(id) && w in s1.tasks[id].waiters
    requires s == MarkObserved(MarkDone(s1, id, o), id) || s == MarkDone(s1, id, o)
    ensures w.task in s.tasks && PhaseOk(s1, w.task)
    ensures w.request in s.frames ==> MaySpend(s, w.task, w.request) && s.running != Some(w.task)
    ensures s1.Live(w.task) ==> w.request in s.frames
    ensures s.Live(w.task) ==>
              && s1.Live(w.task) && w.task != id
              && s.tasks[w.task].phase == Waiting && s.tasks[w.task].blocker == OnTask(id, w.request)
  {
    assert PhaseOk(s1, w.task) && BlockerOk(s1, w.task) && PhaseOk(s1, id);
  }

  lemma ProgressThen(a: RunState, b: RunState, c: RunState, k: set<TaskId>, u: set<TaskId>, x: set<TaskId>)
    requires Progress(a, b, k, u, x) && Progress(b, c, {}, {}, {})
    ensures Progress(a, c, k, u, x)
  {
    ProgressTrans(a, b, c, k, u, x, {}, {}, {});
    assert k + {} == k && u + {} == u && x + {} == x;
  }

  /** Step `b` to `c` finishes task `w`, which waited on another task when the caller began. */
  lemma ProgressFinishing(a: RunState, b: RunState, c: RunState, k: set<TaskId>, u: set<TaskId>, x: set<TaskId>, w: TaskId)
    requires Progress(a, b, k, u, x) && Progress(b, c, {}, {}, {w})
    requires !b.Live(w) || (a.Live(w) && !Quiet(a.tasks[w]))
    ensures Progress(a, c, k, u, x)
  {
    hide Cascade, Stuck, Unswept, Orphaned;
    if !b.Live(w) {
      ProgressWeaken(b, c, {}, {}, {w}, {}, {}, {});
      ProgressThen(a, b, c, k, u, x);
    } else {
      ProgressTrans(a, b, c, k, u, x, {}, {}, {w});
      assert k + {} == k && u + {} == u;
      hide Progress, Orphaned;
      ProgressWeaken(a, c, k, u, x + {w}, k, u, x);
    }
  }

  /** Steps after the end of `t` that do not undo what others were told. */
  ghost predicate After(a: RunState, b: RunState, t: TaskId) {
    && b.tasks.Keys == a.tasks.Keys && a.resumed <= b.resumed && a.deliveries <= b.deliveries && a.readyQueue <= b.readyQueue
    && (forall u {:trigger b.tasks[u]} :: u in a.tasks && u != t ==> TaskCascade(a.tasks[u], b.tasks[u]))
    && (forall r {:trigger r in b.frames} :: r in b.frames ==> r in a.frames)
    && (forall c {:trigger c in b.given} :: c in a.given ==> c in b.given && b.given[c] == a.given[c])
    && b.firsts == a.firsts
    && a.IsDone(t) && b.IsDone(t)
    && (HasEnded(a, t) && a.tasks[t].terminal.value.observed ==> HasEnded(b, t) && b.tasks[t].terminal.value.observed)
  }

  /** What becomes of another task, of the log and of the queue after the end of `t`. */
  lemma WaiterLater(a: RunState, b: RunState, t: TaskId, w: TaskId)
    requires Cascade(a, b) || After(a, b, t)
    ensures w != t && w in a.tasks ==> w in b.tasks && TaskCascade(a.tasks[w], b.tasks[w])
    ensures w != t && w !in a.tasks ==> w !in b.tasks
    ensures a.IsDone(t) ==> b.IsDone(t)
    ensures !a.Live(t) ==> !b.Live(t)
    ensures w in a.readyQueue ==> w in b.readyQueue
    ensures a.resumed <= b.resumed && forall r {:trigger r in b.frames} :: r in b.frames ==> r in a.frames
  {
    if Cascade(a, b) && t in a.tasks { assert TaskCascade(a.tasks[t], b.tasks[t]); }
    if w in a.readyQueue { StaysLogged(w, a.readyQueue, b.readyQueue); }
  }

  lemma ServedLater(s: RunState, a: RunState, b: RunState, t: TaskId, w: Waiter, o: Outcome)
    requires Served(s, a, t, w, o) && (Cascade(a, b) || After(a, b, t))
    ensures Served(s, b, t, w, o)
  {
    WaiterLater(a, b, t, w.task);
    hide Cascade, After;
    if w.request in s.frames { StaysLogged(Answer(s, t, w, o), a.resumed, b.resumed); }
  }

  ghost predicate OwnerEnds(s: RunState, s': RunState, t: TaskId, o: Outcome) {
    EndsWith(s', t, o) && Told(s, s', t, o)
  }

  /** A live task without live children may end, unless with a value that hides a failure. */
  lemma ReadyToEnd(s: RunState, t: TaskId, o: Outcome)
    requires Inv(s) && s.Live(t) && NoLiveChild(s, t)
    requires o.Value? ==> FirstUnobservedFailure(s.tasks, s.tasks[t].children).None?
    requires o.Cancelled? || !s.tasks[t].blocker.OnTask?
    ensures MayEnd(s, t, o)
  {
    assert OwnerOk(s, t) && PhaseOk(s, t) && FirstOk(s, t);
    if o.Value? { NoUnobservedFailure(s, s.tasks[t].children); }
    forall c | c in s.tasks[t].children ensures s.IsDone(c) {}
    if s.tasks[t].owner.Some? {
      assert t in s.tasks[s.tasks[t].owner.value].children;
    }
  }

  // ---------------------------------------------------------------- completing one task

  ghost predicate AlreadyEnding(s: RunState, t: TaskId) {
    t in s.tasks && (s.tasks[t].phase == Done || s.tasks[t].phase == Completing)
  }

  /** Only a task that is being run, or that nothing else is going to wake, is completed. */
  ghost predicate MayComplete(s: RunState, t: TaskId) {
    t in s.tasks && (AlreadyEnding(s, t) || ((s.running == Some(t) || s.tasks[t].blocker == InHand) && !s.tasks[t].work.ResumeWith?))
  }

  ghost predicate MustWait(s: RunState, t: TaskId, completion: Outcome) {
    t in s.tasks && !AlreadyEnding(s, t) && completion.Value? && !NoLiveChild(s, t)
  }

  ghost predicate EndsNow(s: RunState, t: TaskId, completion: Outcome) {
    t in s.tasks && !AlreadyEnding(s, t) && !MustWait(s, t, completion)
  }

  lemma Formerly(a: RunState, b: RunState, k: set<TaskId>, u: set<TaskId>, x: set<TaskId>, t: TaskId)
    requires Progress(a, b, k, u, x) && t in b.tasks
    ensures t in a.tasks && TaskCascade(a.tasks[t], b.tasks[t])
  {
  }

  lemma ObserverHasToken(s: RunState, cap: Token)
    requires Inv(s) && cap in s.observers
    ensures cap in s.tokens
  {
  }

  // ---------------------------------------------------------------- announcing

  lemma StoreStep(s0: RunState, s: RunState, t: TaskId, k: set<TaskId>, x: set<TaskId>)
    requires Inv(s) && Progress(s0, s, k, {t}, x) && s0.Live(t) && s.IsDone(t) && s.tasks[t].terminal.Some?
    ensures var s' := Store(s, t); Inv(s') && Progress(s0, s', k, {t}, x) && s'.tasks == s.tasks && s'.observers == s.observers
  {
    hide Tree, Phases, Subtrees, Queue, Waits, Requests, Failures, Settled, Answers, Askings, Gifts, Progress;
    StoreKeeps(s, t);
    StoreUnswept(s, t);
    TokensProgress(s0, s, Store(s, t), t, k, {t}, x);
  }

  lemma ForgetStep(s0: RunState, s: RunState, cap: Token, t: TaskId, k: set<TaskId>, x: set<TaskId>)
    requires Inv(s) && Progress(s0, s, k, {t}, x) && s0.Live(t) && s.IsDone(t) && cap !in s.observers
    ensures var s' := Forget(s, cap); Inv(s') && Progress(s0, s', k, {t}, x)
  {
    hide Tree, Phases, Subtrees, Queue, Waits, Requests, Failures, Settled, Answers, Askings, Gifts, Progress;
    ForgetKeeps(s, cap);
    ForgetUnswept(s, cap);
    TokensProgress(s0, s, Forget(s, cap), t, k, {t}, x);
  }

  lemma DeliverStep(s0: RunState, s: RunState, cap: Token, o: Outcome, t: TaskId, k: set<TaskId>, x: set<TaskId>)
    requires Inv(s) && Progress(s0, s, k, {t}, x) && s0.Live(t) && s.IsDone(t) && cap in s.observers && MayDeliver(s, cap, o)
    ensures var s' := Deliver(s, cap, o); Inv(s') && Progress(s0, s', k, {t}, x) && s'.tasks == s.tasks
  {
    hide Tree, Phases, Subtrees, Queue, Waits, Requests, Failures, Settled, Answers, Askings, Progress, MayDeliver;
    ObserverWatched(s, cap);
    DeliverKeeps(s, cap, o);
    DeliverUnswept(s, cap, o);
    DeliverTokens(s, cap, o);
    TokensProgress(s0, s, Deliver(s, cap, o), t, k, {t}, x);
  }

  lemma ObserverWatched(s: RunState, cap: Token)
    requires Inv(s) && cap in s.observers
    ensures cap in s.watched && cap in s.minted && cap !in s.given
  {
    ObserverHasToken(s, cap);
  }

  lemma DeliverTokens(s: RunState, cap: Token, o: Outcome)
    requires cap in s.watched && cap !in s.given
    ensures var s' := Deliver(s, cap, o);
            && s' == s.(observers := s'.observers, tokens := s'.tokens, completed := s'.completed, deliveries := s'.deliveries, given := s'.given)
            && s'.observers <= s.observers && s.deliveries <= s'.deliveries
            && (forall c {:trigger c in s'.observers} :: c in s.observers ==> c in s'.observers || c in s'.deliveries)
            && (forall c {:trigger c in s'.tokens} :: c in s'.tokens ==> c in s.tokens && s'.tokens[c] == s.tokens[c])
            && (forall c {:trigger c in s'.given} :: c in s.given ==> c in s'.given && s'.given[c] == s.given[c])
            && (forall c {:trigger c in s'.given} :: c in s'.given ==> c in s.given || c in s.watched)
  {
  }

  lemma NotifiedStored(s: RunState, t: TaskId)
    requires s.IsDone(t) && s.tasks[t].terminal.Some? && ConsumerOk(s, t) && (s.tasks[t].capability == 0 ==> !s.tasks[t].detached)
    requires s.tasks[t].capability !in s.observers
    ensures s.tasks[t].claimed && s.tasks[t].terminal.value.outcome.Cancelled? ==> Notified(s, Forget(Store(s, t), s.tasks[t].capability), t)
    ensures !(s.tasks[t].claimed && s.tasks[t].terminal.value.outcome.Cancelled?) ==> Notified(s, Store(s, t), t)
  {
    var cap := s.tasks[t].capability;
    assert s.observers - {cap} == s.observers;
  }

  lemma NotifiedDelivered(s: RunState, t: TaskId)
    requires s.IsDone(t) && s.tasks[t].terminal.Some? && s.tasks[t].capability in s.observers
    ensures Store(s, t).tasks == s.tasks
    ensures Deliver(Store(s, t), s.tasks[t].capability, s.tasks[t].terminal.value.outcome).tasks == s.tasks
    ensures Notified(s, MarkObserved(Deliver(Store(s, t), s.tasks[t].capability, s.tasks[t].terminal.value.outcome), t), t)
  {
  }

  // ---------------------------------------------------------------- waking a waiter

  /** The state in which waiter `w` of the task `id`, just ended, is about to be resumed. */
  ghost predicate AboutToWake(s0: RunState, s1: RunState, s: RunState, id: TaskId, w: Waiter, k: set<TaskId>, x: set<TaskId>) {
    && Inv(s) && Progress(s0, s, k, {id}, x) && s.IsDone(id)
    && w.task in s.tasks && w.task in s1.tasks
    && (w.request in s.frames ==> MaySpend(s, w.task, w.request) && s.running != Some(w.task) && PhaseOk(s, w.task))
    && (s1.Live(w.task) ==> w.request in s.frames) && s1.frames == s.frames && s1.traps == s.traps
    && w.request in s.asked && s.asked[w.request] == Asking(w.task, id, true) && HasEnded(s, id)
    && (s1.Live(w.task) && w.task != id ==> s.Live(w.task))
    && (s.Live(w.task) ==>
          && s1.Live(w.task) && w.task != id && s.tasks[w.task].phase == Waiting
          && s0.Live(w.task) && !Quiet(s0.tasks[w.task]))
  }

  /** The waiter of a live task has asked for its end; once it has ended, that is what it is told. */
  lemma WaiterAsked(s: RunState, t: TaskId, o: Outcome, w: Waiter)
    requires Answers(s) && Askings(s) && s.Live(t) && w in s.tasks[t].waiters
    ensures var s' := MarkDone(s, t, o);
            && w.request in s'.asked && s'.asked[w.request] == Asking(w.task, t, true) && HasEnded(s', t)
            && s'.firsts == s.firsts[t := o] && s'.tasks[t].terminal.Some? && Noticed(s', t) && s'.asked == s.asked
  {
    assert FirstOk(s, t) && WaiterOk(s, t, w);
    var s' := MarkDone(s, t, o);
    assert s'.asked[w.request].target == t && !Revised(s', t);
  }

  lemma PrepareWake(s0: RunState, s1: RunState, id: TaskId, o: Outcome, w: Waiter, k: set<TaskId>, x: set<TaskId>)
    requires Inv(s1) && s1.Live(id) && w in s1.tasks[id].waiters
    requires Inv(MarkDone(s1, id, o)) && Progress(s0, MarkDone(s1, id, o), k, {id}, x) && s0.Live(id)
    ensures AboutToWake(s0, s1, MarkDone(s1, id, o), id, w, k, x) && MarkDone(s1, id, o).firsts == s1.firsts[id := o]
    ensures AboutToWake(s0, s1, MarkObserved(MarkDone(s1, id, o), id), id, w, k, x)
  {
    WaiterAsked(s1, id, o, w);
    var s2 := MarkDone(s1, id, o);
    hide Inv, Progress, AboutToWake, Noticed;
    PrepareObserved(s0, s2, id, k, x);
    WakeReadyAt(s0, s1, s2, id, o, w, k, x);
    WakeReadyAt(s0, s1, MarkObserved(s2, id), id, o, w, k, x);
  }

  lemma PrepareObserved(s0: RunState, s: RunState, id: TaskId, k: set<TaskId>, x: set<TaskId>)
    requires Inv(s) && Progress(s0, s, k, {id}, x) && s0.Live(id) && s.IsDone(id) && s.tasks[id].terminal.Some? && Noticed(s, id)
    ensures Inv(MarkObserved(s, id)) && Progress(s0, MarkObserved(s, id), k, {id}, x)
  {
    hide Inv, Progress, Noticed;
    MarkObservedKeeps(s, id);
    ObservedProgress(s0, s, id, k, {id}, x);
  }

  lemma WakeReadyAt(s0: RunState, s1: RunState, s: RunState, id: TaskId, o: Outcome, w: Waiter, k: set<TaskId>, x: set<TaskId>)
    requires Inv(s1) && s1.Live(id) && w in s1.tasks[id].waiters && Inv(s) && Progress(s0, s, k, {id}, x) && s0.Live(id)
    requires s == MarkObserved(MarkDone(s1, id, o), id) || s == MarkDone(s1, id, o)
    requires w.request in s.asked && s.asked[w.request] == Asking(w.task, id, true) && HasEnded(s, id)
    ensures AboutToWake(s0, s1, s, id, w, k, x)
  {
    hide Tree, Phases, Subtrees, Queue, Waits, Requests, Consumers, Failures, Settled, Answers, Askings, Gifts, Progress;
    WaiterReady(s1, s, id, o, w);
    At(s, w.task);
    Formerly(s0, s, k, {id}, x, w.task);
  }

  /** Resuming the waiter uses up its request; if it is live, it now waits for nobody. */
  lemma SpendWake(s0: RunState, s1: RunState, s: RunState, id: TaskId, w: Waiter, o: Outcome, k: set<TaskId>, x: set<TaskId>)
    requires AboutToWake(s0, s1, s, id, w, k, x) && w.request in s.frames && s.firsts[id] == o
    ensures var s' := Spend(s, w.task, w.request, Status(WaitStatus(o)));
            && Inv(s') && Progress(s0, s', k, {id}, x) && Cascade(s, s') && s'.traps == s1.traps
            && Answer(s1, id, w, o) in s'.resumed
            && s'.tasks.Keys == s.tasks.Keys && s'.running == s.running
            && (s'.Live(w.task) ==> s.Live(w.task) && MayQueue(s', w.task, RawOutcome)
                                    && s'.tasks[w.task].phase == Waiting && s'.tasks[w.task].blocker == InHand
                                    && s'.running != Some(w.task))
            && MayComplete(s', w.task)
  {
    hide Tree, Phases, Subtrees, Queue, Waits, Requests, Consumers, Failures, Settled, Answers, Askings, Gifts, Progress;
    var p := Status(WaitStatus(o));
    var s' := Spend(s, w.task, w.request, p);
    TellsWaiter(s, id, w);
    SpendKeeps(s, w.task, w.request, p);
    SpendProgress(s, w.task, w.request, p);
    ProgressThen(s0, s, s', k, {id}, x);
    assert s'.resumed[|s.resumed|] == Resumption(w.task, w.request, p, s.Live(w.task)) == Answer(s1, id, w, o);
    ProgressCascade(s, s', {}, {}, {});
    At(s', w.task);
  }

  lemma ProgressCascade(s: RunState, s': RunState, k: set<TaskId>, u: set<TaskId>, x: set<TaskId>)
    requires Progress(s, s', k, u, x)
    ensures Cascade(s, s')
  {
  }

  lemma ReadyWake(s0: RunState, s: RunState, w: TaskId, k: set<TaskId>, u: set<TaskId>, x: set<TaskId>)
    requires Inv(s) && Progress(s0, s, k, u, x) && MayQueue(s, w, RawOutcome)
    requires s.tasks[w].phase == Waiting && s.tasks[w].blocker == InHand && s.running != Some(w)
    ensures var s' := MakeReady(s, w, RawOutcome); Inv(s') && Progress(s0, s', k, u, x) && Cascade(s, s')
  {
    hide Tree, Phases, Subtrees, Queue, Waits, Requests, Consumers, Failures, Settled, Answers, Askings, Gifts, Progress;
    MakeReadyKeeps(s, w, RawOutcome);
    ReadyProgress(s, w);
    ProgressThen(s0, s, MakeReady(s, w, RawOutcome), k, u, x);
    ProgressCascade(s, MakeReady(s, w, RawOutcome), {}, {}, {});
  }

  /** A task that has ended is left alone. */
  lemma EndsStays(a: RunState, b: RunState, t: TaskId, o: Outcome)
    requires Cascade(a, b) && EndsWith(a, t, o)
    ensures EndsWith(b, t, o) && t in a.tasks && t in b.tasks && b.tasks[t] == a.tasks[t]
  {
    assert TaskCascade(a.tasks[t], b.tasks[t]);
  }

  lemma ObservedAt(s: RunState, t: TaskId)
    requires t in s.tasks && s.tasks[t].terminal.Some?
    ensures var s' := MarkObserved(s, t);
            s'.firsts == s.firsts && s'.tasks.Keys == s.tasks.Keys && s'.tasks[t].terminal.Some? && s'.tasks[t].terminal.value.observed
  {
  }

  lemma EndRecorded(s: RunState, t: TaskId)
    requires Inv(s) && s.IsDone(t)
    ensures t in s.firsts
  {
    assert FirstOk(s, t);
  }

  lemma CascadeRefl(s: RunState)
    ensures Cascade(s, s)
  {
  }

  lemma CancelledTask(s: RunState, t: TaskId)
    requires t in s.tasks
    ensures var s' := MarkDone(s, t, Cancelled);
            && s'.tasks.Keys == s.tasks.Keys && s'.tasks[t].waiters == s.tasks[t].waiters && s'.tasks[t].owner == s.tasks[t].owner
            && s'.tasks[t].capability == s.tasks[t].capability && s'.frames == s.frames && s'.resumed == s.resumed && s'.tokens == s.tokens && s'.IsDone(t)
  {
  }

  lemma EndedTask(s: RunState, t: TaskId, o: Outcome)
    requires t in s.tasks
    ensures var s' := MarkDone(s, t, o);
            && s'.tasks.Keys == s.tasks.Keys && s'.tasks[t].terminal == Some(Terminal(o, false)) && s'.tasks[t].waiters == s.tasks[t].waiters
            && s'.tasks[t].owner == s.tasks[t].owner && s'.tasks[t].capability == s.tasks[t].capability
            && MarkObserved(s', t).tasks[t].capability == s.tasks[t].capability && s'.frames == s.frames && s'.resumed == s.resumed && s'.tokens == s.tokens
            && s'.LiveSet() == s.LiveSet() - {t} && s'.nextTaskId == s.nextTaskId && s'.hooked == s.hooked
            && MarkObserved(s', t).LiveSet() == s'.LiveSet() && EndsWith(s', t, o) && EndsWith(MarkObserved(s', t), t, o)
            && MarkObserved(s', t).tasks.Keys == s'.tasks.Keys && MarkObserved(s', t).tasks[t].waiters == s'.tasks[t].waiters
            && MarkObserved(s', t).tasks[t].owner == s.tasks[t].owner
            && (forall u :: u in s.tasks && u != t ==> s'.tasks[u] == s.tasks[u])
            && MarkObserved(s', t).nextTaskId == s'.nextTaskId && MarkObserved(s', t).hooked == s.hooked
  {
  }

  lemma WakesOne(s0: RunState, s1: RunState, s: RunState, id: TaskId, w: Waiter, k: set<TaskId>, x: set<TaskId>)
    requires AboutToWake(s0, s1, s, id, w, k, x)
    ensures Inv(s) && Progress(s0, s, k, {id}, x) && s.IsDone(id) && w.task in s.tasks && w.task in s1.tasks
    ensures s.Live(w.task) ==> w.request in s.frames && s0.Live(w.task) && !Quiet(s0.tasks[w.task])
    ensures AskedEarly(s, w.request)
  {
  }

  /** A request without a frame belongs to a waiter that has already ended. */
  lemma SkippedWake(s0: RunState, s1: RunState, s: RunState, id: TaskId, w: Waiter, o: Outcome, k: set<TaskId>, x: set<TaskId>)
    requires AboutToWake(s0, s1, s, id, w, k, x) && w.request !in s.frames
    ensures Served(s1, s, id, w, o) && AlreadyEnding(s, w.task) && MayComplete(s, w.task) && !s.Live(w.task) && Cascade(s, s)
  {
    CascadeRefl(s);
    hide Inv, Progress, Cascade, PhaseOk;
  }

  lemma SameIds(s: RunState, s': RunState)
    requires Cascade(s, s')
    ensures s'.nextTaskId == s.nextTaskId && s'.hooked == s.hooked && s'.hostSettled == s.hostSettled && s'.tasks.Keys == s.tasks.Keys
    ensures s'.asleep ==> s.asleep
  {
  }

  // ---------------------------------------------------------------- ending a task

  ghost function OwnerSet(s: RunState, t: TaskId): set<TaskId>
    requires t in s.tasks
  {
    if s.tasks[t].owner.Some? then {s.tasks[t].owner.value} else {}
  }

  ghost function ChildSet(s: RunState, t: TaskId): set<TaskId>
    requires t in s.tasks
  {
    set c | c in s.tasks[t].children
  }

  lemma EndStep(s0: RunState, s: RunState, t: TaskId, o: Outcome, x: set<TaskId>)
    requires Inv(s) && MayEnd(s, t, o) && Progress(s0, s, {}, {}, x) && s0.Live(t) && t in x
    requires o.Value? ==> s.Live(t)
    ensures Inv(MarkDone(s, t, o)) && Progress(s0, MarkDone(s, t, o), OwnerSet(s, t), {t}, x)
  {
    hide Phases, Subtrees, Queue, Waits, Requests, Consumers, Failures, Settled, Answers, Askings, Gifts, Progress;
    MarkDoneKeeps(s, t, o);
    EndProgress(s0, s, t, o, {}, {}, x);
    assert {} + OwnerSet(s, t) == OwnerSet(s, t) && {} + {t} == {t};
  }

  /** Task `t` has just ended. */
  lemma Ending(s0: RunState, s: RunState, t: TaskId, o: Outcome, x: set<TaskId>)
    requires Inv(s) && MayEnd(s, t, o) && Progress(s0, s, {}, {}, x) && s0.Live(t) && t in x
    requires o.Value? ==> s.Live(t)
    ensures var s' := MarkDone(s, t, o);
            && Inv(s') && Progress(s0, s', OwnerSet(s, t), {t}, x) && s'.hooked == s.hooked && s'.nextTaskId == s.nextTaskId && 1 <= t < s.nextTaskId
            && t in s'.tasks && s'.tasks[t].waiters == s.tasks[t].waiters && s'.tasks[t].owner == s.tasks[t].owner && |s.tasks[t].waiters| <= 1
            && s'.tasks[t].capability == s.tasks[t].capability && EndsWith(s', t, o)
            && s'.LiveSet() == s.LiveSet() - {t} && s'.LiveSet() <= s.LiveSet() && (s.Live(t) ==> s'.LiveSet() < s.LiveSet())
            && s'.frames == s.frames && s'.resumed == s.resumed && s'.tokens == s.tokens
            && (s.tasks[t].owner.Some? ==> s.tasks[t].owner.value in s'.tasks && s'.tasks[s.tasks[t].owner.value] == s.tasks[s.tasks[t].owner.value])
  {
    OwnerKnown(s, t);
    EndedTask(s, t, o);
    hide Inv, Progress, MayEnd, MarkDone, RunState.LiveSet, EndsWith;
    EndShrinks(s, t, o);
    EndStep(s0, s, t, o, x);
  }

  /** Everything that ending `t` left open has been dealt with. */
  lemma Concluded(s0: RunState, s: RunState, s': RunState, t: TaskId, k: set<TaskId>, x: set<TaskId>)
    requires Progress(s0, s, k, {t}, x) && Progress(s, s', {}, {}, {})
    requires !Unswept(s, t)
    requires forall o :: o in k ==> !Stuck(s', o)
    ensures Progress(s0, s', {}, {}, x)
  {
    ProgressThen(s0, s, s', k, {t}, x);
    ProgressWeaken(s0, s', k, {t}, x, {}, {}, x);
  }

  ghost predicate ChildrenCut(s0: RunState, s: RunState, t: TaskId) {
    forall c {:trigger s.IsDone(c)} :: s0.Live(c) && s.IsDone(c) && Quiet(s0.tasks[c]) && s0.tasks[c].owner == Some(t) ==> CancelledFirst(s, c)
  }

  lemma CutChildren(s0: RunState, s: RunState, s': RunState, t: TaskId)
    requires Inv(s0) && t in s0.tasks && CutOff(s0, s) && Cascade(s0, s) && NoLiveChild(s, t)
    requires forall u {:trigger u in s'.firsts} :: u in s.firsts ==> u in s'.firsts && s'.firsts[u] == s.firsts[u]
    ensures ChildrenCut(s0, s', t)
  {
    forall c | s0.Live(c) && Quiet(s0.tasks[c]) && s0.tasks[c].owner == Some(t) ensures CancelledFirst(s', c) {
      assert OwnerOk(s0, c);
      assert c in s.tasks[t].children && s.IsDone(c);
      assert CancelledFirst(s, c);
    }
  }

  /** Children that were cancelled along with an owner that did not succeed need not be mentioned. */
  lemma ForgetChildren(s0: RunState, s': RunState, t: TaskId)
    requires Inv(s0) && t in s0.tasks && Progress(s0, s', {}, {}, {t} + ChildSet(s0, t)) && EndedWithoutValue(s', t)
    requires ChildrenCut(s0, s', t)
    ensures Progress(s0, s', {}, {}, {t})
  {
    hide Phases, Subtrees, Queue, Waits, Requests, Consumers, Failures, Settled, Answers, Askings, Gifts;
    forall c | c in ChildSet(s0, t) && c != t && s0.Live(c) && s'.IsDone(c) && Quiet(s0.tasks[c]) ensures Orphaned(s', c) {
      assert c in s0.tasks[t].children;
      assert TaskCascade(s0.tasks[c], s'.tasks[c]);
      assert CancelledFirst(s', c);
    }
    ProgressWeaken(s0, s', {}, {}, {t} + ChildSet(s0, t), {}, {}, {t});
  }

  /** A task that was live, and ended meanwhile without being asked to, has been fully announced,
      and its owner has ended too. */
  lemma EndedMeanwhile(s0: RunState, s: RunState, t: TaskId, x: set<TaskId>)
    requires Inv(s) && Progress(s0, s, {}, {}, x) && s0.Live(t) && Quiet(s0.tasks[t]) && t !in x && s.IsDone(t)
    ensures Unheard(s, t)
    ensures s.tasks[t].owner.Some? && EndedWithoutValue(s, s.tasks[t].owner.value) && t != ROOT
  {
    assert !Unswept(s0, t);
    assert !Unswept(s, t);
    assert OwnerOk(s, t) && TaskCascade(s0.tasks[t], s.tasks[t]);
  }

  lemma StillLive(s: RunState, s': RunState, t: TaskId)
    requires Cascade(s, s') && t in s.tasks
    ensures s'.Live(t) ==> s.Live(t) && s'.tasks[t].waiters == s.tasks[t].waiters
    ensures s'.tasks[t].children == s.tasks[t].children && s'.tasks[t].owner == s.tasks[t].owner
  {
    assert TaskCascade(s.tasks[t], s'.tasks[t]);
  }

  /** Nobody can have asked afterwards for the end of a task that was live when all this began. */
  lemma WasLive(s0: RunState, s: RunState, t: TaskId)
    requires Inv(s0) && Cascade(s0, s) && s0.Live(t)
    ensures EarlyOnly(s, t)
  {
    assert FirstOk(s0, t);
    forall c | c in s.given && c in s.minted && s.minted[c] == t ensures c in s.watched {
      assert c in s0.given ==> GivenOk(s0, c);
    }
    forall r | r in s.asked && s.asked[r].target == t ensures s.asked[r].early { assert AskedOk(s0, r); }
  }

  /** Whether a live task, or one that ended meanwhile, may now end without a value. */
  lemma MayEndNow(s: RunState, t: TaskId, o: Outcome)
    requires Inv(s) && NoLiveChild(s, t) && !o.Value?
    requires s.IsDone(t) && t == ROOT ==> s.hostSettled
    requires s.IsDone(t) && o.Failed? && s.tasks[t].owner.Some? ==> EndedWithoutValue(s, s.tasks[t].owner.value)
    requires s.IsDone(t) ==> EarlyOnly(s, t) && (o.Failed? ==> CancelledFirst(s, t))
    requires o.Cancelled? || !s.tasks[t].blocker.OnTask?
    ensures MayEnd(s, t, o)
  {
    if s.Live(t) { ReadyToEnd(s, t, o); }
    assert FirstOk(s, t);
    forall c | c in s.tasks[t].children ensures s.IsDone(c) {}
  }

  lemma NoStuckUnhooked(s: RunState, t: TaskId)
    requires Inv(s) && !s.hooked
    ensures !Stuck(s, t)
  {
    if t in s.tasks { assert PhaseOk(s, t); }
  }

  /** Nobody waits for the end of `t` or observes it. */
  ghost predicate Unheard(s: RunState, t: TaskId) {
    t in s.tasks && s.tasks[t].waiters == [] && s.tasks[t].capability !in s.observers
  }

  lemma NotUnswept(s0: RunState, s: RunState, t: TaskId, x: set<TaskId>)
    requires Progress(s0, s, {}, {}, x) && s0.Live(t) && s.IsDone(t)
    ensures Unheard(s, t)
  {
    assert !Unswept(s0, t);
    assert !Unswept(s, t);
  }

  lemma ChildOf(s1: RunState, s: RunState, t: TaskId, c: TaskId)
    requires Inv(s1) && Cascade(s1, s) && t in s1.tasks && c in s1.tasks[t].children
    ensures c in s.tasks && t < c < s.nextTaskId && c != ROOT
  {
    assert OwnerOk(s1, c) && OwnerOk(s1, ROOT);
  }

  lemma AddTarget(s0: RunState, s: RunState, s': RunState, x: set<TaskId>, c: TaskId)
    requires Progress(s0, s, {}, {}, x) && Progress(s, s', {}, {}, {c}) && c in x
    ensures Progress(s0, s', {}, {}, x)
  {
    ProgressTrans(s0, s, s', {}, {}, x, {}, {}, {c});
    assert x + {c} == x;
  }

  lemma NotWaiting(s0: RunState, s: RunState, t: TaskId)
    requires Inv(s) && Cascade(s0, s) && s0.Live(t) && Quiet(s0.tasks[t])
    ensures t in s.tasks && !s.tasks[t].blocker.OnTask?
  {
    hide Inv, Cascade, OwnerOk, BlockerOk, ConsumerOk;
    CascadeAt(s0, s, t);
    At(s, t);
  }

  lemma CascadeAt(s: RunState, s': RunState, t: TaskId)
    requires Cascade(s, s') && t in s.tasks
    ensures t in s'.tasks && TaskCascade(s.tasks[t], s'.tasks[t])
  {
  }

  /** After the children of a failing task are cancelled, the task itself can end, even if the
      cancellation has meanwhile reached it from above. */
  lemma CompletingFailed(s0: RunState, s: RunState, t: TaskId, completion: Outcome)
    requires Inv(s0) && Inv(s) && s0.Live(t) && Quiet(s0.tasks[t]) && Progress(s0, s, {}, {}, ChildSet(s0, t))
    requires NoLiveChild(s, t) && completion.Failed? && CutOff(s0, s)
    ensures MayEnd(s, t, completion) && Progress(s0, s, {}, {}, {t} + ChildSet(s0, t))
    ensures s.IsDone(t) ==> Unheard(s, t)
    ensures s.IsDone(t) && s.tasks[t].owner.Some? ==> s.IsDone(s.tasks[t].owner.value)
  {
    hide Phases, Subtrees, Queue, Waits, Requests, Consumers, Failures, Settled, Answers, Askings, Gifts, Progress;
    assert t !in ChildSet(s0, t) by {
      if t in s0.tasks[t].children { At(s0, t); }
    }
    if s.IsDone(t) { EndedMeanwhile(s0, s, t, ChildSet(s0, t)); }
    ProgressCascade(s0, s, {}, {}, ChildSet(s0, t));
    WasLive(s0, s, t);
    assert s.IsDone(t) ==> CancelledFirst(s, t);
    NotWaiting(s0, s, t);
    hide Inv, CutOff, Cascade, NoLiveChild, EarlyOnly;
    MayEndNow(s, t, completion);
    ProgressWeaken(s0, s, {}, {}, ChildSet(s0, t), {}, {}, {t} + ChildSet(s0, t));
  }

  lemma RunningReady(s: RunState, t: TaskId)
    requires Inv(s) && MayComplete(s, t)
    ensures !s.tasks[t].blocker.OnTask? && !s.tasks[t].blocker.OnHandler? && !s.tasks[t].work.ResumeWith?
    ensures !AlreadyEnding(s, t) ==> Quiet(s.tasks[t]) && s.Live(t)
    ensures s.running == Some(t) ==> s.tasks[t].phase == Ready
  {
    assert PhaseOk(s, t);
  }

  lemma ClearStep(s0: RunState, s: RunState, t: TaskId, k: set<TaskId>, x: set<TaskId>)
    requires Inv(s) && Progress(s0, s, k, {t}, x) && s0.Live(t) && s.IsDone(t)
    requires forall w :: w in s.tasks[t].waiters && s.Live(w.task) ==> s.tasks[w.task].blocker != OnTask(t, w.request)
    requires forall w :: w in s.tasks[t].waiters ==> w.request !in s.frames
    ensures var s' := ClearWaiters(s, t);
            && Inv(s') && Progress(s0, s', k, {t}, x) && s'.tasks.Keys == s.tasks.Keys
            && s'.tasks[t] == s.tasks[t].(waiters := []) && s'.resumed == s.resumed
  {
    hide Tree, Phases, Subtrees, Queue, Waits, Requests, Consumers, Failures, Settled, Answers, Askings, Gifts, Progress;
    ClearWaitersKeeps(s, t);
    ClearedProgress(s0, s, t, k, {t}, x);
  }

  /** The end of `t` has been announced; only an unobserved failure may still have to be reported. */
  ghost predicate Announced(s: RunState, t: TaskId, o: Outcome) {
    && EndsWith(s, t, o)
    && s.tasks[t].waiters == []
    && s.tasks[t].capability !in s.observers
    && (s.tasks[t].capability in s.completed ==> s.completed[s.tasks[t].capability] == o)
  }

  /** If `t` has an observer, its recorded outcome is the one with which it ended at first. */
  ghost predicate FreshEnd(s: RunState, t: TaskId) {
    && t in s.tasks && s.tasks[t].terminal.Some?
    && (s.tasks[t].capability in s.observers ==> t in s.firsts && s.firsts[t] == s.tasks[t].terminal.value.outcome)
  }

  lemma FreshlyEnded(s1: RunState, s: RunState, t: TaskId, o: Outcome)
    requires Inv(s1) && t in s1.tasks && LogsCascade(s1, s) && EndsWith(s, t, o) && s.tasks[t].capability == s1.tasks[t].capability
    requires s1.tasks[t].waiters == [] ==> s == MarkDone(s1, t, o)
    requires s1.IsDone(t) ==> Unheard(s1, t)
    ensures FreshEnd(s, t) && (s1.tasks[t].capability in s1.observers ==> s.tasks[t].capability in s.observers)
  {
    At(s1, t);
    assert FirstOk(s1, t);
  }

  /** The observer of `t` is given the outcome with which it ended. */
  lemma ObserverGets(s: RunState, t: TaskId)
    requires Inv(s) && s.IsDone(t) && FreshEnd(s, t) && s.tasks[t].capability in s.observers
    ensures MayDeliver(s, s.tasks[t].capability, s.tasks[t].terminal.value.outcome)
    ensures s.tasks[t].capability in s.watched && s.tasks[t].capability !in s.given
  {
    ObserverWatched(s, s.tasks[t].capability);
    ObserverHasToken(s, s.tasks[t].capability);
    At(s, t);
    assert FirstOk(s, t);
  }

  lemma DeliveredNotice(s: RunState, t: TaskId, o: Outcome)
    requires EndsWith(s, t, o)
    ensures Noticed(Deliver(s, s.tasks[t].capability, o), t)
  {
  }

  lemma StoredSame(s: RunState, t: TaskId)
    requires t in s.tasks && s.tasks[t].terminal.Some?
    ensures var s' := Store(s, t); s'.tasks == s.tasks && s'.observers == s.observers && s'.firsts == s.firsts && s'.given == s.given
  {
  }

  lemma NotifiedAfter(s: RunState, s': RunState, t: TaskId)
    requires Notified(s, s', t) && (s.tasks[t].capability in s.observers ==> s.tasks[t].capability !in s.given)
    ensures After(s, s', t)
  {
  }

  lemma AnnouncedNow(s: RunState, s': RunState, t: TaskId, o: Outcome)
    requires EndsWith(s, t, o) && s.tasks[t].waiters == [] && Notified(s, s', t)
    ensures OtherTokens(s, s', s.tasks[t].capability)
    ensures Announced(s', t, o) && s'.resumed == s.resumed && s'.frames == s.frames && s'.hooked == s.hooked && s'.nextTaskId == s.nextTaskId
    ensures s'.tasks.Keys == s.tasks.Keys && s'.tasks[t].owner == s.tasks[t].owner && s'.LiveSet() == s.LiveSet()
    ensures forall u :: u in s.tasks && u != t ==> s'.tasks[u] == s.tasks[u]
  {
  }

  lemma SweptNow(s: RunState, t: TaskId, o: Outcome)
    requires Announced(s, t, o)
    ensures !Unswept(ReportUnhandled(s, t), t)
    ensures !o.Failed? ==> !Unswept(s, t)
    ensures Announced(ReportUnhandled(s, t), t, o) && ReportUnhandled(s, t).tasks == s.tasks
    ensures ReportUnhandled(s, t) == s.(unhandled := ReportUnhandled(s, t).unhandled) && s.unhandled <= ReportUnhandled(s, t).unhandled
  {
    Reported(s, t);
    Swept(s, t, ReportUnhandled(s, t));
  }

  lemma AllServedLater(s: RunState, a: RunState, b: RunState, t: TaskId, o: Outcome)
    requires AllServed(s, a, t, o) && (Cascade(a, b) || After(a, b, t))
    ensures AllServed(s, b, t, o)
  {
    hide Served, After, Cascade;
    forall w | t in s.tasks && w in s.tasks[t].waiters ensures Served(s, b, t, w, o) { ServedLater(s, a, b, t, w, o); }
  }

  lemma ObservedLater(a: RunState, b: RunState, t: TaskId)
    requires a.IsDone(t) && HasEnded(a, t) && a.tasks[t].terminal.value.observed && (Cascade(a, b) || After(a, b, t))
    ensures b.IsDone(t) && HasEnded(b, t) && b.tasks[t].terminal.value.observed
  {
    if Cascade(a, b) {
      assert TaskCascade(a.tasks[t], b.tasks[t]);
      assert t in b.firsts;
    }
  }

  lemma GivenLater(a: RunState, b: RunState, t: TaskId, c: Token)
    requires c in a.given && (Cascade(a, b) || After(a, b, t))
    ensures c in b.given && b.given[c] == a.given[c]
  {
  }

  lemma ToldLater(s: RunState, a: RunState, b: RunState, t: TaskId, o: Outcome)
    requires Told(s, a, t, o) && (Cascade(a, b) || After(a, b, t))
    ensures Told(s, b, t, o)
  {
    hide AllServed, Cascade, After;
    AllServedLater(s, a, b, t, o);
    if t in s.tasks && s.tasks[t].capability in s.observers { GivenLater(a, b, t, s.tasks[t].capability); }
    if t in s.tasks && s.tasks[t].waiters != [] && !o.Cancelled? { ObservedLater(a, b, t); }
  }

  /** A list of one waiter has been served when its waiter has. */
  lemma ServedOne(s: RunState, a: RunState, t: TaskId, o: Outcome)
    requires t in s.tasks && |s.tasks[t].waiters| <= 1
    requires s.tasks[t].waiters != [] ==> Served(s, a, t, s.tasks[t].waiters[0], o)
    ensures AllServed(s, a, t, o)
    ensures forall w :: w in s.tasks[t].waiters && a.Live(w.task) ==> a.tasks[w.task].blocker != OnTask(t, w.request)
    ensures forall w :: w in s.tasks[t].waiters ==> w.request !in a.frames
  {
  }

  /** The observer of `t`, if it had one, has been given its outcome by now. */
  lemma ToldNow(s: RunState, a: RunState, b: RunState, t: TaskId, o: Outcome)
    requires AllServed(s, b, t, o) && Notified(a, b, t) && t in s.tasks && s.tasks[t].capability == a.tasks[t].capability && EndsWith(a, t, o) && t in b.firsts
    requires s.tasks[t].capability in s.observers ==> s.tasks[t].capability in a.observers
    requires s.tasks[t].waiters != [] && !o.Cancelled? ==> a.tasks[t].terminal.value.observed
    ensures Told(s, b, t, o)
  {
    hide AllServed;
  }

  lemma ClearedForm(s: RunState, t: TaskId)
    requires t in s.tasks
    ensures var s' := ClearWaiters(s, t);
            && s'.tasks.Keys == s.tasks.Keys && s'.tasks[t] == s.tasks[t].(waiters := []) && s'.LiveSet() == s.LiveSet()
            && s' == s.(tasks := s'.tasks)
            && (forall u :: u in s.tasks && u != t ==> s'.tasks[u] == s.tasks[u])
            && (s.IsDone(t) ==> After(s, s', t))
  {
  }

  lemma EndedNow(s: RunState, t: TaskId, o: Outcome)
    requires Announced(s, t, o)
    ensures EndsWith(s, t, o) && s.IsDone(t) && s.tasks[t].terminal.Some?
  {
  }

  lemma NotStuckLater(s: RunState, s': RunState, k: set<TaskId>)
    requires Progress(s, s', {}, {}, {})
    requires forall o :: o in k ==> !Stuck(s, o)
    ensures forall o :: o in k ==> !Stuck(s', o)
  {
  }

  lemma NotUnsettledUnhooked(s: RunState)
    requires Inv(s) && !s.hooked
    ensures !Unsettled(s)
  {
  }

  lemma EndedFailed(s: RunState, t: TaskId, o: Outcome)
    requires EndsWith(s, t, o) && o.Failed?
    ensures EndedWithoutValue(s, t)
  {
  }

  /** Dropping request frames does not change tasks, and takes nothing from those who wait for `t`. */
  lemma Unframed(s: RunState, t: TaskId)
    requires Waits(s) && t in s.tasks && (s.Live(t) ==> !s.tasks[t].blocker.OnTask?)
    ensures var s' := DropFrames(s, t);
            && s'.tasks == s.tasks && (NoLiveChild(s', t) <==> NoLiveChild(s, t))
            && (s.Live(t) ==> forall f, o :: Told(s', f, t, o) ==> Told(s, f, t, o))
  {
    hide BlockerOk;
    var s' := DropFrames(s, t);
    if s.Live(t) {
      forall f, o | Told(s', f, t, o) ensures AllServed(s, f, t, o) {
        forall w | w in s.tasks[t].waiters ensures Served(s, f, t, w, o) {
          assert Served(s', f, t, w, o);
          assert w.request in s.frames ==> w.task != t;
        }
      }
    }
  }

  /** Ending a live task leaves fewer live tasks. */
  lemma EndShrinks(s: RunState, t: TaskId, o: Outcome)
    requires t in s.tasks
    ensures var s' := MarkDone(s, t, o);
            s'.LiveSet() <= s.LiveSet() && (s.Live(t) ==> s'.LiveSet() < s.LiveSet())
  {
    if s.Live(t) { assert t in s.LiveSet() && t !in MarkDone(s, t, o).LiveSet(); }
  }

  lemma EndedLive(s0: RunState, s: RunState, t: TaskId, o: Outcome)
    requires s0.Live(t) && t in s.tasks && s.LiveSet() <= s0.LiveSet()
    ensures MarkDone(s, t, o).LiveSet() < s0.LiveSet()
  {
    EndShrinks(s, t, o);
    assert t in s0.LiveSet() && t !in MarkDone(s, t, o).LiveSet();
  }

  // ---------------------------------------------------------------- who is neither run nor going to be

  ghost predicate NoNewLost(s: RunState, s': RunState) {
    forall t {:trigger Lost(s', t)} :: Lost(s', t) ==> Lost(s, t)
  }

  lemma LastResumedAppend(log: seq<Resumption>, e: Resumption, t: TaskId)
    ensures LastResumed(log + [e], t) == if e.task == t then Some(e) else LastResumed(log, t)
  {
    assert (log + [e])[..|log|] == log;
  }

  lemma NotLostRefl(s: RunState)
    ensures NoNewLost(s, s)
  {
  }

  lemma NotLostTrans(a: RunState, b: RunState, c: RunState)
    requires NoNewLost(a, b) && NoNewLost(b, c)
    ensures NoNewLost(a, c)
  {
    hide Lost;
  }

  /** Steps that leave waiting and the log alone, apart from task `id`. */
  lemma LostFrame(s: RunState, s': RunState, id: TaskId)
    requires s'.traps == s.traps && s'.resumed == s.resumed && !Lost(s', id)
    requires forall t {:trigger s'.tasks[t]} :: t in s'.tasks && t != id ==>
               t in s.tasks && s'.tasks[t].blocker == s.tasks[t].blocker && (s.tasks[t].phase == Done ==> s'.tasks[t].phase == Done)
    requires s.running.Some? && s.running != Some(id) ==> s'.running == s.running
    ensures NoNewLost(s, s')
  {
  }

  /** Resuming task `w` concerns nobody else. */
  lemma SpendLost(s: RunState, w: TaskId, r: Request, p: Payload, t: TaskId)
    requires w in s.tasks && t != w && Lost(Spend(s, w, r, p), t)
    ensures Lost(s, t)
  {
    LastResumedAppend(s.resumed, Resumption(w, r, p, s.Live(w)), t);
  }

  lemma SpentLater(s: RunState, s': RunState, w: TaskId, r: Request, p: Payload)
    requires w in s.tasks && NoNewLost(Spend(s, w, r, p), s') && !Lost(s', w)
    ensures NoNewLost(s, s')
  {
    hide Lost;
    forall t | Lost(s', t) ensures Lost(s, t) { SpendLost(s, w, r, p, t); }
  }

  /** A resumed task that did not trap is not lost once it is queued. */
  lemma QueuedNotLost(s: RunState, w: TaskId, r: Request, p: Payload, work: Work)
    requires w in s.tasks && !s.traps(r)
    ensures !Lost(MakeReady(Spend(s, w, r, p), w, work), w)
  {
    LastResumedAppend(s.resumed, Resumption(w, r, p, s.Live(w)), w);
  }

  /** One that trapped on being told of a cancellation is accounted for. */
  lemma StrandedNotLost(s: RunState, w: TaskId, r: Request)
    requires w in s.tasks && s.traps(r)
    ensures !Lost(Strand(Spend(s, w, r, Status(CANCELLED_STATUS)), w, r), w)
  {
    LastResumedAppend(s.resumed, Resumption(w, r, Status(CANCELLED_STATUS), s.Live(w)), w);
  }

  lemma DoneNotLost(s: RunState, t: TaskId)
    requires !s.Live(t)
    ensures !Lost(s, t)
  {
  }

  // ---------------------------------------------------------------- how a wake-up turns out

  /** The waiter was resumed, did not trap, and is in the queue. */
  lemma WakeQueued(s0: RunState, s1: RunState, s: RunState, id: TaskId, w: Waiter, o: Outcome, k: set<TaskId>, x: set<TaskId>)
    requires AboutToWake(s0, s1, s, id, w, k, x) && s.Live(w.task) && !s.traps(w.request)
    ensures var s' := MakeReady(Spend(s, w.task, w.request, Status(WaitStatus(o))), w.task, RawOutcome);
            Served(s1, s', id, w, o) && NoNewLost(s, s') && Requeued(s', w)
  {
    hide Inv, Progress;
    var p := Status(WaitStatus(o));
    var a := Spend(s, w.task, w.request, p);
    var b := MakeReady(a, w.task, RawOutcome);
    assert b.resumed[|s.resumed|] == Resumption(w.task, w.request, p, s.Live(w.task));
    assert b.readyQueue[|s.readyQueue|] == w.task;
    QueuedNotLost(s, w.task, w.request, p, RawOutcome);
    LostFrame(a, b, w.task);
    SpentLater(s, b, w.task, w.request, p);
  }

  /** The waiter has ended by now; if it was live it trapped and failed. */
  lemma WakeEnded(s0: RunState, s1: RunState, s: RunState, a: RunState, b: RunState, id: TaskId, w: Waiter, o: Outcome, k: set<TaskId>, x: set<TaskId>)
    requires AboutToWake(s0, s1, s, id, w, k, x) && Cascade(a, b) && NoNewLost(a, b) && !b.Live(w.task)
    requires a == if w.request in s.frames then Spend(s, w.task, w.request, Status(WaitStatus(o))) else s
    requires s.Live(w.task) && s.traps(w.request) && !o.Cancelled? ==> EndsWith(b, w.task, Failed(Failure(Trapped, false)))
    ensures Served(s1, b, id, w, o) && NoNewLost(s, b)
  {
    hide Inv, Progress, EndsWith;
    var p := Status(WaitStatus(o));
    if w.request in s.frames {
      assert a.resumed[|s.resumed|] == Resumption(w.task, w.request, p, s.Live(w.task));
      StaysLogged(Resumption(w.task, w.request, p, s.Live(w.task)), a.resumed, b.resumed);
      SpentLater(s, b, w.task, w.request, p);
    }
  }

  /** The waiter of a cancelled task trapped and is left as it is. */
  lemma WakeStranded(s0: RunState, s1: RunState, s: RunState, id: TaskId, w: Waiter, k: set<TaskId>, x: set<TaskId>)
    requires AboutToWake(s0, s1, s, id, w, k, x) && s.Live(w.task) && s.traps(w.request)
    ensures var s' := Strand(Spend(s, w.task, w.request, Status(CANCELLED_STATUS)), w.task, w.request);
            Served(s1, s', id, w, Cancelled) && NoNewLost(s, s') && LeftStranded(s', w, Cancelled)
  {
    hide Inv, Progress;
    var p := Status(CANCELLED_STATUS);
    var a := Spend(s, w.task, w.request, p);
    var b := Strand(a, w.task, w.request);
    assert b.resumed[|s.resumed|] == Resumption(w.task, w.request, p, s.Live(w.task));
    StrandedNotLost(s, w.task, w.request);
    LostFrame(a, b, w.task);
    SpentLater(s, b, w.task, w.request, p);
  }

  lemma StrandWake(s0: RunState, s: RunState, w: TaskId, r: Request, k: set<TaskId>, u: set<TaskId>, x: set<TaskId>)
    requires Inv(s) && Progress(s0, s, k, u, x) && s.Live(w) && s.tasks[w].phase == Waiting && s.tasks[w].blocker == InHand
    ensures var s' := Strand(s, w, r); Inv(s') && Progress(s0, s', k, u, x) && Cascade(s, s') && s'.LiveSet() == s.LiveSet()
  {
    hide Tree, Phases, Subtrees, Queue, Waits, Requests, Consumers, Failures, Settled, Answers, Askings, Gifts, Progress;
    StrandKeeps(s, w, r);
    StrandProgress(s, w, r);
    ProgressThen(s0, s, Strand(s, w, r), k, u, x);
    ProgressCascade(s, Strand(s, w, r), {}, {}, {});
  }

  lemma EndedLost(s: RunState, t: TaskId, o: Outcome)
    requires t in s.tasks
    ensures NoNewLost(s, MarkDone(s, t, o))
  {
    LostFrame(s, MarkDone(s, t, o), t);
  }

  lemma ObservedLost(s: RunState, t: TaskId)
    requires s.IsDone(t) && s.tasks[t].terminal.Some?
    ensures NoNewLost(s, MarkObserved(s, t)) && LogsCascade(s, MarkObserved(s, t))
  {
    LostFrame(s, MarkObserved(s, t), t);
  }

  lemma ClearedLost(s: RunState, t: TaskId)
    requires s.IsDone(t)
    ensures NoNewLost(s, ClearWaiters(s, t))
  {
    LostFrame(s, ClearWaiters(s, t), t);
  }

  lemma NotifiedLost(s: RunState, s': RunState, t: TaskId)
    requires Notified(s, s', t)
    ensures NoNewLost(s, s')
  {
    LostFrame(s, s', t);
  }

  /** Whether a task is lost does not depend on anything but blockers, what is run and the log. */
  lemma SameLost(s: RunState, s': RunState)
    requires s'.traps == s.traps && s'.resumed == s.resumed && (s.running.Some? ==> s'.running == s.running)
    requires forall t {:trigger s'.tasks[t]} :: t in s'.tasks ==>
               t in s.tasks && s'.tasks[t].blocker == s.tasks[t].blocker && (s.tasks[t].phase == Done ==> s'.tasks[t].phase == Done)
    ensures NoNewLost(s, s')
  {
  }

  /** The end of `t` does not make its owner follow: it has none, or the owner is not completing. */
  ghost predicate Alone(s: RunState, t: TaskId) {
    && t in s.tasks
    && (s.tasks[t].owner.Some? ==> s.tasks[t].owner.value in s.tasks && s.tasks[s.tasks[t].owner.value].phase != Completing)
  }

  ghost predicate OtherTokens(s: RunState, s': RunState, cap: Token) {
    forall c {:trigger c in s'.tokens} :: c in s.tokens && c != cap ==> c in s'.tokens
  }

  /** Of the live tasks only `t` ends, and if nobody waited for it nobody is resumed. */
  ghost predicate EndsAlone(s: RunState, s': RunState, t: TaskId)
    requires t in s.tasks
  {
    && s'.LiveSet() == s.LiveSet() - {t}
    && (s.tasks[t].waiters == [] ==> s'.frames == s.frames && s'.resumed == s.resumed && OtherTokens(s, s', s.tasks[t].capability))
  }

  lemma LogsRefl(s: RunState)
    ensures LogsCascade(s, s)
  {
  }

  lemma AloneStays(s: RunState, s': RunState, t: TaskId)
    requires Inv(s) && s.IsDone(t) && Alone(s, t) && TasksCascade(s, s')
    ensures Alone(s', t)
  {
    assert TaskCascade(s.tasks[t], s'.tasks[t]);
    if s.tasks[t].owner.Some? { assert TaskCascade(s.tasks[s.tasks[t].owner.value], s'.tasks[s.tasks[t].owner.value]); }
  }

  lemma AloneNotStuck(s: RunState, t: TaskId)
    requires Alone(s, t) && s.tasks[t].owner.Some?
    ensures !Stuck(s, s.tasks[t].owner.value)
  {
  }

  lemma CascadeLogs(s: RunState, s': RunState)
    requires Cascade(s, s')
    ensures LogsCascade(s, s')
  {
  }

  lemma WaiterKnown(s: RunState, t: TaskId)
    requires t in s.tasks && (s.Live(t) ==> !AlreadyEnding(s, t)) && (!s.Live(t) ==> AlreadyEnding(s, t))
    ensures EndsNow(s, t, Failed(Failure(Trapped, false))) <==> s.Live(t)
    ensures !MustWait(s, t, Failed(Failure(Trapped, false)))
  {
  }

  lemma DroppedFrames(s: RunState, t: TaskId)
    ensures DropFrames(s, t).tasks == s.tasks
  {
  }

  lemma WakeStayedLive(s: RunState, a: RunState, b: RunState, t: TaskId)
    requires Cascade(s, a) && Cascade(a, b) && t in s.tasks
    ensures b.Live(t) ==> a.Live(t) && s.Live(t)
  {
    assert TaskCascade(s.tasks[t], a.tasks[t]) && TaskCascade(a.tasks[t], b.tasks[t]);
  }

  lemma SpendLive(s: RunState, w: TaskId, r: Request, p: Payload)
    requires w in s.tasks
    ensures Spend(s, w, r, p).LiveSet() == s.LiveSet() && (s.Live(w) <==> Spend(s, w, r, p).Live(w))
  {
  }

  lemma ReadyLive(s: RunState, w: TaskId, work: Work)
    requires s.Live(w)
    ensures MakeReady(s, w, work).LiveSet() == s.LiveSet() && MakeReady(s, w, work).Live(w)
  {
  }

  lemma AloneEnds(s: RunState, t: TaskId, o: Outcome)
    requires t in s.tasks
    ensures Alone(s, t) ==> Alone(MarkDone(s, t, o), t)
    ensures t in MarkDone(s, t, o).tasks && LogsCascade(s, MarkDone(s, t, o)) && MarkDone(s, t, o).tasks[t].capability == s.tasks[t].capability
  {
  }

  /** Whether the owner of `t` is completing does not change while the waiter of `t` is served and its end announced. */
  lemma StaysAlone(s1: RunState, s2: RunState, s3: RunState, s4: RunState, t: TaskId)
    requires t in s1.tasks && s2 == MarkDone(s1, t, Cancelled) && Inv(s2) && Cascade(s2, s3) && EndsWith(s4, t, Cancelled)
    requires s4.tasks.Keys == s3.tasks.Keys && t in s3.tasks && s4.tasks[t].owner == s3.tasks[t].owner
    requires forall u :: u in s3.tasks && u != t ==> s4.tasks[u] == s3.tasks[u]
    ensures Alone(s1, t) ==> Alone(s4, t)
  {
    AloneEnds(s1, t, Cancelled);
    hide Inv, TasksCascade, LogsCascade;
    if Alone(s1, t) {
      assert s2.IsDone(t);
      hide Alone, MarkDone;
      AloneStays(s2, s3, t);
      AloneSame(s3, s4, t);
    }
  }

  lemma AloneSame(s: RunState, s': RunState, t: TaskId)
    requires s'.tasks.Keys == s.tasks.Keys && t in s.tasks && s'.tasks[t].owner == s.tasks[t].owner
    requires (forall u :: u in s.tasks && u != t ==> s'.tasks[u] == s.tasks[u]) && s'.IsDone(t)
    ensures Alone(s, t) ==> Alone(s', t)
  {
  }
}
