/** What the invariants of a run mean for those who use it. Every state between two operations
    of a run is resting (`TaskRuntime.Play`), and later states evolve from earlier ones. */
module TaskTheorems {
  import opened Options
  import opened TaskModel
  import opened TaskHearing
  import opened TaskLemmas
  import opened TaskProgress
  import opened TaskRevision
  import opened TaskSteps
  import opened TaskRest
  import opened TaskLoop

  /** Structured concurrency: when a task has ended, so has everything attached below it. */
  lemma {:induction false} DescendantsEnd(s: RunState, d: TaskId, t: TaskId)
    requires Inv(s) && Below(s, d, t) && s.IsDone(t)
    ensures s.IsDone(d)
    decreases d
  {
    At(s, d);
    var o := s.tasks[d].owner.value;
    if o != t { DescendantsEnd(s, o, t); }
    assert d in s.tasks[o].children;
  }

  /** A completing task holds a value and waits for a live child of its own. */
  lemma CompletingHasLiveChild(s: RunState, t: TaskId) returns (c: TaskId)
    requires Resting(s) && t in s.tasks && s.tasks[t].phase == Completing
    ensures s.tasks[t].pendingCompletion.Some? && s.tasks[t].pendingCompletion.value.Value?
    ensures c in s.tasks[t].children && s.Live(c) && s.tasks[c].owner == Some(t)
  {
    At(s, t);
    assert !Stuck(s, t);
    c :| c in s.tasks[t].children && s.Live(c);
  }

  function Occurrences(q: seq<TaskId>, t: TaskId): nat {
    if q == [] then 0 else (if q[0] == t then 1 else 0) + Occurrences(q[1..], t)
  }

  lemma {:induction false} OccursOnce(q: seq<TaskId>, t: TaskId)
    requires NoDup(q)
    ensures Occurrences(q, t) == if t in q then 1 else 0
  {
    if q != [] {
      OccursOnce(q[1..], t);
      assert q == [q[0]] + q[1..];
    }
  }

  /** No lost and no doubled turn: a live task is in the queue exactly once if it is ready and
      not at all otherwise, and the loop does not sleep while a live task is queued. */
  lemma QueuedExactlyWhenReady(s: RunState, t: TaskId)
    requires Resting(s) && s.Live(t)
    ensures Occurrences(s.readyQueue, t) == if s.tasks[t].phase == Ready then 1 else 0
    ensures s.tasks[t].phase == Ready ==> !s.asleep && s.tasks[t].work != Idle
  {
    At(s, t);
    OccursOnce(s.readyQueue, t);
  }

  /** A task that waits for a task waits for a live one, as its only waiter; one that waits for a
      handler is known to the handler. What remains is a task that trapped when it was last
      resumed, which was to tell it that its target was cancelled. */
  lemma WaitsForTheLiving(s: RunState, t: TaskId)
    requires Resting(s) && t in s.tasks && s.tasks[t].phase == Waiting
    ensures match s.tasks[t].blocker
            case OnTask(u, r) => s.Live(u) && s.tasks[u].claimed && s.tasks[u].waiters == [Waiter(t, r)] && r in s.frames
            case OnHandler(r) => r in s.handlers && s.handlers[r] == t && r in s.frames
            case Stranded(r) => Explained(s, t, r)
            case InHand => false
            case Unblocked => false
  {
    At(s, t);
    assert !Lost(s, t);
    match s.tasks[t].blocker
    case OnTask(u, r) =>
      At(s, u);
      assert !Unswept(s, u);
      assert s.tasks[u].waiters == [s.tasks[u].waiters[0]];
    case _ =>
  }

  /** A live task waits for nothing if and only if it trapped when it was last resumed, and that
      was to tell it of a cancellation. Any other task that trapped has ended. */
  lemma StrandedIff(s: RunState, t: TaskId)
    requires Resting(s) && s.Live(t)
    ensures s.tasks[t].blocker.Stranded? <==>
              var last := LastResumed(s.resumed, t); last.Some? && last.value.payload == Status(CANCELLED_STATUS) && s.traps(last.value.request)
    ensures s.tasks[t].blocker.Stranded? <==> TrappedLast(s, t)
  {
    At(s, t);
    assert !Lost(s, t);
  }

  // ---------------------------------------------------------------- who is told what

  /** Unless a task traps on being told of an end, the tasks that ended twice with different
      outcomes are those that were cancelled while they were completing. */
  lemma EndedTwiceIff(s: RunState, t: TaskId)
    requires Resting(s) && CarriesOn(s)
    ensures Revised(s, t) <==> t in s.cut
  {
  }

  /** What a task was told about the end of another is what is recorded for that one if and only if
      it asked afterwards, or the other did not end twice. */
  lemma ToldIff(s: RunState, e: Resumption)
    requires Resting(s) && e in s.resumed && e.payload.Status?
    ensures e.request in s.asked && s.asked[e.request].asker == e.task && HasEnded(s, s.asked[e.request].target)
    ensures var a := s.asked[e.request];
            && (e.payload.code == WaitStatus(Recorded(s, a.target)) <==> !(a.early && Revised(s, a.target)))
            && (CarriesOn(s) ==> (e.payload.code == WaitStatus(Recorded(s, a.target)) <==> !(a.early && a.target in s.cut)))
  {
    assert AnswerOk(s, e);
    var t := s.asked[e.request].target;
    assert FirstOk(s, t);
    if CarriesOn(s) { EndedTwiceIff(s, t); }
  }

  /** A wait is answered with 0 for a value, 1 for a failure and 2 for a cancellation: of the end that
      came first if it was asked for before that, and of the recorded one if it was asked for afterwards. */
  lemma StatusMeaning(s: RunState, e: Resumption)
    requires Resting(s) && e in s.resumed && e.payload.Status?
    ensures e.request in s.asked
    ensures var a := s.asked[e.request];
            && a.target in s.firsts && a.target in s.tasks && s.tasks[a.target].terminal.Some?
            && var told := if a.early then s.firsts[a.target] else s.tasks[a.target].terminal.value.outcome;
               && (e.payload.code == 0 <==> told.Value?)
               && (e.payload.code == 1 <==> told.Failed?)
               && (e.payload.code == 2 <==> told.Cancelled?)
  {
    assert AnswerOk(s, e);
  }

  /** What a token has given is what is recorded for its task if and only if it was not observed
      before the task ended, or the task did not end twice. */
  lemma GivenIff(s: RunState, c: Token)
    requires Resting(s) && c in s.given
    ensures c in s.minted && HasEnded(s, s.minted[c])
    ensures var t := s.minted[c];
            && (s.given[c] == Recorded(s, t) <==> !(c in s.watched && Revised(s, t)))
            && (CarriesOn(s) ==> (s.given[c] == Recorded(s, t) <==> !(c in s.watched && t in s.cut)))
  {
    assert GivenOk(s, c);
    if CarriesOn(s) { EndedTwiceIff(s, s.minted[c]); }
  }

  /** An observer is served: once the task has ended, it has been given the outcome with which the
      task ended at first. */
  lemma ObserverServed(s: RunState, s': RunState, t: TaskId)
    requires Resting(s) && Resting(s') && Evolves(s, s') && t in s.tasks && s.tasks[t].capability in s.observers && s'.IsDone(t)
    ensures s.tasks[t].capability in s'.given && HasEnded(s', t) && s'.given[s.tasks[t].capability] == s'.firsts[t]
  {
    var cap := s.tasks[t].capability;
    ObserverWatched(s, cap);
    OwnToken(s, t);
    NoObserver(s', t);
    hide Inv, Tidy, NoneLost, Drowsy, Resting;
    TokenKept(s, s', t, cap);
    hide Evolves;
    GivenFirst(s', t, cap);
  }

  lemma TokenKept(s: RunState, s': RunState, t: TaskId, cap: Token)
    requires Evolves(s, s') && t in s.tasks && cap in s.watched && cap in s.minted
    ensures t in s'.tasks && s'.tasks[t].capability == s.tasks[t].capability && cap in s'.watched && cap in s'.minted && s'.minted[cap] == s.minted[cap]
  {
    assert TaskEvolves(s.tasks[t], s'.tasks[t]);
    hide TaskEvolves, KeptAsked;
  }

  lemma GivenFirst(s: RunState, t: TaskId, cap: Token)
    requires Inv(s) && cap in s.watched && cap !in s.observers && cap in s.minted && s.minted[cap] == t
    ensures cap in s.given && HasEnded(s, t) && s.given[cap] == s.firsts[t]
  {
    assert cap in s.given && GivenOk(s, cap);
  }

  lemma OwnToken(s: RunState, t: TaskId)
    requires Inv(s) && t in s.tasks && s.tasks[t].capability in s.minted
    ensures s.minted[s.tasks[t].capability] == t
  {
    At(s, t);
  }

  /** Unless a task traps on being told of an end: cancelling `id` leaves it and every live task
      below it cancelled, those that were completing having completed before. Nothing else ends but
      owners above `id` that were completing, and they end once. */
  lemma CancellingEndsTheTree(s: RunState, s': RunState, id: TaskId, t: TaskId)
    requires Resting(s) && Inv(s') && CarriesOn(s) && CutFrom(s, s', id) && EndsWith(s', id, Cancelled) && Cascade(s, s') && s.Live(t)
    ensures t == id || Below(s, t, id) ==> EndsWith(s', t, Cancelled) && (CancelledFirst(s', t) <==> s.tasks[t].phase != Completing)
    ensures t != id && !Below(s, t, id) && s'.IsDone(t) ==>
              Below(s, id, t) && s.tasks[t].phase == Completing && !CancelledFirst(s', t) && !Revised(s', t)
  {
    CascadeOnward(s, s');
    OnwardOwners(s, s');
    CutFromLine(s, s', id);
    hide Resting, CutFrom, CarriesOn, Cascade, Onward, Line, SameOwners, Below, Inv;
    EndsWithDone(s', id, Cancelled);
    if t == id {
      if Below(s, id, t) { BelowIsLater(s, id, t); }
    } else if Below(s, t, id) {
      BelowEnds(s, s', id, t);
    }
    if s'.IsDone(t) { FateInTree(s, s', id, t); }
  }

  lemma BelowEnds(s: RunState, s': RunState, id: TaskId, t: TaskId)
    requires Inv(s') && SameOwners(s, s') && s'.IsDone(id) && Below(s, t, id)
    ensures s'.IsDone(t) && !Below(s, id, t)
  {
    hide Inv, SameOwners, Below;
    BelowSame(s, s', t, id);
    DescendantsEnd(s', t, id);
    BelowIsLater(s, t, id);
    if Below(s, id, t) { BelowIsLater(s, id, t); }
  }

  lemma FateInTree(s: RunState, s': RunState, id: TaskId, t: TaskId)
    requires Line(s, s', {id} + Under(s, id), Over(s, id)) && s.Live(t) && s'.IsDone(t)
    requires t == id || Below(s, t, id) ==> !Below(s, id, t)
    ensures t == id || Below(s, t, id) ==> EndsWith(s', t, Cancelled) && (CancelledFirst(s', t) <==> s.tasks[t].phase != Completing)
    ensures t != id && !Below(s, t, id) ==> Below(s, id, t) && s.tasks[t].phase == Completing && !CancelledFirst(s', t) && !Revised(s', t)
  {
    hide Below;
  }

  lemma CutFromLine(s: RunState, s': RunState, id: TaskId)
    requires CarriesOn(s) && CutFrom(s, s', id)
    ensures Line(s, s', {id} + Under(s, id), Over(s, id))
  {
    hide CarriesOn, Line;
  }

  /** A waiter that has ended is resumed all the same if and only if its request still has a frame.
      Such a waiter was cancelled. */
  lemma EndedWaiterResumedIff(s: RunState, s': RunState, t: TaskId, w: Waiter, o: Outcome)
    requires Inv(s) && Cascade(s, s') && Told(s, s', t, o) && t in s.tasks && w in s.tasks[t].waiters && s.IsDone(w.task)
    ensures WasResumed(s', w.request) && !WasResumed(s, w.request) <==> w.request in s.frames
    ensures w.request in s.frames ==> CancelledFirst(s, w.task)
  {
    assert Served(s, s', t, w, o) && WaiterOk(s, t, w) && AskedOk(s, w.request);
    hide Inv, AllServed, TasksCascade;
    if w.request in s.frames {
      var i :| 0 <= i < |s'.resumed| && s'.resumed[i] == TaskProgress.Answer(s, t, w, o);
      assert s'.resumed[i].request == w.request;
    }
    if WasResumed(s', w.request) { LaterResumed(s, s', w.request); }
  }

  lemma LaterResumed(s: RunState, s': RunState, r: Request)
    requires LogsCascade(s, s') && WasResumed(s', r)
    ensures WasResumed(s, r) || r in s.frames
  {
    var i :| 0 <= i < |s'.resumed| && s'.resumed[i].request == r;
    if i < |s.resumed| { assert s.resumed[i].request == r; }
  }

  /** A capability has at most one consumer: the task that waits for it or the host that observes it. */
  lemma OneConsumer(s: RunState, t: TaskId)
    requires Inv(s) && t in s.tasks
    ensures |s.tasks[t].waiters| + (if s.tasks[t].capability in s.observers then 1 else 0) <= 1
    ensures |s.tasks[t].waiters| + (if s.tasks[t].capability in s.observers then 1 else 0) == 1 ==> s.tasks[t].claimed
  {
    At(s, t);
  }

  /** What a token stands for is delivered at most once, and then the token is dead for good. */
  lemma DeliveredOnce(s: RunState, s': RunState, cap: Token)
    requires Resting(s) && Resting(s') && Evolves(s, s') && cap in s.deliveries
    ensures cap !in s'.tokens && multiset(s'.deliveries)[cap] == 1
  {
    StaysLogged(cap, s.deliveries, s'.deliveries);
    CountedOnce(s'.deliveries, cap);
  }

  lemma {:induction false} CountedOnce(q: seq<Token>, c: Token)
    requires NoDup(q)
    ensures multiset(q)[c] == if c in q then 1 else 0
  {
    if q != [] {
      CountedOnce(q[1..], c);
      assert q == [q[0]] + q[1..];
    }
  }

  /** Two tasks never share a token, and a token means the same task throughout a run. */
  lemma TokensAreDistinct(s: RunState, s': RunState, t: TaskId, u: TaskId)
    requires Resting(s) && Resting(s') && Evolves(s, s') && t in s.tasks && u in s'.tasks && t != u
    ensures s.tasks[t].capability != s'.tasks[u].capability
  {
    At(s, t);
    At(s', u);
    At(s', t);
    assert TaskEvolves(s.tasks[t], s'.tasks[t]);
  }

  /** A request is resumed at most once, and a resumed request is never open again. */
  lemma ResumedOnce(s: RunState, s': RunState, i: nat, j: nat)
    requires Resting(s) && Resting(s') && Evolves(s, s') && i < |s.resumed| && j < |s'.resumed|
    ensures s.resumed[i].request !in s'.frames
    ensures s'.resumed[j].request == s.resumed[i].request ==> j == i
  {
    assert s'.resumed[i] == s.resumed[i];
  }

  /** Unless the host imposed it, the public outcome is the root's, and from then on no live task
      blocks, whatever is spawned later. */
  lemma PublicOutcomeIsTheRoots(s: RunState, s': RunState, t: TaskId)
    requires Resting(s) && Resting(s') && Evolves(s, s') && s.publicOutcome.Some? && !s.hostSettled && t in s'.tasks
    ensures s'.publicOutcome == s.publicOutcome && EndsWith(s', ROOT, s.publicOutcome.value)
    ensures s'.tasks[t].phase != Done ==> s'.tasks[t].detached || UnderDetached(s', t)
  {
    assert !s'.Blocking(t);
    ShelteredIff(s', t);
  }

  /** The run reports its outcome as soon as the root has ended and nothing blocks. */
  lemma ReportsPromptly(s: RunState)
    requires Resting(s) && s.hooked && s.IsDone(ROOT) && forall t :: t in s.tasks && s.tasks[t].phase != Done ==> s.tasks[t].detached || UnderDetached(s, t)
    ensures s.publicOutcome.Some?
    ensures (forall t :: t in s.tasks ==> s.tasks[t].phase == Done) <==> s.finalOutcome.Some?
    ensures s.finalOutcome.Some? ==> s.finalOutcome == s.publicOutcome
  {
    forall t | t in s.tasks ensures !s.Blocking(t) { ShelteredIff(s, t); }
    hide UnderDetached;
    assert NothingBlocking(s);
    assert AllDone(s) <==> forall t :: t in s.tasks ==> s.IsDone(t);
    assert forall t :: t in s.tasks ==> (s.IsDone(t) <==> s.tasks[t].phase == Done);
  }

  /** A final outcome means that every task has ended, and it is the public one. */
  lemma FinalOutcomeIsPublic(s: RunState, s': RunState)
    requires Resting(s) && Resting(s') && Evolves(s, s') && s.finalOutcome.Some?
    ensures s'.finalOutcome == s.finalOutcome == s.publicOutcome == s'.publicOutcome
    ensures forall t :: t in s'.tasks ==> s'.IsDone(t)
  {
  }

  /** Outcomes, tasks and claims are never taken back. */
  lemma EndedForGood(s: RunState, s': RunState, t: TaskId, o: Outcome)
    requires Evolves(s, s') && EndsWith(s, t, o)
    ensures EndsWith(s', t, o)
  {
    assert TaskEvolves(s.tasks[t], s'.tasks[t]);
  }

  // ---------------------------------------------------------------- what becomes of failures

  /** Somebody asked for the end of `t` after it. */
  ghost predicate AskedLate(s: RunState, t: TaskId) {
    exists r {:trigger s.asked[r]} :: r in s.asked && s.asked[r].target == t && !s.asked[r].early
  }

  /** A task that was live then was told, for a request of its own, that `t` had failed. */
  ghost predicate ToldOfFailure(s: RunState, t: TaskId) {
    exists i {:trigger s.resumed[i]} :: 0 <= i < |s.resumed| && s.resumed[i].live && s.resumed[i].payload == Status(1)
                                        && s.resumed[i].request in s.asked && s.asked[s.resumed[i].request] == Asking(s.resumed[i].task, t, true)
  }

  /** Somebody has learnt that `t` failed: the holder of its token, or a task that asked. */
  ghost predicate Heard(s: RunState, t: TaskId)
    requires t in s.tasks
  {
    GivenOut(s, t) || AskedLate(s, t) || ToldOfFailure(s, t)
  }

  /** Only one task waited for `t`, and it was cancelled before it was told. */
  ghost predicate Missed(s: RunState, t: TaskId) {
    exists r {:trigger s.asked[r]} :: r in s.asked && s.asked[r].target == t && s.asked[r].early && CancelledFirst(s, s.asked[r].asker)
                                      && forall i {:trigger s.resumed[i]} :: 0 <= i < |s.resumed| && s.resumed[i].request == r ==> !s.resumed[i].live
  }

  /** A failure that counts as observed has been heard of, or the waiter was cancelled before it was told. */
  lemma ObservedMeansHeard(s: RunState, t: TaskId, f: Failure)
    requires Resting(s) && EndsWith(s, t, Failed(f)) && s.tasks[t].terminal.value.observed
    ensures Heard(s, t) || Missed(s, t)
  {
    assert ObservedOk(s, t) && FirstOk(s, t) && !Unswept(s, t);
    if !GivenOut(s, t) && !AskedLate(s, t) {
      var r :| r in s.asked && s.asked[r].target == t && (s.asked[r].early ==> !Revised(s, t));
      hide Tidy, NoneLost, Tree, Phases, Subtrees, Queue, Waits, Consumers, Failures, Settled, Gifts;
      assert s.asked[r].early && AskedOk(s, r);
      if i :| 0 <= i < |s.resumed| && s.resumed[i].request == r && s.resumed[i].live {
        assert AnswerOk(s, s.resumed[i]);
      } else if i :| 0 <= i < |s.resumed| && s.resumed[i].request == r {
        assert AnswerOk(s, s.resumed[i]);
      }
    }
  }

  /** A waiter that was cancelled before it was told leaves nobody who has heard, unless the token has
      told of the failure since. */
  lemma MissedIsUnheard(s: RunState, t: TaskId)
    requires Inv(s) && t in s.tasks && Missed(s, t) && !GivenOut(s, t)
    ensures !Heard(s, t)
  {
    hide Tree, Phases, Subtrees, Queue, Waits, Requests, Consumers, Failures, Settled, Answers, Gifts;
  }

  /** What becomes of a failure: one that counts as observed was heard of unless its only waiter was
      cancelled before it was told and its token has not told of it; one that does not was reported
      to the host, or is the run's own, or its owner has not ended with a value. */
  lemma FailureIsAccountedFor(s: RunState, t: TaskId, f: Failure)
    requires Resting(s) && EndsWith(s, t, Failed(f))
    ensures s.tasks[t].terminal.value.observed ==> (Heard(s, t) <==> !(Missed(s, t) && !GivenOut(s, t)))
    ensures !s.tasks[t].terminal.value.observed ==>
              t == ROOT || (s.tasks[t].detached && t in s.unhandled)
              || (s.tasks[t].owner.Some? && s.tasks[t].owner.value in s.tasks && !EndedWithValue(s, s.tasks[t].owner.value))
  {
    if s.tasks[t].terminal.value.observed {
      ObservedMeansHeard(s, t, f);
      if Missed(s, t) && !GivenOut(s, t) { MissedIsUnheard(s, t); }
    } else {
      UnobservedIsKept(s, t);
    }
  }

  lemma UnobservedIsKept(s: RunState, t: TaskId)
    requires Resting(s) && FailedUnobserved(s, t)
    ensures t == ROOT || (s.tasks[t].detached && t in s.unhandled)
            || (s.tasks[t].owner.Some? && s.tasks[t].owner.value in s.tasks && !EndedWithValue(s, s.tasks[t].owner.value))
  {
    At(s, t);
    assert !Unswept(s, t);
    if s.tasks[t].owner.Some? { assert t in s.tasks[s.tasks[t].owner.value].children; }
  }

  /** The nearest owner of `t` that is `a` or ended without a value. */
  ghost predicate Absorbed(s: RunState, t: TaskId, a: TaskId)
    requires Tree(s) && t in s.tasks
    decreases t
  {
    assert OwnerOk(s, t);
    && s.tasks[t].owner.Some?
    && (EndedWithoutValue(s, s.tasks[t].owner.value)
        || (s.tasks[t].owner.value != a && Absorbed(s, s.tasks[t].owner.value, a)))
  }

  /** When a run reports a value, a failure below the root that no owner absorbed by failing or being
      cancelled itself goes unheard if and only if its only waiter was cancelled before it was told
      and its token has not told of it. */
  lemma ValueHidesFailureIff(s: RunState, t: TaskId, f: Failure)
    requires Resting(s) && s.publicOutcome.Some? && s.publicOutcome.value.Value?
    requires EndsWith(s, t, Failed(f)) && Below(s, t, ROOT) && !Absorbed(s, t, ROOT)
    ensures !Heard(s, t) <==> Missed(s, t) && !GivenOut(s, t)
  {
    if s.tasks[t].terminal.value.observed {
      FailureIsAccountedFor(s, t, f);
    } else {
      UnobservedIsAbsorbed(s, t);
    }
  }

  lemma UnobservedIsAbsorbed(s: RunState, t: TaskId)
    requires Resting(s) && s.publicOutcome.Some? && s.publicOutcome.value.Value? && FailedUnobserved(s, t) && Below(s, t, ROOT)
    ensures Absorbed(s, t, ROOT)
  {
    UnobservedIsKept(s, t);
    At(s, t);
    At(s, ROOT);
    var o := s.tasks[t].owner.value;
    if o != ROOT {
      assert Below(s, o, ROOT);
      DescendantsEnd(s, o, ROOT);
    }
  }

  /** A task that has ended must not create attached tasks. */
  lemma DeadSpawn(s: RunState, caller: TaskId, cap: Token)
    requires Inv(s) && s.IsDone(caller)
    ensures !Inv(SpawnTask(s, caller, false, cap))
  {
    At(s, caller);
    var s' := SpawnTask(s, caller, false, cap);
    assert s.nextTaskId in s'.tasks[caller].children && s'.IsDone(caller) && !s'.IsDone(s.nextTaskId);
    assert !Subtrees(s');
  }

  /** Creating an attached task keeps the invariants exactly when its owner is live. The runtime
      does not check this: a cancelled waiter that is resumed may still create tasks. */
  lemma SpawnNeedsLiveOwner(s: RunState, caller: TaskId, cap: Token)
    requires Inv(s) && caller in s.tasks && cap != 0 && cap !in s.minted
    ensures Inv(SpawnTask(s, caller, false, cap)) <==> s.Live(caller)
  {
    if s.Live(caller) {
      SpawnKeeps(s, caller, false, cap);
    } else {
      DeadSpawn(s, caller, cap);
    }
  }
}
