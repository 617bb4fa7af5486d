/** The indivisible updates of `TaskModel` keep the invariants, and what a cascade of
    completions and cancellations may change. */
module TaskLemmas {
  import opened Options
  import opened TaskModel
  import opened TaskHearing

  // ---------------------------------------------------------------- what a cascade may change

  ghost predicate TaskCascade(a: Task, b: Task) {
    && a.capability == b.capability && a.claimed == b.claimed && a.owner == b.owner
    && a.detached == b.detached && a.children == b.children
    && (a.phase == Done ==> b == a)
    && (a.phase == Completing ==>
          b.phase == Done || (b.phase == Completing && b.pendingCompletion == a.pendingCompletion))
    && (a.phase == Ready ==> b.phase == Done || (b.phase == Ready && b.work == a.work))
    && (a.phase == Waiting ==> b.phase != Completing)
    && (b.phase != Done ==>
          && b.waiters == a.waiters
          && (b.blocker == a.blocker || ((a.blocker.OnTask? || a.blocker.InHand?) && (b.blocker.Unblocked? || b.blocker.InHand? || b.blocker.Stranded?))))
  }

  /** Queues, logs and announcements only move forward. */
  ghost predicate LogsCascade(s: RunState, s': RunState) {
    && s'.nextTaskId == s.nextTaskId
    && s.readyQueue <= s'.readyQueue
    && (forall r {:trigger r in s'.frames} :: r in s'.frames ==> r in s.frames && s'.frames[r] == s.frames[r])
    && s'.issued == s.issued && s'.minted == s.minted && s'.handlers == s.handlers
    && s'.hooked == s.hooked && s'.closed == s.closed && s'.hostSettled == s.hostSettled
    && s.resumed <= s'.resumed && s.deliveries <= s'.deliveries && s.unhandled <= s'.unhandled
    && s'.observers <= s.observers && s'.traps == s.traps
    && (forall c {:trigger c in s'.observers} :: c in s.observers ==> c in s'.observers || c in s'.deliveries)
    && (forall i {:trigger s'.resumed[i]} :: |s.resumed| <= i < |s'.resumed| ==> s'.resumed[i].request in s.frames)
    && s'.asked == s.asked && s'.watched == s.watched && s.cut <= s'.cut
    && (forall t {:trigger s'.firsts[t]} {:trigger t in s'.firsts} :: t in s.firsts ==> t in s'.firsts && s'.firsts[t] == s.firsts[t])
    && (forall c {:trigger s'.given[c]} {:trigger c in s'.given} :: c in s.given ==> c in s'.given && s'.given[c] == s.given[c])
    && (forall c {:trigger c in s'.given} :: c in s'.given ==> c in s.given || c in s.watched)
    && (forall c {:trigger c in s'.tokens} :: c in s'.tokens ==> c in s.tokens && s'.tokens[c] == s.tokens[c])
    && (s.publicOutcome.Some? ==> s'.publicOutcome == s.publicOutcome)
    && (s.finalOutcome.Some? ==> s'.finalOutcome == s.finalOutcome)
    && (s'.asleep ==> s.asleep)
  }

  ghost predicate TasksCascade(s: RunState, s': RunState) {
    && s'.tasks.Keys == s.tasks.Keys
    && (forall t {:trigger s'.tasks[t]} :: t in s.tasks ==> TaskCascade(s.tasks[t], s'.tasks[t]))
    && (s'.running == s.running || (s'.running.None? && s.running.Some? && s'.IsDone(s.running.value)))
  }

  /** Completing and cancelling tasks never revives a task, never touches a task that was
      already terminal, and never takes back an outcome, a resumption or a delivery. */
  ghost predicate Cascade(s: RunState, s': RunState) {
    TasksCascade(s, s') && LogsCascade(s, s')
  }

  lemma LogsTrans(a: RunState, b: RunState, c: RunState)
    requires LogsCascade(a, b) && LogsCascade(b, c)
    ensures LogsCascade(a, c)
  {
    forall i | |a.resumed| <= i < |c.resumed| ensures c.resumed[i].request in a.frames {
      if i < |b.resumed| { assert c.resumed[i] == b.resumed[i]; }
    }
    forall k | k in a.observers ensures k in c.observers || k in c.deliveries {
      assert k in b.observers || k in b.deliveries;
      if k in b.deliveries { StaysLogged(k, b.deliveries, c.deliveries); }
    }
  }

  /** What was logged stays logged. */
  lemma StaysLogged<T>(x: T, a: seq<T>, b: seq<T>)
    requires x in a && a <= b
    ensures x in b
  {
    var i :| 0 <= i < |a| && a[i] == x;
    assert b[i] == x;
  }

  lemma TasksTrans(a: RunState, b: RunState, c: RunState)
    requires TasksCascade(a, b) && TasksCascade(b, c)
    ensures TasksCascade(a, c)
  {
    forall t | t in a.tasks ensures TaskCascade(a.tasks[t], c.tasks[t]) {
      assert TaskCascade(a.tasks[t], b.tasks[t]);
      assert TaskCascade(b.tasks[t], c.tasks[t]);
    }
    if a.running.Some? && b.running.None? {
      assert TaskCascade(b.tasks[a.running.value], c.tasks[a.running.value]);
    }
  }

  lemma CascadeTrans(a: RunState, b: RunState, c: RunState)
    requires Cascade(a, b) && Cascade(b, c)
    ensures Cascade(a, c)
  {
    LogsTrans(a, b, c);
    TasksTrans(a, b, c);
  }

  // ---------------------------------------------------------------- what each group depends on

  ghost predicate SameShape(s: RunState, s': RunState) {
    && s'.nextTaskId == s.nextTaskId
    && s'.tasks.Keys == s.tasks.Keys
    && (forall t {:trigger s'.tasks[t]} :: t in s.tasks ==>
          && s'.tasks[t].owner == s.tasks[t].owner && s'.tasks[t].detached == s.tasks[t].detached
          && s'.tasks[t].children == s.tasks[t].children && s'.tasks[t].capability == s.tasks[t].capability)
  }

  lemma TreeFrame(s: RunState, s': RunState)
    requires Tree(s) && SameShape(s, s')
    ensures Tree(s')
  {
    forall t | t in s'.tasks ensures OwnerOk(s', t) { assert OwnerOk(s, t); }
  }

  /** No task ends, no outcome is replaced, and what was observed stays observed. */
  ghost predicate SameTerminals(s: RunState, s': RunState) {
    && SameShape(s, s')
    && (forall t {:trigger s'.tasks[t]} :: t in s.tasks ==>
          && (s'.tasks[t].phase == Done <==> s.tasks[t].phase == Done)
          && (s'.tasks[t].terminal.Some? <==> s.tasks[t].terminal.Some?)
          && (s.tasks[t].terminal.Some? ==>
                && s'.tasks[t].terminal.value.outcome == s.tasks[t].terminal.value.outcome
                && (s.tasks[t].terminal.value.observed ==> s'.tasks[t].terminal.value.observed)))
  }

  ghost predicate SameOutcomes(s: RunState, s': RunState) {
    s'.publicOutcome == s.publicOutcome && s'.finalOutcome == s.finalOutcome && s'.hostSettled == s.hostSettled
  }

  /** Whether a task is sheltered depends on owners and detachment only. */
  /** Every task of `p` but the first owns the one before it. */
  ghost predicate OwnerPath(s: RunState, p: seq<TaskId>) {
    p != [] && forall i :: 0 <= i < |p| ==> p[i] in s.tasks && (i + 1 < |p| ==> s.tasks[p[i]].owner == Some(p[i + 1]))
  }

  /** The owners of `t`, one after another, lead to a detached task. */
  ghost predicate UnderDetached(s: RunState, t: TaskId) {
    exists p :: OwnerPath(s, p) && |p| > 1 && p[0] == t && s.tasks[p[|p| - 1]].detached
  }

  lemma {:induction false} ShelteredIff(s: RunState, t: TaskId)
    requires Tree(s) && t in s.tasks
    ensures s.Sheltered(t) <==> UnderDetached(s, t)
    decreases t
  {
    assert OwnerOk(s, t);
    if s.tasks[t].owner.Some? {
      var o := s.tasks[t].owner.value;
      ShelteredIff(s, o);
      if s.tasks[o].detached { assert OwnerPath(s, [t, o]); }
      if q :| OwnerPath(s, q) && |q| > 1 && q[0] == o && s.tasks[q[|q| - 1]].detached { assert OwnerPath(s, [t] + q); }
      if p :| OwnerPath(s, p) && |p| > 1 && p[0] == t && s.tasks[p[|p| - 1]].detached {
        if |p| > 2 { assert OwnerPath(s, p[1..]) && p[1..][|p| - 2] == p[|p| - 1]; }
      }
    } else {
      forall p | OwnerPath(s, p) && |p| > 1 ensures p[0] != t { assert s.tasks[p[0]].owner == Some(p[1]); }
    }
  }

  lemma ShelteredSame(s: RunState, s': RunState, t: TaskId)
    requires Tree(s) && Tree(s') && SameShape(s, s') && t in s.tasks
    ensures s.Sheltered(t) == s'.Sheltered(t)
    decreases t
  {
    assert OwnerOk(s, t);
    if s.tasks[t].owner.Some? {
      ShelteredSame(s, s', s.tasks[t].owner.value);
    }
  }

  /** Nothing starts to block when no task is revived. */
  lemma StillNothingBlocking(s: RunState, s': RunState)
    requires Tree(s) && Tree(s') && SameShape(s, s') && NothingBlocking(s)
    requires forall t {:trigger s'.tasks[t]} :: t in s.tasks && s'.Live(t) ==> s.Live(t)
    ensures NothingBlocking(s')
  {
    forall t | t in s'.tasks ensures !s'.Blocking(t) {
      ShelteredSame(s, s', t);
      assert !s.Blocking(t);
    }
  }

  lemma EndsFrame(s: RunState, s': RunState)
    requires Tree(s) && Subtrees(s) && Failures(s) && Settled(s) && SameTerminals(s, s') && SameOutcomes(s, s')
    ensures Tree(s') && Subtrees(s') && Failures(s') && Settled(s')
  {
    TreeFrame(s, s');
    SettledFrame(s, s');
  }

  lemma SettledFrame(s: RunState, s': RunState)
    requires Tree(s) && Settled(s) && SameTerminals(s, s') && SameOutcomes(s, s') && Tree(s')
    ensures Settled(s')
  {
    if s.publicOutcome.Some? && !s.hostSettled { StillNothingBlocking(s, s'); }
    if s.finalOutcome.Some? {
      forall t | t in s'.tasks ensures s'.IsDone(t) { assert s.IsDone(t); }
    }
  }

  /** Claims, observers, tokens and deliveries are as before; waiter lists may have been emptied. */
  ghost predicate SameClaims(s: RunState, s': RunState) {
    && SameShape(s, s')
    && (forall t {:trigger s'.tasks[t]} :: t in s.tasks ==>
          && s'.tasks[t].claimed == s.tasks[t].claimed
          && (s.tasks[t].phase == Done ==> s'.tasks[t].phase == Done)
          && (s'.tasks[t].waiters == s.tasks[t].waiters || s'.tasks[t].waiters == []))
    && s'.minted == s.minted && s'.observers == s.observers && s'.tokens == s.tokens
    && s'.completed == s.completed && s'.deliveries == s.deliveries
  }

  lemma ConsumersFrame(s: RunState, s': RunState)
    requires Consumers(s) && SameClaims(s, s')
    ensures Consumers(s')
  {
    forall t | t in s'.tasks ensures ConsumerOk(s', t) { assert ConsumerOk(s, t); }
  }

  // ---------------------------------------------------------------- MarkDone

  ghost predicate MayEnd(s: RunState, t: TaskId, o: Outcome) {
    && t in s.tasks
    && (forall c :: c in s.tasks[t].children ==> s.IsDone(c))
    && (s.IsDone(t) && t == ROOT ==> s.hostSettled)
    && (o.Value? ==> forall c :: c in s.tasks[t].children ==> !FailedUnobserved(s, c))
    && (o.Failed? && s.tasks[t].owner.Some? ==> !EndedWithValue(s, s.tasks[t].owner.value))
    && (s.Live(t) && s.tasks[t].blocker.OnTask? ==> o.Cancelled?)
    && MayRevise(s, t, o)
  }

  lemma MarkDoneFailures(s: RunState, t: TaskId, o: Outcome)
    requires Tree(s) && Subtrees(s) && Failures(s) && MayEnd(s, t, o)
    ensures var s' := MarkDone(s, t, o); Subtrees(s') && Failures(s')
  {
    var s' := MarkDone(s, t, o);
    forall u, c | u in s'.tasks && c in s'.tasks[u].children && EndedWithValue(s', u)
      ensures !FailedUnobserved(s', c)
    {
      assert c in s.tasks[u].children;
    }
  }

  lemma MarkDoneTree(s: RunState, t: TaskId, o: Outcome)
    requires Tree(s) && Subtrees(s) && Failures(s) && Settled(s) && MayEnd(s, t, o)
    ensures var s' := MarkDone(s, t, o);
            Tree(s') && Subtrees(s') && Failures(s') && Settled(s')
  {
    hide Subtrees, Failures;
    var s' := MarkDone(s, t, o);
    TreeFrame(s, s');
    MarkDoneFailures(s, t, o);
    if s.publicOutcome.Some? && !s.hostSettled { StillNothingBlocking(s, s'); }
    if s.finalOutcome.Some? {
      forall u | u in s'.tasks ensures s'.IsDone(u) { assert s.IsDone(u); }
    }
  }

  lemma MarkDonePhases(s: RunState, t: TaskId, o: Outcome)
    requires Phases(s) && Queue(s) && t in s.tasks
    ensures var s' := MarkDone(s, t, o); Phases(s') && Queue(s')
  {
    var s' := MarkDone(s, t, o);
    forall u | u in s'.tasks ensures PhaseOk(s', u) { assert PhaseOk(s, u); }
  }

  lemma MarkDoneWaits(s: RunState, t: TaskId, o: Outcome)
    requires Waits(s) && t in s.tasks
    ensures Waits(MarkDone(s, t, o))
  {
    var s' := MarkDone(s, t, o);
    forall u | u in s'.tasks ensures BlockerOk(s', u) { assert BlockerOk(s, u); }
  }

  lemma MarkDoneDiff(s: RunState, t: TaskId, o: Outcome)
    requires t in s.tasks
    ensures var s' := MarkDone(s, t, o); SameClaims(s, s') && Requests(s') == Requests(s)
  {
  }

  lemma MarkDoneKeeps(s: RunState, t: TaskId, o: Outcome)
    requires Inv(s) && MayEnd(s, t, o)
    ensures Inv(MarkDone(s, t, o))
  {
    hide Answers, Askings, Gifts, MayRevise;
    MarkDoneTree(s, t, o);
    MarkDonePhases(s, t, o);
    MarkDoneWaits(s, t, o);
    MarkDoneDiff(s, t, o);
    ConsumersFrame(s, MarkDone(s, t, o));
    MarkDoneAnswers(s, t, o);
    MarkDoneAskings(s, t, o);
    MarkDoneGifts(s, t, o);
  }

  // ---------------------------------------------------------------- MarkCompleting

  lemma MarkCompletingPhases(s: RunState, t: TaskId, o: Outcome)
    requires Phases(s) && Queue(s) && Waits(s) && t in s.tasks && s.running == Some(t) && o.Value? && s.hooked
    ensures var s' := MarkCompleting(s, t, o); Phases(s') && Queue(s')
  {
    var s' := MarkCompleting(s, t, o);
    forall u | u in s'.tasks ensures PhaseOk(s', u) { assert PhaseOk(s, u); }
  }

  lemma MarkCompletingWaits(s: RunState, t: TaskId, o: Outcome)
    requires Waits(s) && t in s.tasks && s.tasks[t].blocker == Unblocked && s.Live(t)
    ensures Waits(MarkCompleting(s, t, o))
  {
    var s' := MarkCompleting(s, t, o);
    forall u | u in s'.tasks ensures BlockerOk(s', u) { assert BlockerOk(s, u); }
  }

  lemma MarkCompletingDiff(s: RunState, t: TaskId, o: Outcome)
    requires s.Live(t)
    ensures var s' := MarkCompleting(s, t, o); SameTerminals(s, s') && SameClaims(s, s') && Requests(s') == Requests(s)
  {
  }

  lemma MarkCompletingHearing(s: RunState, t: TaskId, o: Outcome)
    requires Answers(s) && Askings(s) && Gifts(s) && s.Live(t) && s.tasks[t].blocker == Unblocked
    ensures var s' := MarkCompleting(s, t, o); Answers(s') && Askings(s') && Gifts(s')
  {
    hide Answers, Askings, Gifts;
    HearingFrame(s, MarkCompleting(s, t, o));
  }

  lemma MarkCompletingKeeps(s: RunState, t: TaskId, o: Outcome)
    requires Inv(s) && t in s.tasks && s.running == Some(t) && o.Value? && s.hooked
    ensures Inv(MarkCompleting(s, t, o))
  {
    assert PhaseOk(s, t);
    hide Answers, Askings, Gifts;
    MarkCompletingHearing(s, t, o);
    MarkCompletingPhases(s, t, o);
    MarkCompletingWaits(s, t, o);
    MarkCompletingDiff(s, t, o);
    EndsFrame(s, MarkCompleting(s, t, o));
    ConsumersFrame(s, MarkCompleting(s, t, o));
  }

  // ---------------------------------------------------------------- Spend

  ghost predicate MaySpend(s: RunState, w: TaskId, r: Request) {
    && w in s.tasks && r in s.frames && s.frames[r] == w
    && (s.tasks[w].phase == Waiting ==>
          s.tasks[w].blocker == InHand || (s.tasks[w].blocker.OnTask? && s.tasks[w].blocker.req == r && s.IsDone(s.tasks[w].blocker.target)))
    && (s.tasks[w].phase == Ready ==> s.running == Some(w))
    && (s.tasks[w].work.ResumeWith? ==> s.tasks[w].work.request == r)
  }

  /** Resuming a task changes its work and its blocker only. */
  ghost predicate SpentTask(a: Task, b: Task) {
    b == a.(work := b.work, blocker := b.blocker)
  }

  lemma SpendForm(s: RunState, w: TaskId, r: Request, p: Payload)
    requires w in s.tasks
    ensures var s' := Spend(s, w, r, p);
            && s' == s.(frames := s.frames - {r}, resumed := s.resumed + [Resumption(w, r, p, s.Live(w))], tasks := s'.tasks)
            && s'.tasks.Keys == s.tasks.Keys
            && (forall t {:trigger s'.tasks[t]} :: t in s.tasks ==> SpentTask(s.tasks[t], s'.tasks[t]))
  {
  }

  lemma SpendPhases(s: RunState, w: TaskId, r: Request, p: Payload)
    requires Phases(s) && Queue(s) && MaySpend(s, w, r)
    ensures var s' := Spend(s, w, r, p); Phases(s') && Queue(s')
  {
    var s' := Spend(s, w, r, p);
    assert PhaseOk(s, w);
    forall u | u in s'.tasks ensures PhaseOk(s', u) { assert PhaseOk(s, u); }
  }

  lemma SpendWaits(s: RunState, w: TaskId, r: Request, p: Payload)
    requires Waits(s) && MaySpend(s, w, r) && PhaseOk(s, w)
    ensures Waits(Spend(s, w, r, p))
  {
    var s' := Spend(s, w, r, p);
    forall u | u in s'.tasks ensures BlockerOk(s', u) { assert BlockerOk(s, u); }
    hide BlockerOk, PhaseOk;
  }

  lemma SpendRequests(s: RunState, w: TaskId, r: Request, p: Payload)
    requires Requests(s) && w in s.tasks && r in s.frames
    ensures Requests(Spend(s, w, r, p))
  {
  }

  lemma SpendDiff(s: RunState, w: TaskId, r: Request, p: Payload)
    requires w in s.tasks
    ensures var s' := Spend(s, w, r, p); SameTerminals(s, s') && SameClaims(s, s')
  {
    hide Spend;
    SpendForm(s, w, r, p);
  }

  lemma SpendKeeps(s: RunState, w: TaskId, r: Request, p: Payload)
    requires Inv(s) && MaySpend(s, w, r) && MayTell(s, w, r, p)
    ensures Inv(Spend(s, w, r, p))
  {
    assert PhaseOk(s, w);
    hide Answers, Askings, Gifts, MayTell;
    SpendHearing(s, w, r, p);
    SpendPhases(s, w, r, p);
    SpendWaits(s, w, r, p);
    SpendRequests(s, w, r, p);
    SpendDiff(s, w, r, p);
    EndsFrame(s, Spend(s, w, r, p));
    ConsumersFrame(s, Spend(s, w, r, p));
  }

  // ---------------------------------------------------------------- MakeReady

  ghost predicate MayQueue(s: RunState, w: TaskId, work: Work) {
    && s.Live(w)
    && (s.running == Some(w) || s.tasks[w].blocker == InHand)
    && work != Idle
    && (work.ResumeWith? ==> work.request in s.frames && s.frames[work.request] == w)
  }

  lemma MakeReadyPhases(s: RunState, w: TaskId, work: Work)
    requires Phases(s) && Queue(s) && MayQueue(s, w, work)
    ensures var s' := MakeReady(s, w, work); Phases(s') && Queue(s')
  {
    var s' := MakeReady(s, w, work);
    assert PhaseOk(s, w);
    assert w !in s.readyQueue;
    forall u | u in s'.tasks ensures PhaseOk(s', u) { assert PhaseOk(s, u); }
  }

  lemma MakeReadyWaits(s: RunState, w: TaskId, work: Work)
    requires Waits(s) && MayQueue(s, w, work) && (s.running == Some(w) ==> s.tasks[w].blocker == Unblocked)
    ensures Waits(MakeReady(s, w, work))
  {
    var s' := MakeReady(s, w, work);
    forall u | u in s'.tasks ensures BlockerOk(s', u) { assert BlockerOk(s, u); }
  }

  lemma MakeReadyDiff(s: RunState, w: TaskId, work: Work)
    requires s.Live(w)
    ensures var s' := MakeReady(s, w, work); SameTerminals(s, s') && SameClaims(s, s') && Requests(s') == Requests(s)
  {
  }

  lemma MakeReadyHearing(s: RunState, w: TaskId, work: Work)
    requires Answers(s) && Askings(s) && Gifts(s) && s.Live(w) && !s.tasks[w].blocker.OnTask?
    ensures var s' := MakeReady(s, w, work); Answers(s') && Askings(s') && Gifts(s')
  {
    hide Answers, Askings, Gifts;
    HearingFrame(s, MakeReady(s, w, work));
  }

  lemma MakeReadyKeeps(s: RunState, w: TaskId, work: Work)
    requires Inv(s) && MayQueue(s, w, work)
    ensures Inv(MakeReady(s, w, work))
  {
    assert PhaseOk(s, w);
    hide Answers, Askings, Gifts;
    MakeReadyHearing(s, w, work);
    MakeReadyPhases(s, w, work);
    MakeReadyWaits(s, w, work);
    MakeReadyDiff(s, w, work);
    EndsFrame(s, MakeReady(s, w, work));
    ConsumersFrame(s, MakeReady(s, w, work));
  }

  lemma StrandPhases(s: RunState, w: TaskId, r: Request)
    requires Phases(s) && Queue(s) && s.Live(w) && s.tasks[w].phase == Waiting
    ensures Phases(Strand(s, w, r)) && Queue(Strand(s, w, r))
  {
    var s' := Strand(s, w, r);
    forall t | t in s'.tasks ensures PhaseOk(s', t) { assert PhaseOk(s, t); }
  }

  lemma StrandWaits(s: RunState, w: TaskId, r: Request)
    requires Waits(s) && s.Live(w) && s.tasks[w].blocker == InHand
    ensures Waits(Strand(s, w, r))
  {
    var s' := Strand(s, w, r);
    forall t | t in s'.tasks ensures BlockerOk(s', t) { assert BlockerOk(s, t); }
  }

  lemma StrandHearing(s: RunState, w: TaskId, r: Request)
    requires Answers(s) && Askings(s) && Gifts(s) && s.Live(w) && s.tasks[w].blocker == InHand
    ensures var s' := Strand(s, w, r); Answers(s') && Askings(s') && Gifts(s')
  {
    hide Answers, Askings, Gifts;
    HearingFrame(s, Strand(s, w, r));
  }

  lemma StrandKeeps(s: RunState, w: TaskId, r: Request)
    requires Inv(s) && s.Live(w) && s.tasks[w].phase == Waiting && s.tasks[w].blocker == InHand
    ensures Inv(Strand(s, w, r))
  {
    hide Tree, Phases, Queue, Subtrees, Waits, Requests, Consumers, Failures, Settled, Answers, Askings, Gifts;
    StrandPhases(s, w, r);
    StrandWaits(s, w, r);
    StrandDiff(s, w, r);
    EndsFrame(s, Strand(s, w, r));
    ConsumersFrame(s, Strand(s, w, r));
    StrandHearing(s, w, r);
  }

  lemma StrandDiff(s: RunState, w: TaskId, r: Request)
    requires s.Live(w)
    ensures var s' := Strand(s, w, r); SameTerminals(s, s') && SameOutcomes(s, s') && SameClaims(s, s') && Requests(s') == Requests(s)
  {
  }

  // ---------------------------------------------------------------- updates of one task that nothing else depends on

  /** Phases, work, blockers, frames, handlers and the queue are as before. */
  ghost predicate SameScheduling(s: RunState, s': RunState) {
    && SameTerminals(s, s')
    && (forall t {:trigger s'.tasks[t]} :: t in s.tasks ==>
          && s'.tasks[t].phase == s.tasks[t].phase && s'.tasks[t].work == s.tasks[t].work
          && s'.tasks[t].pendingCompletion == s.tasks[t].pendingCompletion
          && s'.tasks[t].blocker == s.tasks[t].blocker)
    && s'.readyQueue == s.readyQueue && s'.running == s.running && (s.hooked ==> s'.hooked)
    && s'.frames == s.frames && s'.handlers == s.handlers && s'.issued == s.issued && s'.resumed == s.resumed
  }

  lemma SchedulingFrame(s: RunState, s': RunState)
    requires Phases(s) && Queue(s) && Requests(s) && SameScheduling(s, s')
    ensures Phases(s') && Queue(s') && Requests(s')
  {
    forall t | t in s'.tasks ensures PhaseOk(s', t) { assert PhaseOk(s, t); }
  }

  ghost predicate SameWaiters(s: RunState, s': RunState) {
    && s'.tasks.Keys == s.tasks.Keys
    && (forall t {:trigger s'.tasks[t]} :: t in s.tasks ==> s'.tasks[t].waiters == s.tasks[t].waiters)
  }

  lemma BlockersFrame(s: RunState, s': RunState)
    requires Waits(s) && SameScheduling(s, s') && SameWaiters(s, s')
    ensures forall t {:trigger BlockerOk(s', t)} :: t in s'.tasks ==> BlockerOk(s', t)
  {
    hide SameTerminals, SameShape;
    forall t | t in s'.tasks ensures BlockerOk(s', t) { assert BlockerOk(s, t); }
  }

  lemma WaitsFrame(s: RunState, s': RunState)
    requires Waits(s) && SameScheduling(s, s') && SameWaiters(s, s')
    ensures Waits(s')
  {
    hide SameTerminals, SameShape, BlockerOk;
    BlockersFrame(s, s');
  }

  lemma MarkObservedDiff(s: RunState, t: TaskId)
    requires t in s.tasks && s.tasks[t].terminal.Some?
    ensures var s' := MarkObserved(s, t); SameScheduling(s, s') && SameWaiters(s, s') && SameClaims(s, s')
  {
  }

  lemma MarkObservedKeeps(s: RunState, t: TaskId)
    requires Inv(s) && s.IsDone(t) && s.tasks[t].terminal.Some? && Noticed(s, t)
    ensures Inv(MarkObserved(s, t))
  {
    hide Answers, Askings, Gifts, Noticed;
    MarkObservedHearing(s, t);
    var s' := MarkObserved(s, t);
    MarkObservedDiff(s, t);
    EndsFrame(s, s');
    SchedulingFrame(s, s');
    WaitsFrame(s, s');
    ConsumersFrame(s, s');
  }

  lemma ClearWaitersWaits(s: RunState, t: TaskId)
    requires Waits(s) && s.IsDone(t) && Phases(s)
    requires forall w :: w in s.tasks[t].waiters && s.Live(w.task) ==> s.tasks[w.task].blocker != OnTask(t, w.request)
    ensures Waits(ClearWaiters(s, t))
  {
    var s' := ClearWaiters(s, t);
    forall u | u in s'.tasks ensures BlockerOk(s', u) { assert BlockerOk(s, u) && PhaseOk(s, u); }
  }

  lemma ClearWaitersDiff(s: RunState, t: TaskId)
    requires t in s.tasks
    ensures var s' := ClearWaiters(s, t); SameScheduling(s, s') && SameClaims(s, s')
  {
  }

  lemma ClearWaitersKeeps(s: RunState, t: TaskId)
    requires Inv(s) && s.IsDone(t)
    requires forall w :: w in s.tasks[t].waiters && s.Live(w.task) ==> s.tasks[w.task].blocker != OnTask(t, w.request)
    requires forall w :: w in s.tasks[t].waiters ==> w.request !in s.frames
    ensures Inv(ClearWaiters(s, t))
  {
    hide Answers, Askings, Gifts;
    ClearWaitersHearing(s, t);
    var s' := ClearWaiters(s, t);
    ClearWaitersDiff(s, t);
    EndsFrame(s, s');
    SchedulingFrame(s, s');
    ClearWaitersWaits(s, t);
    ConsumersFrame(s, s');
  }

  /** The scheduling of tasks does not depend on tokens, observers, stored outcomes and deliveries. */
  lemma TokensDiff(s: RunState, s': RunState)
    requires s' == s.(observers := s'.observers, tokens := s'.tokens, completed := s'.completed, deliveries := s'.deliveries,
                      given := s'.given, watched := s'.watched)
    ensures SameScheduling(s, s') && SameWaiters(s, s')
  {
  }

  lemma TokensKeep(s: RunState, s': RunState)
    requires Inv(s) && Consumers(s') && Answers(s') && Askings(s') && Gifts(s')
    requires s' == s.(observers := s'.observers, tokens := s'.tokens, completed := s'.completed, deliveries := s'.deliveries,
                      given := s'.given, watched := s'.watched)
    ensures Inv(s')
  {
    hide Answers, Askings, Gifts;
    TokensDiff(s, s');
    EndsFrame(s, s');
    SchedulingFrame(s, s');
    WaitsFrame(s, s');
  }

  lemma StoreConsumers(s: RunState, t: TaskId)
    requires Consumers(s) && s.IsDone(t) && s.tasks[t].terminal.Some?
    ensures Consumers(Store(s, t))
  {
    var s' := Store(s, t);
    assert ConsumerOk(s, t);
    forall u | u in s'.tasks ensures ConsumerOk(s', u) { assert ConsumerOk(s, u); }
  }

  lemma StoreHearing(s: RunState, t: TaskId)
    requires Answers(s) && Askings(s) && Gifts(s) && t in s.tasks && s.tasks[t].terminal.Some?
    ensures var s' := Store(s, t); Answers(s') && Askings(s') && Gifts(s')
  {
    hide Answers, Askings, Gifts;
    HearingFrame(s, Store(s, t));
  }

  lemma StoreKeeps(s: RunState, t: TaskId)
    requires Inv(s) && s.IsDone(t) && s.tasks[t].terminal.Some?
    ensures Inv(Store(s, t))
  {
    hide Tree, Phases, Queue, Subtrees, Waits, Requests, Consumers, Failures, Settled, Answers, Askings, Gifts;
    StoreConsumers(s, t);
    StoreHearing(s, t);
    TokensKeep(s, Store(s, t));
  }

  lemma ForgetConsumers(s: RunState, cap: Token)
    requires Consumers(s) && cap !in s.observers
    ensures Consumers(Forget(s, cap))
  {
    var s' := Forget(s, cap);
    forall u | u in s'.tasks ensures ConsumerOk(s', u) { assert ConsumerOk(s, u); }
  }

  lemma ForgetKeeps(s: RunState, cap: Token)
    requires Inv(s) && cap !in s.observers
    ensures Inv(Forget(s, cap))
  {
    ForgetConsumers(s, cap);
    hide Answers, Askings, Gifts;
    HearingFrame(s, Forget(s, cap));
    TokensKeep(s, Forget(s, cap));
  }

  lemma DeliveredLast(s: RunState, cap: Token)
    requires Consumers(s) && cap in s.tokens
    ensures NoDup(s.deliveries + [cap]) && cap in s.minted
  {
  }

  /** Delivering what a token stands for uses the token up, so it cannot be delivered again. */
  lemma DeliverConsumers(s: RunState, cap: Token, o: Outcome)
    requires Consumers(s) && cap in s.tokens
    ensures Consumers(Deliver(s, cap, o))
  {
    var s' := Deliver(s, cap, o);
    DeliveredLast(s, cap);
    hide NoDup;
    forall u | u in s'.tasks ensures ConsumerOk(s', u) { assert ConsumerOk(s, u); }
    hide ConsumerOk;
  }

  /** Outcome `o` is what the token `cap` stands for. */
  ghost predicate MayDeliver(s: RunState, cap: Token, o: Outcome) {
    cap in s.tokens && cap in s.minted && HasEnded(s, s.minted[cap]) && o == EndFor(s, s.minted[cap], cap in s.watched)
  }

  lemma DeliverKeeps(s: RunState, cap: Token, o: Outcome)
    requires Inv(s) && MayDeliver(s, cap, o)
    ensures Inv(Deliver(s, cap, o))
  {
    DeliverConsumers(s, cap, o);
    hide Answers, Askings, Gifts;
    DeliverHearing(s, cap, o);
    TokensKeep(s, Deliver(s, cap, o));
  }

  /** History, the sleep flag and the hook do not matter to the invariants. */
  lemma HistoryDiff(s: RunState, s': RunState)
    requires s' == s.(unhandled := s'.unhandled, asleep := s'.asleep, hooked := s'.hooked, closed := s'.closed, cut := s'.cut)
    requires s.hooked ==> s'.hooked
    ensures SameScheduling(s, s') && SameWaiters(s, s') && SameClaims(s, s')
  {
  }

  lemma HistoryKeeps(s: RunState, s': RunState)
    requires Inv(s) && s' == s.(unhandled := s'.unhandled, asleep := s'.asleep, hooked := s'.hooked, closed := s'.closed, cut := s'.cut)
    requires s.hooked ==> s'.hooked
    ensures Inv(s')
  {
    hide Answers, Askings, Gifts;
    HearingFrame(s, s');
    HistoryDiff(s, s');
    EndsFrame(s, s');
    SchedulingFrame(s, s');
    WaitsFrame(s, s');
    ConsumersFrame(s, s');
  }

  // ---------------------------------------------------------------- DropFrames

  lemma DropFramesBlockers(s: RunState, t: TaskId)
    requires Waits(s) && t in s.tasks
    requires !s.tasks[t].blocker.OnTask? && !s.tasks[t].blocker.OnHandler?
    ensures Waits(DropFrames(s, t))
  {
    var s' := DropFrames(s, t);
    forall u | u in s'.tasks ensures BlockerOk(s', u) { assert BlockerOk(s, u); }
  }

  lemma DropFramesPhases(s: RunState, t: TaskId)
    requires Phases(s) && Queue(s) && Waits(s) && Requests(s) && t in s.tasks
    requires !s.tasks[t].blocker.OnTask? && !s.tasks[t].blocker.OnHandler? && !s.tasks[t].work.ResumeWith?
    ensures var s' := DropFrames(s, t); Phases(s') && Queue(s') && Waits(s') && Requests(s')
  {
    var s' := DropFrames(s, t);
    assert s'.tasks == s.tasks;
    forall u | u in s'.tasks ensures PhaseOk(s', u) { assert PhaseOk(s, u); }
    DropFramesBlockers(s, t);
  }

  lemma DropFramesDiff(s: RunState, t: TaskId)
    ensures var s' := DropFrames(s, t); SameTerminals(s, s') && SameClaims(s, s')
  {
  }

  lemma DropFramesKeeps(s: RunState, t: TaskId)
    requires Inv(s) && t in s.tasks
    requires !s.tasks[t].blocker.OnTask? && !s.tasks[t].blocker.OnHandler? && !s.tasks[t].work.ResumeWith?
    ensures Inv(DropFrames(s, t))
  {
    hide Answers, Askings, Gifts;
    DropFramesHearing(s, t);
    DropFramesPhases(s, t);
    DropFramesDiff(s, t);
    EndsFrame(s, DropFrames(s, t));
    ConsumersFrame(s, DropFrames(s, t));
  }
}
