/** Who was told what about the end of a task: each update keeps the account of answers, askings
    and deliveries. */
module TaskHearing {
  import opened Options
  import opened TaskModel

  /** Everything that is told about task `t`, which has ended already, was asked for before it did. */
  ghost predicate EarlyOnly(s: RunState, t: TaskId) {
    && (forall c {:trigger s.given[c]} :: c in s.given && c in s.minted && s.minted[c] == t ==> c in s.watched)
    && (forall r {:trigger s.asked[r]} :: r in s.asked && s.asked[r].target == t ==> s.asked[r].early)
  }

  /** Task `t`, if it has ended already, may end once more with `o`. */
  ghost predicate MayRevise(s: RunState, t: TaskId, o: Outcome) {
    t in s.firsts ==> (o.Cancelled? || (o.Failed? && s.firsts[t].Cancelled?)) && EarlyOnly(s, t)
  }

  // ---------------------------------------------------------------- what each group depends on

  ghost predicate SameEnds(s: RunState, s': RunState) {
    && s'.tasks.Keys == s.tasks.Keys && s'.firsts == s.firsts
    && (forall t {:trigger s'.tasks[t]} :: t in s.tasks ==>
          && (s'.tasks[t].phase == Done <==> s.tasks[t].phase == Done)
          && (s'.tasks[t].terminal.Some? <==> s.tasks[t].terminal.Some?)
          && (s.tasks[t].terminal.Some? ==> s'.tasks[t].terminal.value.outcome == s.tasks[t].terminal.value.outcome))
  }

  ghost predicate KeptAsked(s: RunState, s': RunState) {
    forall r {:trigger r in s'.asked} {:trigger s.asked[r]} :: r in s.asked ==> r in s'.asked && s'.asked[r] == s.asked[r]
  }

  lemma AnswersFrame(s: RunState, s': RunState)
    requires Answers(s) && SameEnds(s, s') && KeptAsked(s, s') && s'.resumed == s.resumed
    requires forall e {:trigger e in s.resumed} :: e in s.resumed && AskedEarly(s', e.request) ==> AskedEarly(s, e.request)
    ensures Answers(s')
  {
    forall t | t in s'.tasks ensures FirstOk(s', t) { assert FirstOk(s, t); }
    forall e | e in s'.resumed ensures AnswerOk(s', e) { assert AnswerOk(s, e); }
  }

  /** Nobody starts to wait, nobody ends or is revived, and nothing that was asked for is forgotten. */
  ghost predicate SameWaits(s: RunState, s': RunState) {
    && s'.tasks.Keys == s.tasks.Keys
    && (forall t {:trigger s'.tasks[t]} :: t in s.tasks ==>
          && s'.tasks[t].waiters == s.tasks[t].waiters && (s.tasks[t].claimed ==> s'.tasks[t].claimed)
          && (s'.tasks[t].phase == Done <==> s.tasks[t].phase == Done)
          && (s'.tasks[t].blocker == s.tasks[t].blocker || !s.tasks[t].blocker.OnTask?))
    && s'.asked == s.asked && s.issued <= s'.issued && s'.firsts == s.firsts
  }

  lemma AskingsFrame(s: RunState, s': RunState)
    requires Askings(s) && SameWaits(s, s') && s'.frames == s.frames && s'.resumed == s.resumed
    ensures Askings(s')
  {
    forall r | r in s'.asked ensures AskedOk(s', r) {
      assert AskedOk(s, r);
      if WasResumed(s, r) { var i :| 0 <= i < |s.resumed| && s.resumed[i].request == r; assert s'.resumed[i].request == r; }
    }
    forall t, w | t in s'.tasks && w in s'.tasks[t].waiters ensures WaiterOk(s', t, w) { assert WaiterOk(s, t, w); }
  }

  ghost predicate SameGifts(s: RunState, s': RunState) {
    && s'.tasks.Keys == s.tasks.Keys
    && (forall t {:trigger s'.tasks[t]} :: t in s.tasks ==>
          && s'.tasks[t].capability == s.tasks[t].capability
          && (s'.tasks[t].terminal.Some? && s'.tasks[t].terminal.value.observed ==>
                s.tasks[t].terminal.Some? && s.tasks[t].terminal.value.observed))
    && s'.given == s.given && s'.deliveries == s.deliveries && s'.observers == s.observers && s'.watched == s.watched && s'.minted == s.minted
  }

  ghost predicate SameOutcome(s: RunState, s': RunState, t: TaskId)
    requires t in s.tasks && t in s'.tasks
  {
    s.tasks[t].terminal.Some? ==> s'.tasks[t].terminal.Some? && s'.tasks[t].terminal.value.outcome == s.tasks[t].terminal.value.outcome
  }

  lemma StillNoticed(s: RunState, s': RunState, t: TaskId)
    requires t in s.tasks && t in s'.tasks && Noticed(s, t) && KeptAsked(s, s') && s'.tasks[t].capability == s.tasks[t].capability
    requires (Revised(s', t) ==> Revised(s, t)) && SameOutcome(s, s', t)
    requires forall c {:trigger c in s'.given} :: c in s.given ==> c in s'.given && s'.given[c] == s.given[c]
    ensures Noticed(s', t)
  {
    if !GivenOut(s, t) {
      var r :| r in s.asked && s.asked[r].target == t && (s.asked[r].early ==> !Revised(s, t));
      assert s'.asked[r] == s.asked[r];
    }
  }

  /** Apart from `ex`, whatever was observed stays accounted for. */
  lemma ObservedFrame(s: RunState, s': RunState, ex: set<TaskId>)
    requires (forall u {:trigger ObservedOk(s, u)} :: u in s.tasks ==> ObservedOk(s, u)) && KeptAsked(s, s') && s'.tasks.Keys == s.tasks.Keys
    requires forall c {:trigger c in s'.given} :: c in s.given ==> c in s'.given && s'.given[c] == s.given[c]
    requires forall u {:trigger s'.tasks[u]} :: u in s.tasks && u !in ex ==>
               && s'.tasks[u].capability == s.tasks[u].capability && (Revised(s', u) ==> Revised(s, u)) && SameOutcome(s, s', u)
               && (s'.tasks[u].terminal.Some? && s'.tasks[u].terminal.value.observed ==> s.tasks[u].terminal.Some? && s.tasks[u].terminal.value.observed)
    ensures forall u {:trigger ObservedOk(s', u)} :: u in s'.tasks && u !in ex ==> ObservedOk(s', u)
  {
    hide Noticed, Revised;
    forall u | u in s'.tasks && u !in ex ensures ObservedOk(s', u) {
      assert ObservedOk(s, u);
      if Noticed(s, u) { StillNoticed(s, s', u); }
    }
  }

  lemma GiftsFrame(s: RunState, s': RunState)
    requires Gifts(s) && SameEnds(s, s') && KeptAsked(s, s') && SameGifts(s, s')
    ensures Gifts(s')
  {
    forall c | c in s'.given ensures GivenOk(s', c) { assert GivenOk(s, c); }
    ObservedFrame(s, s', {});
  }

  /** An update that is no concern of those who ask. */
  lemma HearingFrame(s: RunState, s': RunState)
    requires Answers(s) && Askings(s) && Gifts(s) && SameEnds(s, s') && SameWaits(s, s') && SameGifts(s, s')
    requires s'.frames == s.frames && s'.resumed == s.resumed
    ensures Answers(s') && Askings(s') && Gifts(s')
  {
    AnswersFrame(s, s');
    AskingsFrame(s, s');
    GiftsFrame(s, s');
  }

  // ---------------------------------------------------------------- ending

  lemma MarkDoneAnswers(s: RunState, t: TaskId, o: Outcome)
    requires Answers(s) && t in s.tasks && MayRevise(s, t, o)
    ensures Answers(MarkDone(s, t, o))
  {
    var s' := MarkDone(s, t, o);
    forall u | u in s'.tasks ensures FirstOk(s', u) { assert FirstOk(s, u) && FirstOk(s, t); }
    forall e | e in s'.resumed ensures AnswerOk(s', e) { assert AnswerOk(s, e); }
  }

  /** A task that waits for another one ends only by being cancelled. */
  lemma MarkDoneAskings(s: RunState, t: TaskId, o: Outcome)
    requires Answers(s) && Askings(s) && t in s.tasks && (s.Live(t) && s.tasks[t].blocker.OnTask? ==> o.Cancelled?)
    ensures Askings(MarkDone(s, t, o))
  {
    var s' := MarkDone(s, t, o);
    assert FirstOk(s, t);
    forall r | r in s'.asked ensures AskedOk(s', r) {
      assert AskedOk(s, r);
      var a := s.asked[r];
      if a.early && r in s.frames { assert WaiterOk(s, a.target, Waiter(a.asker, r)); }
      if WasResumed(s, r) { var i :| 0 <= i < |s.resumed| && s.resumed[i].request == r; assert s'.resumed[i].request == r; }
    }
    forall u, w | u in s'.tasks && w in s'.tasks[u].waiters ensures WaiterOk(s', u, w) { assert WaiterOk(s, u, w); }
  }

  lemma MarkDoneGifts(s: RunState, t: TaskId, o: Outcome)
    requires Answers(s) && Gifts(s) && t in s.tasks && MayRevise(s, t, o)
    ensures Gifts(MarkDone(s, t, o))
  {
    var s' := MarkDone(s, t, o);
    forall c | c in s'.given ensures GivenOk(s', c) { assert GivenOk(s, c); }
    ObservedFrame(s, s', {t});
    assert ObservedOk(s', t);
  }

  // ---------------------------------------------------------------- resuming

  /** Telling `p` for request `r` of task `w` is what its account says. */
  ghost predicate MayTell(s: RunState, w: TaskId, r: Request, p: Payload) {
    AnswerOk(s, Resumption(w, r, p, s.Live(w)))
  }

  /** A live task that waits for no other task did not ask early with the request at hand. */
  lemma NotEarly(s: RunState, w: TaskId, r: Request)
    requires Askings(s) && s.Live(w) && r in s.frames && s.frames[r] == w && !s.tasks[w].blocker.OnTask?
    ensures !AskedEarly(s, r)
  {
    if r in s.asked {
      assert AskedOk(s, r);
      if s.asked[r].early && !WaiterOk(s, s.asked[r].target, Waiter(w, r)) { assert false; }
    }
  }

  lemma TellsPlain(s: RunState, w: TaskId, r: Request, p: Payload)
    requires Askings(s) && s.Live(w) && r in s.frames && s.frames[r] == w && !s.tasks[w].blocker.OnTask? && !p.Status?
    ensures MayTell(s, w, r, p)
  {
    NotEarly(s, w, r);
  }

  /** The waiter of a task that has ended is told how it ended at first. */
  lemma TellsWaiter(s: RunState, t: TaskId, w: Waiter)
    requires Requests(s) && Askings(s) && HasEnded(s, t) && w.request in s.asked && s.asked[w.request] == Asking(w.task, t, true)
    requires w.request in s.frames
    ensures MayTell(s, w.task, w.request, Status(WaitStatus(s.firsts[t])))
  {
    assert AskedOk(s, w.request);
  }

  lemma SpendHearing(s: RunState, w: TaskId, r: Request, p: Payload)
    requires Answers(s) && Askings(s) && Gifts(s) && w in s.tasks && r in s.frames && MayTell(s, w, r, p)
    requires s.tasks[w].phase == Waiting ==> s.tasks[w].blocker.OnTask? ==> s.tasks[w].blocker.req == r
    ensures var s' := Spend(s, w, r, p); Answers(s') && Askings(s') && Gifts(s')
  {
    hide Answers, Askings, Gifts, MayTell;
    SpendAnswers(s, w, r, p);
    SpendAskings(s, w, r, p);
    SpendGifts(s, w, r, p);
  }

  lemma SpendGifts(s: RunState, w: TaskId, r: Request, p: Payload)
    requires Gifts(s) && w in s.tasks
    ensures Gifts(Spend(s, w, r, p))
  {
    hide Gifts;
    GiftsFrame(s, Spend(s, w, r, p));
  }

  lemma SpendAnswers(s: RunState, w: TaskId, r: Request, p: Payload)
    requires Answers(s) && w in s.tasks && MayTell(s, w, r, p)
    ensures Answers(Spend(s, w, r, p))
  {
    var s' := Spend(s, w, r, p);
    forall t | t in s'.tasks ensures FirstOk(s', t) { assert FirstOk(s, t); }
    forall e | e in s'.resumed ensures AnswerOk(s', e) {
      assert e in s.resumed || e == Resumption(w, r, p, s.Live(w));
      assert AnswerOk(s, e);
    }
  }

  lemma SpendAskings(s: RunState, w: TaskId, r: Request, p: Payload)
    requires Askings(s) && w in s.tasks && r in s.frames
    requires s.tasks[w].phase == Waiting ==> s.tasks[w].blocker.OnTask? ==> s.tasks[w].blocker.req == r
    ensures Askings(Spend(s, w, r, p))
  {
    var s' := Spend(s, w, r, p);
    forall q | q in s'.asked ensures AskedOk(s', q) {
      assert AskedOk(s, q);
      if q == r { assert s'.resumed[|s.resumed|].request == r; }
      if WasResumed(s, q) { var i :| 0 <= i < |s.resumed| && s.resumed[i].request == q; assert s'.resumed[i].request == q; }
    }
    forall t, v | t in s'.tasks && v in s'.tasks[t].waiters ensures WaiterOk(s', t, v) { assert v in s.tasks[t].waiters; assert WaiterOk(s, t, v); }
  }

  // ---------------------------------------------------------------- frames

  /** Fewer frames and fewer waiters: whoever asked early has its frame and its entry, or has been dealt with. */
  lemma FewerFrames(s: RunState, s': RunState)
    requires Askings(s) && s'.tasks.Keys == s.tasks.Keys && s'.asked == s.asked && s'.resumed == s.resumed && s.issued <= s'.issued && s'.firsts == s.firsts
    requires forall r {:trigger r in s'.frames} :: r in s'.frames ==> r in s.frames && s'.frames[r] == s.frames[r]
    requires forall t {:trigger s'.tasks[t]} :: t in s.tasks ==>
               && s'.tasks[t].blocker == s.tasks[t].blocker && (s.tasks[t].claimed ==> s'.tasks[t].claimed) && s'.tasks[t].phase == s.tasks[t].phase
               && (forall w :: w in s'.tasks[t].waiters ==> w in s.tasks[t].waiters)
               && (forall w :: w in s.tasks[t].waiters && w.request in s'.frames ==> w in s'.tasks[t].waiters)
    requires forall r {:trigger s.asked[r]} :: r in s.asked && s.asked[r].early && r in s.frames && r !in s'.frames ==> s.IsDone(s.asked[r].asker)
    ensures Askings(s')
  {
    forall r | r in s'.asked ensures AskedOk(s', r) {
      assert AskedOk(s, r);
      if WasResumed(s, r) { var i :| 0 <= i < |s.resumed| && s.resumed[i].request == r; assert s'.resumed[i].request == r; }
    }
    forall u, w | u in s'.tasks && w in s'.tasks[u].waiters ensures WaiterOk(s', u, w) { assert w in s.tasks[u].waiters; assert WaiterOk(s, u, w); }
  }

  lemma DropFramesHearing(s: RunState, t: TaskId)
    requires Answers(s) && Askings(s) && Gifts(s) && t in s.tasks && (s.Live(t) ==> !s.tasks[t].blocker.OnTask?)
    ensures var s' := DropFrames(s, t); Answers(s') && Askings(s') && Gifts(s')
  {
    var s' := DropFrames(s, t);
    forall r | r in s.asked && s.asked[r].early && r in s.frames && r !in s'.frames ensures s.IsDone(s.asked[r].asker) {
      assert AskedOk(s, r);
      assert WaiterOk(s, s.asked[r].target, Waiter(s.asked[r].asker, r));
    }
    hide Answers, Askings, Gifts;
    AnswersFrame(s, s');
    GiftsFrame(s, s');
    FewerFrames(s, s');
  }

  lemma DropRequestHearing(s: RunState, s': RunState, r: Request)
    requires Answers(s) && Askings(s) && Gifts(s) && s' == s.(frames := s.frames - {r}) && (r in s.frames ==> s.IsDone(s.frames[r]))
    ensures Answers(s') && Askings(s') && Gifts(s')
  {
    if r in s.asked { assert AskedOk(s, r); }
    hide Answers, Askings, Gifts;
    AnswersFrame(s, s');
    GiftsFrame(s, s');
    FewerFrames(s, s');
  }

  lemma ClearWaitersHearing(s: RunState, t: TaskId)
    requires Answers(s) && Askings(s) && Gifts(s) && t in s.tasks && forall w :: w in s.tasks[t].waiters ==> w.request !in s.frames
    ensures var s' := ClearWaiters(s, t); Answers(s') && Askings(s') && Gifts(s')
  {
    hide Answers, Askings, Gifts;
    AnswersFrame(s, ClearWaiters(s, t));
    GiftsFrame(s, ClearWaiters(s, t));
    FewerFrames(s, ClearWaiters(s, t));
  }

  /** A new request that asks nothing yet. */
  lemma IssueHearing(s: RunState, s': RunState, t: TaskId, r: Request)
    requires Answers(s) && Askings(s) && Gifts(s) && s' == s.(frames := s.frames[r := t], issued := s.issued + {r}) && r !in s.issued
    ensures Answers(s') && Askings(s') && Gifts(s') && r !in s'.asked
  {
    forall q | q in s.asked ensures q != r { assert AskedOk(s, q); }
    AnswersFrame(s, s');
    GiftsFrame(s, s');
    forall q | q in s'.asked ensures AskedOk(s', q) {
      assert AskedOk(s, q);
      if WasResumed(s, q) { var i :| 0 <= i < |s.resumed| && s.resumed[i].request == q; assert s'.resumed[i].request == q; }
    }
    forall u, w | u in s'.tasks && w in s'.tasks[u].waiters ensures WaiterOk(s', u, w) { assert w in s.tasks[u].waiters; assert WaiterOk(s, u, w); }
  }

  // ---------------------------------------------------------------- observing and delivering

  lemma MarkObservedGifts(s: RunState, t: TaskId)
    requires Gifts(s) && t in s.tasks && s.tasks[t].terminal.Some? && Noticed(s, t)
    ensures Gifts(MarkObserved(s, t))
  {
    var s' := MarkObserved(s, t);
    forall c | c in s'.given ensures GivenOk(s', c) { assert GivenOk(s, c); }
    ObservedFrame(s, s', {t});
    StillNoticed(s, s', t);
    hide Noticed;
    assert ObservedOk(s', t);
  }

  lemma MarkObservedHearing(s: RunState, t: TaskId)
    requires Answers(s) && Askings(s) && Gifts(s) && t in s.tasks && s.tasks[t].terminal.Some? && Noticed(s, t)
    ensures var s' := MarkObserved(s, t); Answers(s') && Askings(s') && Gifts(s')
  {
    hide Answers, Askings, Gifts, Noticed;
    AnswersFrame(s, MarkObserved(s, t));
    AskingsFrame(s, MarkObserved(s, t));
    MarkObservedGifts(s, t);
  }

  lemma DeliverGifts(s: RunState, cap: Token, o: Outcome)
    requires Gifts(s) && cap in s.minted && HasEnded(s, s.minted[cap]) && o == EndFor(s, s.minted[cap], cap in s.watched)
    ensures Gifts(Deliver(s, cap, o))
  {
    var s' := Deliver(s, cap, o);
    forall c | c in s'.given ensures GivenOk(s', c) { if c != cap { assert GivenOk(s, c); } }
    forall c ensures c in s'.given <==> c in s'.deliveries { assert c in s'.deliveries <==> c in s.deliveries || c == cap; }
    if cap in s.given { assert GivenOk(s, cap); }
    hide GivenOk, ObservedOk, HasEnded, EndFor;
    ObservedFrame(s, s', {});
  }

  lemma DeliverHearing(s: RunState, cap: Token, o: Outcome)
    requires Answers(s) && Askings(s) && Gifts(s)
    requires cap in s.minted && HasEnded(s, s.minted[cap]) && o == EndFor(s, s.minted[cap], cap in s.watched)
    ensures var s' := Deliver(s, cap, o); Answers(s') && Askings(s') && Gifts(s')
  {
    hide Answers, Askings, Gifts;
    AnswersFrame(s, Deliver(s, cap, o));
    AskingsFrame(s, Deliver(s, cap, o));
    DeliverGifts(s, cap, o);
  }

  lemma RegisterHearing(s: RunState, s': RunState, t: TaskId)
    requires Answers(s) && Askings(s) && Gifts(s) && s.Live(t) && s.tasks[t].capability in s.minted && s.minted[s.tasks[t].capability] == t
    requires s' == s.(observers := s.observers + {s.tasks[t].capability}, watched := s.watched + {s.tasks[t].capability})
    ensures Answers(s') && Askings(s') && Gifts(s')
  {
    assert FirstOk(s, t);
    forall c | c in s'.given ensures GivenOk(s', c) { assert GivenOk(s, c); }
    ObservedFrame(s, s', {});
    hide Answers, Askings, GivenOk, ObservedOk;
    AnswersFrame(s, s');
    AskingsFrame(s, s');
  }

  // ---------------------------------------------------------------- asking

  /** Nobody has asked for the end of `t` yet. */
  ghost predicate Unasked(s: RunState, t: TaskId) {
    forall r {:trigger s.asked[r]} :: r in s.asked ==> s.asked[r].target != t
  }

  lemma AskLateHearing(s: RunState, r: Request, id: TaskId, t: TaskId)
    requires Answers(s) && Askings(s) && Gifts(s) && r !in s.asked && r in s.issued && r in s.frames && s.frames[r] == id
    requires id in s.tasks && s.IsDone(t) && s.tasks[t].claimed && Unasked(s, t)
    ensures var s' := Ask(s, r, id, t, false); Answers(s') && Askings(s') && Gifts(s')
  {
    var s' := Ask(s, r, id, t, false);
    AnswersFrame(s, s');
    GiftsFrame(s, s');
    AskedMore(s, s', r);
  }

  /** Waiting and claiming as before, and more. */
  ghost predicate MoreWaits(s: RunState, s': RunState) {
    && s'.tasks.Keys == s.tasks.Keys && s'.frames == s.frames && s'.resumed == s.resumed && s'.issued == s.issued && s'.firsts == s.firsts
    && (forall t {:trigger s'.tasks[t]} :: t in s.tasks ==>
          && (s.tasks[t].claimed ==> s'.tasks[t].claimed) && (s'.tasks[t].phase == Done <==> s.tasks[t].phase == Done)
          && (forall w :: w in s.tasks[t].waiters ==> w in s'.tasks[t].waiters)
          && (s'.tasks[t].blocker == s.tasks[t].blocker || !s.tasks[t].blocker.OnTask?))
  }

  lemma StillAsked(s: RunState, s': RunState, r: Request)
    requires r in s.asked && AskedOk(s, r) && MoreWaits(s, s') && r in s'.asked && s'.asked[r] == s.asked[r]
    ensures AskedOk(s', r)
  {
    if WasResumed(s, r) { var i :| 0 <= i < |s.resumed| && s.resumed[i].request == r; assert s'.resumed[i].request == r; }
  }

  /** One more request asks; the others stand as before. */
  lemma AskedMore(s: RunState, s': RunState, r: Request)
    requires Askings(s) && r !in s.asked && r in s'.asked && s'.asked == s.asked[r := s'.asked[r]] && AskedOk(s', r) && Unasked(s, s'.asked[r].target)
    requires MoreWaits(s, s')
    requires forall t, w {:trigger w in s'.tasks[t].waiters} :: t in s.tasks && w in s'.tasks[t].waiters && w !in s.tasks[t].waiters ==> WaiterOk(s', t, w)
    ensures Askings(s')
  {
    hide AskedOk;
    forall q | q in s'.asked ensures AskedOk(s', q) { if q != r { StillAsked(s, s', q); } }
    forall t, w | t in s'.tasks && w in s'.tasks[t].waiters ensures WaiterOk(s', t, w) {
      if w in s.tasks[t].waiters { assert WaiterOk(s, t, w); }
    }
  }
}
