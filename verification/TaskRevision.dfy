/** Which tasks end twice. Cancelling a task that is completing lets it complete first, because its
    children are cancelled before it, and then records it as cancelled all the same. */
module TaskRevision {
  import opened Options
  import opened TaskModel
  import opened TaskHearing
  import opened TaskLemmas
  import opened TaskProgress

  // ---------------------------------------------------------------- the tree of owners

  /** `d` is below `t` in the owner tree. */
  predicate Below(s: RunState, d: TaskId, t: TaskId)
    decreases d
  {
    && d in s.tasks && s.tasks[d].owner.Some? && s.tasks[d].owner.value < d
    && (s.tasks[d].owner.value == t || Below(s, s.tasks[d].owner.value, t))
  }

  ghost function Under(s: RunState, t: TaskId): set<TaskId> {
    set d | d in s.tasks && Below(s, d, t)
  }

  ghost function Over(s: RunState, d: TaskId): set<TaskId> {
    set t | t in s.tasks && Below(s, d, t)
  }

  ghost predicate SameOwners(s: RunState, s': RunState) {
    && s'.tasks.Keys == s.tasks.Keys
    && (forall t {:trigger s'.tasks[t]} :: t in s.tasks ==> s'.tasks[t].owner == s.tasks[t].owner)
  }

  lemma {:induction false} BelowSame(s: RunState, s': RunState, d: TaskId, t: TaskId)
    requires SameOwners(s, s')
    ensures Below(s', d, t) == Below(s, d, t)
    decreases d
  {
    if d in s.tasks && s.tasks[d].owner.Some? && s.tasks[d].owner.value < d { BelowSame(s, s', s.tasks[d].owner.value, t); }
  }

  lemma SameTree(s: RunState, s': RunState, t: TaskId)
    requires SameOwners(s, s')
    ensures Under(s', t) == Under(s, t) && Over(s', t) == Over(s, t)
  {
    forall u ensures Below(s', u, t) == Below(s, u, t) && Below(s', t, u) == Below(s, t, u) {
      BelowSame(s, s', u, t);
      BelowSame(s, s', t, u);
    }
  }

  lemma {:induction false} BelowIsLater(s: RunState, d: TaskId, t: TaskId)
    requires Below(s, d, t)
    ensures t < d
    decreases d
  {
    if s.tasks[d].owner.value != t { BelowIsLater(s, s.tasks[d].owner.value, t); }
  }

  lemma {:induction false} BelowTrans(s: RunState, d: TaskId, c: TaskId, t: TaskId)
    requires Below(s, d, c) && Below(s, c, t)
    ensures Below(s, d, t)
    decreases d
  {
    if s.tasks[d].owner.value != c { BelowTrans(s, s.tasks[d].owner.value, c, t); }
  }

  /** Above a task are its owner and what is above that. */
  lemma OverOwner(s: RunState, t: TaskId)
    requires Inv(s) && t in s.tasks
    ensures s.tasks[t].owner.Some? ==> Over(s, t) == {s.tasks[t].owner.value} + Over(s, s.tasks[t].owner.value)
    ensures s.tasks[t].owner.None? ==> Over(s, t) == {}
  {
    At(s, t);
  }

  lemma UnderChild(s: RunState, t: TaskId, c: TaskId)
    requires Inv(s) && t in s.tasks && c in s.tasks[t].children
    ensures {c} + Under(s, c) <= Under(s, t) && Over(s, c) == {t} + Over(s, t)
  {
    assert c in s.tasks && s.tasks[c].owner == Some(t);
    At(s, c);
    OverOwner(s, c);
    forall d | d in Under(s, c) ensures d in Under(s, t) { BelowTrans(s, d, c, t); }
  }

  // ---------------------------------------------------------------- ending once, ending twice

  /** No task traps on being told how a task that it waits for ended. */
  ghost predicate CarriesOn(s: RunState) {
    forall r {:trigger AskedEarly(s, r)} :: AskedEarly(s, r) ==> !s.traps(r)
  }

  /** Exactly the tasks that were cancelled while they were completing have ended twice, with
      different outcomes. */
  ghost predicate CutExact(s: RunState) {
    forall t {:trigger t in s.cut} {:trigger Revised(s, t)} :: t in s.cut <==> Revised(s, t)
  }

  ghost predicate NoneStuck(s: RunState) {
    forall t {:trigger Stuck(s, t)} :: !Stuck(s, t)
  }

  ghost predicate OnwardTask(a: Task, b: Task) {
    && b.owner == a.owner
    && (b.phase != Done ==> a.phase != Done && (b.phase == Completing <==> a.phase == Completing))
    && (a.phase == Done && a.terminal.Some? ==> b.phase == Done && b.terminal.Some? && b.terminal.value.outcome == a.terminal.value.outcome)
  }

  /** Nobody is revived, nobody starts to complete, and nothing recorded is replaced. */
  ghost predicate Onward(s: RunState, s': RunState) {
    && s'.tasks.Keys == s.tasks.Keys && s'.asked == s.asked && s'.traps == s.traps
    && (forall t {:trigger s'.tasks[t]} :: t in s.tasks ==> OnwardTask(s.tasks[t], s'.tasks[t]))
    && (forall t {:trigger t in s'.firsts} :: t in s.firsts ==> t in s'.firsts && s'.firsts[t] == s.firsts[t])
  }

  /** Task `t` is recorded as cancelled; if it was completing it had completed before. */
  ghost predicate CutShort(s: RunState, s': RunState, t: TaskId)
    requires t in s.tasks
  {
    HasEnded(s', t) && Recorded(s', t).Cancelled? && (CancelledFirst(s', t) <==> s.tasks[t].phase != Completing)
  }

  /** Task `t`, which was completing, has completed and nothing else. */
  ghost predicate RanOut(s: RunState, s': RunState, t: TaskId)
    requires t in s.tasks
  {
    HasEnded(s', t) && s.tasks[t].phase == Completing && !CancelledFirst(s', t) && !Revised(s', t)
  }

  /** Of the tasks that have ended meanwhile, those of `z` were cut short and those of `a` have completed. */
  ghost predicate Line(s: RunState, s': RunState, z: set<TaskId>, a: set<TaskId>) {
    forall t {:trigger s'.IsDone(t)} :: s.Live(t) && s'.IsDone(t) ==> (t in z && CutShort(s, s', t)) || (t in a && RanOut(s, s', t))
  }

  /** Unless a task traps on being told of an end: tasks end as `Line` says. */
  ghost predicate Smooth(s: RunState, s': RunState, z: set<TaskId>, a: set<TaskId>) {
    && Onward(s, s')
    && (CarriesOn(s) && CutExact(s) ==> Line(s, s', z, a) && CutExact(s'))
  }

  /** The same where no completion is overdue. */
  ghost predicate Falls(s: RunState, s': RunState, z: set<TaskId>, a: set<TaskId>) {
    NoneStuck(s) ==> Smooth(s, s', z, a)
  }

  ghost predicate CutGoesOn(s: RunState, s': RunState) {
    CarriesOn(s) && NoneStuck(s) && CutExact(s) ==> CutExact(s')
  }

  lemma OnwardTrans(a: RunState, b: RunState, c: RunState)
    requires Onward(a, b) && Onward(b, c)
    ensures Onward(a, c)
  {
    forall t | t in a.tasks ensures OnwardTask(a.tasks[t], c.tasks[t]) {
      assert OnwardTask(a.tasks[t], b.tasks[t]) && OnwardTask(b.tasks[t], c.tasks[t]);
    }
    forall t | t in a.firsts ensures t in c.firsts && c.firsts[t] == a.firsts[t] { assert t in b.firsts; }
  }

  lemma CascadeOnward(s: RunState, s': RunState)
    requires Cascade(s, s')
    ensures Onward(s, s')
  {
    forall t | t in s.tasks ensures OnwardTask(s.tasks[t], s'.tasks[t]) { assert TaskCascade(s.tasks[t], s'.tasks[t]); }
  }

  lemma OnwardOwners(s: RunState, s': RunState)
    requires Onward(s, s')
    ensures SameOwners(s, s') && (CarriesOn(s') <==> CarriesOn(s))
  {
    forall t | t in s.tasks ensures s'.tasks[t].owner == s.tasks[t].owner { assert OnwardTask(s.tasks[t], s'.tasks[t]); }
    forall r ensures AskedEarly(s', r) == AskedEarly(s, r) {}
  }

  /** What has become of a task does not change later. */
  lemma FateStays(s: RunState, b: RunState, c: RunState, t: TaskId)
    requires t in s.tasks && Onward(b, c) && b.IsDone(t)
    ensures CutShort(s, b, t) ==> CutShort(s, c, t)
    ensures RanOut(s, b, t) ==> RanOut(s, c, t)
    ensures c.IsDone(t)
  {
    assert OnwardTask(b.tasks[t], c.tasks[t]);
    if HasEnded(b, t) { assert t in c.firsts; }
  }

  lemma LineTrans(a: RunState, b: RunState, c: RunState, z: set<TaskId>, u: set<TaskId>)
    requires Onward(a, b) && Onward(b, c) && Line(a, b, z, u) && Line(b, c, z, u)
    ensures Line(a, c, z, u)
  {
    hide CancelledFirst, HasEnded, Revised;
    forall t | a.Live(t) && c.IsDone(t) ensures (t in z && CutShort(a, c, t)) || (t in u && RanOut(a, c, t)) {
      assert OnwardTask(a.tasks[t], b.tasks[t]);
      if b.IsDone(t) { FateStays(a, b, c, t); } else { assert b.Live(t); }
    }
  }

  lemma SmoothTrans(a: RunState, b: RunState, c: RunState, z: set<TaskId>, u: set<TaskId>)
    requires Smooth(a, b, z, u) && Smooth(b, c, z, u)
    ensures Smooth(a, c, z, u)
  {
    hide Onward, Line, CutExact, CarriesOn;
    OnwardTrans(a, b, c);
    OnwardOwners(a, b);
    if CarriesOn(a) && CutExact(a) { LineTrans(a, b, c, z, u); }
  }

  lemma SmoothWeaken(s: RunState, s': RunState, z: set<TaskId>, u: set<TaskId>, z': set<TaskId>, u': set<TaskId>)
    requires Smooth(s, s', z, u) && z <= z' && u <= u'
    ensures Smooth(s, s', z', u')
  {
    hide Onward, CutExact, CarriesOn, CutShort, RanOut;
  }

  lemma SmoothTree(s: RunState, s': RunState, z: set<TaskId>, u: set<TaskId>, t: TaskId)
    requires Smooth(s, s', z, u)
    ensures Over(s', t) == Over(s, t) && Under(s', t) == Under(s, t)
  {
    OnwardOwners(s, s');
    SameTree(s, s', t);
  }

  /** Steps in which no task ends or starts to complete. */
  ghost predicate NothingEnds(s: RunState, s': RunState) {
    && s'.tasks.Keys == s.tasks.Keys && s'.firsts == s.firsts && s'.cut == s.cut && s'.asked == s.asked && s'.traps == s.traps
    && (forall t {:trigger s'.tasks[t]} :: t in s.tasks ==>
          && s'.tasks[t].owner == s.tasks[t].owner
          && (s'.tasks[t].phase == Done <==> s.tasks[t].phase == Done) && (s'.tasks[t].phase == Completing <==> s.tasks[t].phase == Completing)
          && (s'.tasks[t].terminal.Some? <==> s.tasks[t].terminal.Some?)
          && (s.tasks[t].terminal.Some? ==> s'.tasks[t].terminal.value.outcome == s.tasks[t].terminal.value.outcome))
  }

  lemma Smoothly(s: RunState, s': RunState)
    requires NothingEnds(s, s')
    ensures Smooth(s, s', {}, {})
  {
    forall t ensures Revised(s', t) <==> Revised(s, t) {}
  }

  /** A task traps on being told of an end. */
  lemma SmoothTrapped(s: RunState, s': RunState, r: Request)
    requires Cascade(s, s') && AskedEarly(s, r) && s.traps(r)
    ensures Smooth(s, s', {}, {})
  {
    CascadeOnward(s, s');
    assert !CarriesOn(s);
  }

  lemma EndsOnce(s: RunState, t: TaskId, o: Outcome)
    requires Answers(s) && s.Live(t)
    ensures CutExact(s) ==> CutExact(MarkDone(s, t, o))
    ensures CarriesOn(MarkDone(s, t, o)) <==> CarriesOn(s)
  {
    var s' := MarkDone(s, t, o);
    assert FirstOk(s, t);
    assert !Revised(s, t) && !Revised(s', t);
    forall u ensures Revised(s', u) <==> Revised(s, u) { if u in s.tasks { assert FirstOk(s, u); } }
    forall r ensures AskedEarly(s', r) == AskedEarly(s, r) {}
  }

  /** A completing task completes. */
  lemma SmoothEnd(s: RunState, t: TaskId, o: Outcome)
    requires Answers(s) && s.Live(t) && s.tasks[t].phase == Completing && !o.Cancelled?
    ensures Smooth(s, MarkDone(s, t, o), {}, {t})
  {
    EndsOnce(s, t, o);
    hide CutExact, CarriesOn;
    assert FirstOk(s, t);
    var s' := MarkDone(s, t, o);
    forall u | u in s.tasks ensures OnwardTask(s.tasks[u], s'.tasks[u]) {}
    assert RanOut(s, s', t);
  }

  // ---------------------------------------------------------------- cancelling

  /** The children of `id` have been cancelled, and `id` is marked as cut if it was completing. */
  ghost predicate ReadyToCut(s0: RunState, s: RunState, id: TaskId)
    requires id in s0.tasks
  {
    NoneStuck(s0) && CarriesOn(s0) && CutExact(s0) ==>
      && Line(s0, s, Under(s0, id), {id} + Over(s0, id))
      && (id in s.cut <==> s0.tasks[id].phase == Completing) && (s.IsDone(id) <==> s0.tasks[id].phase == Completing)
      && (forall t {:trigger t in s.cut} {:trigger Revised(s, t)} :: t != id ==> (t in s.cut <==> Revised(s, t)))
  }

  function Marked(s0: RunState, s: RunState, id: TaskId): RunState
    requires id in s0.tasks
  {
    if s0.tasks[id].phase == Completing then MarkCut(s, id) else s
  }

  /** By the time the children of `id` have been cancelled, `id` has ended if and only if it was completing. */
  lemma CompletesFirst(s0: RunState, s: RunState, id: TaskId)
    requires s0.Live(id) && id in s.tasks && NoneStuck(s0) && NoNewStuck(s0, s, {}) && NoLiveChild(s, id)
    requires Onward(s0, s) && Line(s0, s, Under(s0, id), {id} + Over(s0, id))
    ensures s.IsDone(id) <==> s0.tasks[id].phase == Completing
    ensures s.IsDone(id) ==> RanOut(s0, s, id)
  {
    assert OnwardTask(s0.tasks[id], s.tasks[id]);
    assert !Stuck(s, id);
    if id in Under(s0, id) { BelowIsLater(s0, id, id); }
  }

  lemma MarkedReady(s0: RunState, s: RunState, id: TaskId)
    requires Inv(s0) && s0.Live(id) && id in s.tasks && NoNewStuck(s0, s, {}) && NoLiveChild(s, id)
    requires Falls(s0, s, Under(s0, id), {id} + Over(s0, id)) && Inv(s)
    ensures ReadyToCut(s0, Marked(s0, s, id), id)
  {
    hide NoLiveChild, NoNewStuck, Under, Over, Onward, Inv;
    if NoneStuck(s0) && CarriesOn(s0) && CutExact(s0) {
      CompletesFirst(s0, s, id);
      LiveUncut(s, id);
      hide NoneStuck, CarriesOn;
      SameLine(s0, s, Marked(s0, s, id), Under(s0, id), {id} + Over(s0, id));
      assert CutExact(s);
    }
  }

  lemma LiveUncut(s: RunState, t: TaskId)
    requires Inv(s)
    ensures s.Live(t) ==> !Revised(s, t)
  {
    if s.Live(t) { At(s, t); }
  }

  lemma SameFate(s0: RunState, s: RunState, s': RunState, t: TaskId)
    requires s'.tasks == s.tasks && s'.firsts == s.firsts
    ensures (Revised(s', t) <==> Revised(s, t)) && (s'.IsDone(t) <==> s.IsDone(t))
    ensures t in s0.tasks ==> (CutShort(s0, s', t) <==> CutShort(s0, s, t)) && (RanOut(s0, s', t) <==> RanOut(s0, s, t))
  {
  }

  lemma SameLine(s0: RunState, s: RunState, s': RunState, z: set<TaskId>, a: set<TaskId>)
    requires s'.tasks == s.tasks && s'.firsts == s.firsts && Line(s0, s, z, a)
    ensures Line(s0, s', z, a)
    ensures forall t :: Revised(s', t) <==> Revised(s, t)
  {
    hide CutShort, RanOut, Revised;
    forall t ensures Revised(s', t) <==> Revised(s, t) { SameFate(s0, s, s', t); }
    forall t | s0.Live(t) && s'.IsDone(t) ensures (t in z && CutShort(s0, s', t)) || (t in a && RanOut(s0, s', t)) {
      SameFate(s0, s, s', t);
      assert s.IsDone(t);
    }
  }

  /** Recording `id` as cancelled completes the account. */
  lemma CutEnds(s0: RunState, s: RunState, id: TaskId)
    requires Inv(s) && s0.Live(id) && id in s.tasks && ReadyToCut(s0, s, id) && Onward(s0, s) && Cascade(s0, MarkDone(s, id, Cancelled))
    ensures Falls(s0, MarkDone(s, id, Cancelled), {id} + Under(s0, id), Over(s0, id))
  {
    var s' := MarkDone(s, id, Cancelled);
    CascadeOnward(s0, s');
    assert FirstOk(s, id);
    if id in Under(s0, id) { BelowIsLater(s0, id, id); }
    hide Inv, Under, Over, Onward, Cascade, FirstOk, MarkDone, CutExact;
    if NoneStuck(s0) && CarriesOn(s0) && CutExact(s0) {
      hide NoneStuck, CarriesOn;
      CutLine(s0, s, id, Under(s0, id), Over(s0, id));
      CutNow(s0, s, id);
    }
  }

  lemma CutNow(s0: RunState, s: RunState, id: TaskId)
    requires s0.Live(id) && id in s.tasks && FirstOk(s, id) && (id in s.cut <==> s0.tasks[id].phase == Completing)
    requires s.IsDone(id) ==> !CancelledFirst(s, id)
    requires s.IsDone(id) <==> s0.tasks[id].phase == Completing
    requires forall t {:trigger t in s.cut} {:trigger Revised(s, t)} :: t != id ==> (t in s.cut <==> Revised(s, t))
    ensures CutExact(MarkDone(s, id, Cancelled))
  {
    var s' := MarkDone(s, id, Cancelled);
    forall t ensures t in s'.cut <==> Revised(s', t) {
      if t != id { assert Revised(s', t) <==> Revised(s, t); }
    }
  }

  lemma CutLine(s0: RunState, s: RunState, id: TaskId, z: set<TaskId>, a: set<TaskId>)
    requires s0.Live(id) && id in s.tasks && id !in z && FirstOk(s, id)
    requires Line(s0, s, z, {id} + a) && (s.IsDone(id) <==> s0.tasks[id].phase == Completing)
    ensures Line(s0, MarkDone(s, id, Cancelled), {id} + z, a) && (s.IsDone(id) ==> !CancelledFirst(s, id))
  {
    var s' := MarkDone(s, id, Cancelled);
    forall t | s0.Live(t) && s'.IsDone(t) ensures (t in {id} + z && CutShort(s0, s', t)) || (t in a && RanOut(s0, s', t)) {
      if t != id { assert s.IsDone(t); }
    }
  }

  /** Later steps that end only owners above. */
  lemma FallsThen(a: RunState, b: RunState, c: RunState, z: set<TaskId>, u: set<TaskId>, z': set<TaskId>, u': set<TaskId>)
    requires Falls(a, b, z, u) && Smooth(b, c, z', u') && z' <= z && u' <= u
    ensures Falls(a, c, z, u)
  {
    hide Smooth;
    SmoothWeaken(b, c, z', u', z, u);
    if NoneStuck(a) { SmoothTrans(a, b, c, z, u); }
  }

  lemma FallsTrans(a: RunState, b: RunState, c: RunState, z: set<TaskId>, u: set<TaskId>, z': set<TaskId>, u': set<TaskId>)
    requires Falls(a, b, z, u) && Falls(b, c, z', u') && z' <= z && u' <= u && NoNewStuck(a, b, {})
    ensures Falls(a, c, z, u)
  {
    hide Smooth, Stuck;
    if NoneStuck(a) {
      assert NoneStuck(b);
      FallsThen(a, b, c, z, u, z', u');
    }
  }

  lemma FallsCuts(s: RunState, s': RunState, z: set<TaskId>, u: set<TaskId>)
    requires Falls(s, s', z, u)
    ensures CutGoesOn(s, s')
  {
  }

  // ---------------------------------------------------------------- completing

  /** Completing the running task. */
  lemma EndCuts(s: RunState, s': RunState, t: TaskId, o: Outcome, u: set<TaskId>)
    requires Answers(s) && s.Live(t) && Smooth(MarkDone(s, t, o), s', {}, u)
    ensures CutGoesOn(s, s')
  {
    EndsOnce(s, t, o);
    hide CutExact, CarriesOn, Onward, Line, MarkDone;
  }

  /** Failing it, once its children have been cancelled. */
  lemma FailureCuts(s: RunState, b: RunState, s': RunState, t: TaskId, o: Outcome, u: set<TaskId>)
    requires s.Live(t) && s.tasks[t].phase != Completing && Falls(s, b, Under(s, t), {t} + Over(s, t)) && t in b.tasks
    requires Answers(b) && Smooth(MarkDone(b, t, o), s', {}, u)
    ensures CutGoesOn(s, s')
  {
    hide Answers;
    if CarriesOn(s) && NoneStuck(s) && CutExact(s) {
      OnwardOwners(s, b);
      if b.IsDone(t) {
        if t in Under(s, t) { BelowIsLater(s, t, t); }
        assert false;
      }
      EndCuts(b, s', t, o, u);
      hide NoneStuck, CutExact, CarriesOn, Onward, Line, MarkDone, Under, Over;
      EndsOnce(b, t, o);
    }
  }

  lemma SameCutting(s: RunState, s': RunState)
    requires s'.tasks == s.tasks && s'.firsts == s.firsts && s'.cut == s.cut && s'.asked == s.asked && s'.traps == s.traps
    ensures NothingEnds(s, s') && (NoneStuck(s') <==> NoneStuck(s)) && (CutExact(s') <==> CutExact(s)) && (CarriesOn(s') <==> CarriesOn(s))
  {
    forall t ensures Revised(s', t) <==> Revised(s, t) {}
    forall t ensures Stuck(s', t) <==> Stuck(s, t) {}
    forall r ensures AskedEarly(s', r) <==> AskedEarly(s, r) {}
  }

  /** Dropping request frames first makes no difference. */
  lemma DroppedCuts(s: RunState, t: TaskId, s': RunState)
    ensures CutGoesOn(s, DropFrames(s, t))
    ensures CutGoesOn(DropFrames(s, t), s') ==> CutGoesOn(s, s')
    ensures NothingEnds(s, DropFrames(s, t))
  {
    SameCutting(s, DropFrames(s, t));
    hide CutExact, CarriesOn, NoneStuck;
  }

  lemma CompletingCuts(s: RunState, t: TaskId, o: Outcome)
    requires s.Live(t)
    ensures CutGoesOn(s, MarkCompleting(s, t, o))
  {
    var s' := MarkCompleting(s, t, o);
    forall u ensures Revised(s', u) <==> Revised(s, u) {}
    hide CarriesOn, NoneStuck;
  }

  // ---------------------------------------------------------------- steps of a cascade

  lemma SmoothTail(a: RunState, b: RunState, c: RunState, z: set<TaskId>, u: set<TaskId>)
    requires Smooth(a, b, z, u) && NothingEnds(b, c)
    ensures Smooth(a, c, z, u)
  {
    Smoothly(b, c);
    hide Smooth, NothingEnds;
    SmoothWeaken(b, c, {}, {}, z, u);
    SmoothTrans(a, b, c, z, u);
  }

  lemma SmoothHead(a: RunState, b: RunState, c: RunState, z: set<TaskId>, u: set<TaskId>)
    requires NothingEnds(a, b) && Smooth(b, c, z, u)
    ensures Smooth(a, c, z, u)
  {
    Smoothly(a, b);
    hide Smooth, NothingEnds;
    SmoothWeaken(a, b, {}, {}, z, u);
    SmoothTrans(a, b, c, z, u);
  }

  lemma SmoothRefl(s: RunState, z: set<TaskId>, u: set<TaskId>)
    ensures Smooth(s, s, z, u)
  {
    Smoothly(s, s);
    hide Smooth;
    SmoothWeaken(s, s, {}, {}, z, u);
  }

  lemma ObservedEnds(s: RunState, t: TaskId)
    requires t in s.tasks && s.tasks[t].terminal.Some?
    ensures NothingEnds(s, MarkObserved(s, t))
  {
  }

  lemma ClearedEnds(s: RunState, t: TaskId)
    requires t in s.tasks
    ensures NothingEnds(s, ClearWaiters(s, t))
  {
  }

  lemma NotifiedEnds(s: RunState, s': RunState, t: TaskId)
    requires Notified(s, s', t)
    ensures NothingEnds(s, s')
  {
  }

  lemma SpendEnds(s: RunState, w: TaskId, r: Request, p: Payload)
    requires w in s.tasks
    ensures NothingEnds(s, Spend(s, w, r, p))
  {
  }

  lemma ReadyEnds(s: RunState, w: TaskId, work: Work)
    requires s.Live(w) && s.tasks[w].phase == Waiting
    ensures NothingEnds(s, MakeReady(s, w, work))
  {
  }

  lemma StrandEnds(s: RunState, w: TaskId, r: Request)
    requires w in s.tasks
    ensures NothingEnds(s, Strand(s, w, r))
  {
  }

  lemma EndedOwners(s: RunState, t: TaskId, o: Outcome)
    requires t in s.tasks
    ensures SameOwners(s, MarkDone(s, t, o))
    ensures forall u {:trigger u in MarkDone(s, t, o).firsts} :: u in s.firsts ==> u in MarkDone(s, t, o).firsts && MarkDone(s, t, o).firsts[u] == s.firsts[u]
  {
  }

  /** What happens after a task has ended: its waiter is served, its end announced, owners follow. */
  lemma SmoothAfterEnd(s: RunState, t: TaskId, o: Outcome, b: RunState, c: RunState, d: RunState)
    requires t in s.tasks && Smooth(MarkDone(s, t, o), b, {}, {}) && Smooth(b, c, {}, {}) && Smooth(c, d, {}, Over(c, t))
    ensures Smooth(MarkDone(s, t, o), d, {}, Over(s, t))
  {
    var a := MarkDone(s, t, o);
    EndedOwners(s, t, o);
    SameTree(s, a, t);
    hide Smooth, Over, MarkDone;
    SmoothTree(a, b, {}, {}, t);
    SmoothTree(b, c, {}, {}, t);
    SmoothTrans(a, b, c, {}, {});
    SmoothWeaken(a, c, {}, {}, {}, Over(s, t));
    SmoothTrans(a, c, d, {}, Over(s, t));
  }

  /** An owner that is completing ends, and perhaps its owner. */
  lemma OwnerFollows(s: RunState, t: TaskId, o: Outcome, s': RunState)
    requires Inv(s) && s.Live(t) && s.tasks[t].phase == Completing && !o.Cancelled? && Smooth(MarkDone(s, t, o), s', {}, Over(s, t))
    ensures Smooth(s, s', {}, {t} + Over(s, t))
  {
    SmoothEnd(s, t, o);
    hide Smooth, Over, MarkDone, Inv;
    var a := MarkDone(s, t, o);
    SmoothWeaken(s, a, {}, {t}, {}, {t} + Over(s, t));
    SmoothWeaken(a, s', {}, Over(s, t), {}, {t} + Over(s, t));
    SmoothTrans(s, a, s', {}, {t} + Over(s, t));
  }

  /** The owner of `t` follows. */
  lemma FollowsOver(s: RunState, s': RunState, t: TaskId)
    requires Inv(s) && t in s.tasks
    requires s.tasks[t].owner.Some? ==> var o := s.tasks[t].owner.value; Smooth(s, s', {}, {o} + Over(s, o))
    requires s.tasks[t].owner.None? ==> s' == s
    ensures Smooth(s, s', {}, Over(s, t))
  {
    OverOwner(s, t);
    hide Smooth, Over, Inv;
    if s.tasks[t].owner.None? { SmoothRefl(s, {}, Over(s, t)); }
  }

  /** One more child of `t` has been cancelled. */
  lemma ChildCut(s: RunState, b: RunState, s': RunState, t: TaskId, c: TaskId)
    requires Inv(b) && t in s.tasks && c in s.tasks[t].children && Cascade(s, b) && NoNewStuck(s, b, {})
    requires Falls(s, b, Under(s, t), {t} + Over(s, t)) && Falls(b, s', {c} + Under(b, c), Over(b, c))
    ensures Falls(s, s', Under(s, t), {t} + Over(s, t))
  {
    StillLive(s, b, t);
    assert t in b.tasks && c in b.tasks[t].children;
    UnderChild(b, t, c);
    CascadeOnward(s, b);
    OnwardOwners(s, b);
    SameTree(s, b, t);
    hide Inv, Under, Over, Falls, Cascade, NoNewStuck;
    FallsTrans(s, b, s', Under(s, t), {t} + Over(s, t), {c} + Under(b, c), Over(b, c));
  }

  lemma FallsRefl(s: RunState, z: set<TaskId>, u: set<TaskId>)
    ensures Falls(s, s, z, u)
  {
    SmoothRefl(s, z, u);
  }

  lemma MarkedForm(s0: RunState, s: RunState, t: TaskId)
    requires t in s0.tasks
    ensures var m := Marked(s0, s, t); m == s.(cut := m.cut) && s.cut <= m.cut
  {
  }

  lemma MarkedSame(s0: RunState, s: RunState, m: RunState, t: TaskId)
    requires m == s.(cut := m.cut)
    ensures (CutOff(s0, s) ==> CutOff(s0, m)) && m.LiveSet() == s.LiveSet() && (NoLiveChild(m, t) <==> NoLiveChild(s, t))
  {
    if CutOff(s0, s) {
      forall u | s0.Live(u) && m.IsDone(u) && Quiet(s0.tasks[u]) ensures CancelledFirst(m, u) { assert s.IsDone(u); }
    }
  }

  /** Marking a task as cut is no concern of the others. */
  lemma MarkedKeeps(s0: RunState, s: RunState, m: RunState, x: set<TaskId>)
    requires Inv(s) && Progress(s0, s, {}, {}, x) && m == s.(cut := m.cut) && s.cut <= m.cut
    ensures Inv(m) && Progress(s0, m, {}, {}, x) && Cascade(s0, m)
  {
    hide Inv, Progress, Cascade;
    HistoryKeeps(s, m);
    LogProgress(s, m);
    ProgressThen(s0, s, m, {}, {}, x);
    ProgressCascade(s0, m, {}, {}, x);
  }

  lemma MarkedNow(s0: RunState, s: RunState, t: TaskId)
    requires Inv(s0) && Inv(s) && s0.Live(t) && Progress(s0, s, {}, {}, ChildSet(s0, t)) && CutOff(s0, s) && Cascade(s0, s)
    requires NoLiveChild(s, t) && NoNewStuck(s0, s, {}) && Falls(s0, s, Under(s0, t), {t} + Over(s0, t))
    ensures var m := Marked(s0, s, t);
            && Inv(m) && Progress(s0, m, {}, {}, ChildSet(s0, t)) && Cascade(s0, m) && CutOff(s0, m) && NoLiveChild(m, t) && ReadyToCut(s0, m, t)
            && m == s.(cut := m.cut) && m.LiveSet() <= s0.LiveSet() && m.nextTaskId == s0.nextTaskId && m.tasks == s.tasks && t in m.tasks && m.hostSettled == s0.hostSettled
  {
    MarkedForm(s0, s, t);
    assert t in s.tasks;
    hide Inv, Progress, NoLiveChild, Falls, Over, Under, CutOff, Cascade, NoNewStuck, ReadyToCut, Marked, RunState.LiveSet;
    CascadeLive(s0, s);
    SameIds(s0, s);
    MarkedReady(s0, s, t);
    MarkedKeeps(s0, s, Marked(s0, s, t), ChildSet(s0, t));
    MarkedSame(s0, s, Marked(s0, s, t), t);
  }

  lemma MarkedBack(s: RunState, m: RunState, f: RunState, t: TaskId)
    requires m == s.(cut := m.cut)
    ensures Told(m, f, t, Cancelled) ==> Told(s, f, t, Cancelled)
    ensures NoNewLost(m, f) ==> NoNewLost(s, f)
    ensures Alone(m, t) <==> Alone(s, t)
    ensures t in s.tasks && EndsAlone(m, f, t) ==> EndsAlone(s, f, t)
  {
    SameLost(m, s);
    if NoNewLost(m, f) { StillLost(s, m, f); }
    if Told(m, f, t, Cancelled) {
      forall w | t in s.tasks && w in s.tasks[t].waiters ensures Served(s, f, t, w, Cancelled) { assert Served(m, f, t, w, Cancelled); }
    }
    assert m.LiveSet() == s.LiveSet();
  }

  lemma StillLost(s: RunState, m: RunState, f: RunState)
    requires m == s.(cut := m.cut) && NoNewLost(m, f)
    ensures NoNewLost(s, f)
  {
    SameLost(s, m);
    forall t | Lost(f, t) ensures Lost(s, t) { assert Lost(m, t); }
  }

  lemma CutFirst(s: RunState, t: TaskId)
    requires Answers(s) && t in s.tasks && (s.IsDone(t) ==> CancelledFirst(s, t))
    ensures CancelledFirst(MarkDone(s, t, Cancelled), t)
  {
    assert FirstOk(s, t);
  }

  /** Cancelling `t` has been concluded. */
  lemma CutOffNow(s0: RunState, s: RunState, s': RunState, t: TaskId)
    requires Answers(s) && s0.Live(t) && CutOff(s0, s) && Progress(s0, s', {}, {}, {t})
    requires t in s.tasks && Onward(MarkDone(s, t, Cancelled), s')
    ensures CutOff(s0, s')
  {
    if Quiet(s0.tasks[t]) { CutFirst(s, t); }
    hide Answers, MarkDone, Cascade, NoNewStuck, NoNewUnswept;
    forall u | s0.Live(u) && s'.IsDone(u) && Quiet(s0.tasks[u]) ensures CancelledFirst(s', u) {
      if u != t { assert Orphaned(s', u); } else { assert t in s'.firsts; }
    }
  }

  lemma CancelledWithout(s: RunState, t: TaskId)
    requires EndsWith(s, t, Cancelled)
    ensures EndedWithoutValue(s, t)
  {
  }

  lemma FirstsSince(s: RunState, t: TaskId, o: Outcome, s': RunState, z: set<TaskId>, u: set<TaskId>)
    requires t in s.tasks && Smooth(MarkDone(s, t, o), s', z, u)
    ensures forall v {:trigger v in s'.firsts} :: v in s.firsts ==> v in s'.firsts && s'.firsts[v] == s.firsts[v]
  {
    EndedOwners(s, t, o);
    forall v | v in s.firsts ensures v in s'.firsts && s'.firsts[v] == s.firsts[v] { assert v in MarkDone(s, t, o).firsts; }
  }

  lemma CancelConcluded(s0: RunState, s: RunState, s': RunState, t: TaskId)
    requires Inv(s0) && Inv(s) && s0.Live(t) && CutOff(s0, s) && Cascade(s0, s) && t in s.tasks && NoLiveChild(s, t) && ReadyToCut(s0, s, t)
    requires Progress(s0, s', {}, {}, {t} + ChildSet(s0, t)) && EndsWith(s', t, Cancelled)
    requires Cascade(s0, MarkDone(s, t, Cancelled)) && Smooth(MarkDone(s, t, Cancelled), s', {}, Over(s, t))
    ensures Progress(s0, s', {}, {}, {t}) && CutOff(s0, s') && Falls(s0, s', {t} + Under(s0, t), Over(s0, t))
  {
    hide Inv, Progress, CutOff, Cascade, NoLiveChild, ReadyToCut, Smooth, Over, Under, EndsWith, Falls, ChildrenCut, MarkDone;
    FirstsSince(s, t, Cancelled, s', {}, Over(s, t));
    CutChildren(s0, s, s', t);
    CancelledWithout(s', t);
    ForgetChildren(s0, s', t);
    ConcludedCut(s0, s, s', t);
    CascadeOnward(s0, s);
    OnwardOwners(s0, s);
    SameTree(s0, s, t);
    CutEnds(s0, s, t);
    FallsThen(s0, MarkDone(s, t, Cancelled), s', {t} + Under(s0, t), Over(s0, t), {}, Over(s, t));
  }

  lemma ConcludedCut(s0: RunState, s: RunState, s': RunState, t: TaskId)
    requires Inv(s) && s0.Live(t) && CutOff(s0, s) && Cascade(s0, s) && t in s.tasks && Progress(s0, s', {}, {}, {t})
    requires Smooth(MarkDone(s, t, Cancelled), s', {}, Over(s, t))
    ensures CutOff(s0, s')
  {
    hide Progress, CutOff, Cascade, Over, MarkDone;
    hide Tree, Phases, Subtrees, Queue, Waits, Requests, Consumers, Failures, Settled, Answers, Askings, Gifts;
    CutOffNow(s0, s, s', t);
  }

  lemma ReportEnds(s: RunState, s': RunState, t: TaskId)
    requires t in s.tasks && s.tasks[t].terminal.Some? && s' == ReportUnhandled(s, t)
    ensures NothingEnds(s, s') && SameOwners(s, s') && Over(s', t) == Over(s, t)
  {
    SameCutting(s, s');
    SameTree(s, s', t);
  }

  lemma FinalizedEnds(s: RunState, s': RunState)
    requires s' == s.(asleep := s'.asleep) && Inv(s')
    ensures NothingEnds(s, Finalized(s'))
  {
    FinalizedForm(s');
    SameCutting(s, Finalized(s'));
  }

  lemma WakeReports(s: RunState, b: RunState)
    requires Inv(s) && b == s.(asleep := false)
    ensures Inv(b) && Progress(s, b, {}, {}, {}) && NoNewLost(s, b)
  {
    hide Inv;
    HistoryKeeps(s, b);
    LogProgress(s, b);
    SameLost(s, b);
  }

  lemma ReportsSame(s: RunState, b: RunState, s': RunState)
    requires Inv(s) && (b == s || b == s.(asleep := false)) && Inv(b) && s' == Finalized(b)
    ensures NothingEnds(s, s') && s'.asleep == b.asleep && s'.LiveSet() == s.LiveSet() && s'.frames == s.frames && s'.resumed == s.resumed && s'.tokens == s.tokens
  {
    FinalizedEnds(s, b);
    FinalizedSame(b);
    FinalizedForm(b);
    hide Inv, Finalized;
  }

  /** The run loop may have been woken, and whatever outcome can be reported is reported. */
  lemma Reports(s: RunState, b: RunState, s': RunState)
    requires Inv(s) && (b == s || b == s.(asleep := false)) && Inv(b) && s' == Finalized(b)
    ensures Inv(s') && !Unsettled(s') && Progress(s, s', {}, {}, {}) && NothingEnds(s, s') && NoNewLost(s, s')
    ensures s'.asleep == b.asleep && s'.LiveSet() == s.LiveSet() && s'.frames == s.frames && s'.resumed == s.resumed && s'.tokens == s.tokens
  {
    ReportsSame(s, b, s');
    FinalizedSame(b);
    ProgressRefl(s);
    NotLostRefl(s);
    hide Inv, Progress, Unsettled, NothingEnds, NoNewLost, Finalized, RunState.LiveSet;
    if b != s { WakeReports(s, b); }
    FinalizedKeeps(b);
    FinalizedProgress(b);
    ProgressThen(s, b, s', {}, {}, {});
    NotLostTrans(s, b, s');
  }

  /** The waiter has been resumed, unless its request has no frame any more. */
  lemma Woken(s0: RunState, s1: RunState, s: RunState, a: RunState, id: TaskId, w: Waiter, o: Outcome, k: set<TaskId>, x: set<TaskId>)
    requires AboutToWake(s0, s1, s, id, w, k, x) && id in s.firsts && s.firsts[id] == o
    requires a == if w.request in s.frames then Spend(s, w.task, w.request, Status(WaitStatus(o))) else s
    ensures Inv(a) && Progress(s0, a, k, {id}, x) && Cascade(s, a) && Smooth(s, a, {}, {}) && a.LiveSet() == s.LiveSet()
    ensures a.tasks.Keys == s.tasks.Keys && a.running == s.running && a.hooked == s.hooked && a.nextTaskId == s.nextTaskId
    ensures w.task in a.tasks && MayComplete(a, w.task) && (a.Live(w.task) <==> s.Live(w.task))
    ensures a.Live(w.task) ==> MayQueue(a, w.task, RawOutcome) && a.tasks[w.task].phase == Waiting && a.tasks[w.task].blocker == InHand && a.running != Some(w.task)
    ensures !a.Live(w.task) ==> AlreadyEnding(a, w.task)
  {
    var p := Status(WaitStatus(o));
    assert w.task in s.tasks && Inv(s) && Progress(s0, s, k, {id}, x);
    hide Inv, Progress, AboutToWake, Cascade, Smooth, NothingEnds, RunState.LiveSet, MayQueue, MayComplete;
    if w.request in s.frames {
      SpendWake(s0, s1, s, id, w, o, k, x);
      SpendLive(s, w.task, w.request, p);
      SpendEnds(s, w.task, w.request, p);
      Smoothly(s, a);
    } else {
      SkippedWake(s0, s1, s, id, w, o, k, x);
      SmoothRefl(s, {}, {});
    }
    SameIds(s, a);
    hide Spend;
    assert !a.Live(w.task) ==> AlreadyEnding(a, w.task);
  }

  /** The waiter trapped, or had ended before. */
  lemma SmoothFailure(s: RunState, b: RunState, s': RunState, w: Waiter, p: Payload)
    requires w.task in s.tasks && b == (if w.request in s.frames then Spend(s, w.task, w.request, p) else s)
    requires AskedEarly(s, w.request) && Cascade(b, s')
    requires if w.request in s.frames then b.traps(w.request) else s' == DropFrames(b, w.task)
    ensures Smooth(b, s', {}, {})
  {
    if w.request in s.frames {
      hide Cascade;
      assert AskedEarly(b, w.request) && b.traps(w.request);
      SmoothTrapped(b, s', w.request);
    } else {
      DroppedCuts(b, w.task, s');
      hide NothingEnds, Smooth;
      Smoothly(b, s');
    }
  }

  // ---------------------------------------------------------------- cancelling all children

  /** What cancelling children of `t` has come to. */
  ghost predicate Cut(s: RunState, b: RunState, t: TaskId, x: set<TaskId>) {
    && t in s.tasks && Progress(s, b, {}, {}, x) && CutOff(s, b) && NoNewLost(s, b)
    && Falls(s, b, Under(s, t), {t} + Over(s, t))
  }

  lemma StartCancelling(s: RunState, t: TaskId, x: set<TaskId>)
    requires t in s.tasks
    ensures Cut(s, s, t, x)
  {
    hide Falls, Under, Over, Lost;
    ProgressRefl(s);
    ProgressWeaken(s, s, {}, {}, {}, {}, {}, x);
    FallsRefl(s, Under(s, t), {t} + Over(s, t));
  }

  lemma ChildDone(s: RunState, b: RunState, s': RunState, t: TaskId, c: TaskId, x: set<TaskId>)
    requires Inv(b) && Cut(s, b, t, x) && c in s.tasks[t].children && x == ChildSet(s, t)
    requires Progress(b, s', {}, {}, {c}) && CutOff(b, s') && NoNewLost(b, s') && Falls(b, s', {c} + Under(b, c), Over(b, c))
    ensures Cut(s, s', t, x)
  {
    assert NoNewStuck(s, b, {});
    hide Inv, Progress, CutOff, Falls, Under, Over, Lost, NoNewStuck;
    ProgressCascade(s, b, {}, {}, x);
    ProgressCascade(b, s', {}, {}, {c});
    CutOffTrans(s, b, s');
    ChildCut(s, b, s', t, c);
    AddTarget(s, b, s', x, c);
    NotLostTrans(s, b, s');
  }

  lemma ChildrenDone(s0: RunState, s: RunState, s': RunState, t: TaskId, x: set<TaskId>)
    requires Progress(s0, s, {}, {}, {}) && Cut(s, s', t, x)
    ensures Progress(s0, s', {}, {}, x) && Cascade(s, s') && NoNewLost(s, s') && NoNewStuck(s, s', {}) && CutOff(s, s')
    ensures Falls(s, s', Under(s, t), {t} + Over(s, t))
  {
    hide CutOff, Falls, Under, Over, Lost, Cascade, NoNewStuck, NoNewUnswept, Orphans;
    ProgressTrans(s0, s, s', {}, {}, {}, {}, {}, x);
    ProgressWeaken(s0, s', {} + {}, {} + {}, {} + x, {}, {}, x);
  }

  lemma NothingCancelled(s: RunState, t: TaskId)
    requires s.IsDone(t)
    ensures Progress(s, s, {}, {}, {t}) && CutOff(s, s) && Falls(s, s, {t} + Under(s, t), Over(s, t)) && NoNewLost(s, s)
  {
    ProgressRefl(s);
    hide Falls, Under, Over, Lost;
    ProgressWeaken(s, s, {}, {}, {}, {}, {}, {t});
    FallsRefl(s, {t} + Under(s, t), Over(s, t));
  }

  /** Task `t`, whose children have been cancelled, may be cancelled, even if it has ended meanwhile. */
  lemma MayCancel(s0: RunState, s: RunState, t: TaskId)
    requires Inv(s0) && Inv(s) && t in s.tasks && s0.Live(t) && Progress(s0, s, {}, {}, ChildSet(s0, t)) && Cascade(s0, s)
    requires NoLiveChild(s, t) && (t == ROOT ==> s.hostSettled)
    ensures MayEnd(s, t, Cancelled) && Progress(s0, s, {}, {}, {t} + ChildSet(s0, t)) && (s.IsDone(t) ==> Unheard(s, t))
    ensures s0.tasks[t].children == s.tasks[t].children
  {
    hide Inv, Progress, NoLiveChild, MayEnd, Unheard;
    StillLive(s0, s, t);
    ProgressWeaken(s0, s, {}, {}, ChildSet(s0, t), {}, {}, {t} + ChildSet(s0, t));
    if s.IsDone(t) { NotUnswept(s0, s, t, {t} + ChildSet(s0, t)); }
    WasLive(s0, s, t);
    MayEndNow(s, t, Cancelled);
  }

  // ---------------------------------------------------------------- failing

  lemma CutOffDropped(s: RunState, t: TaskId, s': RunState)
    requires CutOff(DropFrames(s, t), s')
    ensures CutOff(s, s')
  {
    forall u | s.Live(u) && s'.IsDone(u) && Quiet(s.tasks[u]) ensures CancelledFirst(s', u) { assert DropFrames(s, t).Live(u); }
  }

  lemma FailureConcluded(s0: RunState, s1: RunState, s: RunState, s': RunState, t: TaskId, o: Outcome)
    requires Inv(s0) && Inv(s) && s0.Live(t) && Quiet(s0.tasks[t]) && s1 == DropFrames(s0, t) && t in s.tasks && NoLiveChild(s, t)
    requires CutOff(s0, s) && Cascade(s1, s) && Falls(s1, s, Under(s1, t), {t} + Over(s1, t))
    requires Smooth(MarkDone(s, t, o), s', {}, Over(s, t)) && EndedWithoutValue(s', t) && Progress(s0, s', {}, {}, {t} + ChildSet(s0, t))
    requires Progress(s0, s1, {}, {}, {})
    ensures Progress(s0, s', {}, {}, {t}) && CutGoesOn(s1, s')
  {
    assert s1.Live(t) && s1.tasks[t].phase != Completing && Answers(s);
    hide Inv, Progress, CutOff, Cascade, NoLiveChild, Smooth, Over, Under, Falls, ChildrenCut, MarkDone, DropFrames, Answers, CutGoesOn, EndedWithoutValue;
    ProgressCascade(s0, s1, {}, {}, {});
    CascadeTrans(s0, s1, s);
    FirstsSince(s, t, o, s', {}, Over(s, t));
    CutChildren(s0, s, s', t);
    ForgetChildren(s0, s', t);
    FailureCuts(s1, s, s', t, o, Over(s, t));
  }

  // ---------------------------------------------------------------- at rest

  ghost predicate CutStays(s: RunState, s': RunState) {
    CarriesOn(s') && CutExact(s) ==> CutExact(s')
  }

  lemma CutStaysNow(s: RunState, s': RunState)
    requires NoneStuck(s) && CutGoesOn(s, s') && s'.asked == s.asked && s'.traps == s.traps
    ensures CutStays(s, s') && (CarriesOn(s') ==> CarriesOn(s))
  {
    forall r ensures AskedEarly(s', r) <==> AskedEarly(s, r) {}
    hide CutExact, NoneStuck;
  }
}
