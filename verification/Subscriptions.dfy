/** Running subscriptions: a table keyed by identity, brought in line with what a program asks
    for, and the retained handlers that the entries of the table own together. */
module Subscriptions {
  import opened Options

  type Key = nat
  type Signature = nat
  type HandlerId = nat
  type RunnerId = nat

  /** A flattened subscription: its identity, what it does, and the message mappers around it. */
  datatype Subscription = Subscription(key: Key, signature: Signature, mappers: seq<HandlerId>, owned: seq<HandlerId>)

  /** An entry of the table. `runner` tells apart the runners that were started. */
  datatype Record = Record(signature: Signature, runner: RunnerId, mappers: seq<HandlerId>, owned: seq<HandlerId>)

  datatype SyncError = NoRunner | RunnerFailed | DisposerFailed

  /** What starting a runner comes to. */
  datatype Start = Started | Unknown | Fails

  type Table = map<Key, Record>

  ghost predicate Distinct<T>(q: seq<T>) {
    forall i, j :: 0 <= i < j < |q| ==> q[i] != q[j]
  }

  // ---------------------------------------------------------------- who owns a handler

  predicate Owns(active: Table, k: Key, id: HandlerId) {
    k in active && id in active[k].owned
  }

  /** Some active subscription owns the handler. */
  predicate Used(active: Table, id: HandlerId) {
    exists k :: k in active && Owns(active, k, id)
  }

  ghost function Owned(active: Table): (s: set<HandlerId>)
    ensures forall id :: id in s <==> Used(active, id)
  {
    set k, i | k in active && 0 <= i < |active[k].owned| :: active[k].owned[i]
  }

  function Elements(ids: seq<HandlerId>): (s: set<HandlerId>)
    ensures forall x :: x in s <==> x in ids
  {
    set x | x in ids
  }

  /** The distinct ids among `ids` that no active subscription owns. */
  function Inactive(active: Table, ids: seq<HandlerId>): seq<HandlerId> {
    if ids == [] then []
    else
      var last := ids[|ids| - 1];
      var rest := Inactive(active, ids[..|ids| - 1]);
      if last in rest || Used(active, last) then rest else rest + [last]
  }

  lemma {:induction false} InactiveMeaning(active: Table, ids: seq<HandlerId>)
    ensures Distinct(Inactive(active, ids))
    ensures forall id :: id in Inactive(active, ids) <==> id in ids && !Used(active, id)
  {
    if ids != [] {
      InactiveMeaning(active, ids[..|ids| - 1]);
      assert ids == ids[..|ids| - 1] + [ids[|ids| - 1]];
    }
  }

  /** What leaves the set of owned handlers when entry `k` leaves the table: the handlers that it
      owned and no other entry owns. */
  lemma OwnedWithout(active: Table, k: Key)
    requires k in active
    ensures Owned(active - {k}) <= Owned(active)
    ensures Owned(active) - Owned(active - {k}) == Elements(active[k].owned) - Owned(active - {k})
  {
    var rest := active - {k};
    forall id ensures Used(active, id) <==> Used(rest, id) || id in active[k].owned {
      if id in active[k].owned { assert Owns(active, k, id); }
      if j :| j in active && Owns(active, j, id) { if j != k { assert Owns(rest, j, id); } }
      if j :| j in rest && Owns(rest, j, id) { assert Owns(active, j, id); }
    }
  }

  lemma OwnedWith(active: Table, k: Key, r: Record)
    ensures Owned(active[k := r]) == Owned(active - {k}) + Elements(r.owned)
  {
    var next := active[k := r];
    assert next - {k} == active - {k};
    OwnedWithout(next, k);
    var rest := active - {k};
    forall id ensures id in Owned(next) <==> id in Owned(rest) || id in Elements(r.owned) {
      assert id in Owned(next) - Owned(rest) <==> id in Elements(r.owned) - Owned(rest);
    }
  }

  // ---------------------------------------------------------------- what is asked for

  /** The last subscription for key `k`; an earlier one for the same key is replaced by it. */
  function LastFor(next: seq<Subscription>, k: Key): Option<Subscription> {
    if next == [] then None
    else if next[|next| - 1].key == k then Some(next[|next| - 1])
    else LastFor(next[..|next| - 1], k)
  }

  predicate Asked(next: seq<Subscription>, k: Key) {
    exists i :: 0 <= i < |next| && next[i].key == k
  }

  lemma {:induction false} LastForAsked(next: seq<Subscription>, k: Key)
    ensures LastFor(next, k).Some? <==> Asked(next, k)
    ensures LastFor(next, k).Some? ==> LastFor(next, k).value.key == k
  {
    if next != [] && next[|next| - 1].key != k {
      var front := next[..|next| - 1];
      LastForAsked(front, k);
      if i :| 0 <= i < |next| && next[i].key == k { assert front[i].key == k; }
    }
  }

  predicate Matches(r: Record, s: Subscription) {
    r.signature == s.signature && r.mappers == s.mappers && r.owned == s.owned
  }

  /** Everything that is asked for under key `k` does what the entry `r` does. */
  predicate Unchanged(next: seq<Subscription>, k: Key, r: Record) {
    forall i :: 0 <= i < |next| && next[i].key == k ==> next[i].signature == r.signature
  }

  // ---------------------------------------------------------------- what bringing the table in line releases

  /** What going through `s` releases: what only the old entry owned. An entry that does the same
      is kept, and then what it still owns; one that does something else leaves the table before
      the new one joins it. */
  ghost function ApplyReleases(active: Table, s: Subscription): set<HandlerId> {
    if s.key !in active then {}
    else if active[s.key].signature == s.signature then Elements(active[s.key].owned) - Elements(s.owned) - Owned(active - {s.key})
    else Elements(active[s.key].owned) - Owned(active - {s.key})
  }

  /** The entry for key `k` when the first `i` subscriptions have been gone through: the last one
      of them, or else the entry that was there and is still asked for. */
  function EntryAt(before: Table, next: seq<Subscription>, i: nat, k: Key): Option<(Signature, seq<HandlerId>)>
    requires i <= |next|
  {
    var last := LastFor(next[..i], k);
    if last.Some? then Some((last.value.signature, last.value.owned))
    else if k in before && Asked(next, k) then Some((before[k].signature, before[k].owned))
    else None
  }

  predicate OwnsAt(before: Table, next: seq<Subscription>, i: nat, k: Key, id: HandlerId)
    requires i <= |next|
  {
    EntryAt(before, next, i, k).Some? && id in EntryAt(before, next, i, k).value.1
  }

  /** Going through subscription `i` releases `id`: the entry for its key owns it, is to be
      restarted or gives it up, and no other entry owns it at that moment. */
  ghost predicate StepReleases(before: Table, next: seq<Subscription>, i: nat, id: HandlerId)
    requires i < |next|
  {
    && OwnsAt(before, next, i, next[i].key, id)
    && (EntryAt(before, next, i, next[i].key).value.0 == next[i].signature ==> id !in next[i].owned)
    && forall k {:trigger OwnsAt(before, next, i, k, id)} :: k != next[i].key ==> !OwnsAt(before, next, i, k, id)
  }

  /** Stopping what is not asked for any more releases `id`. */
  ghost predicate StopReleases(before: Table, next: seq<Subscription>, id: HandlerId) {
    Used(before, id) && forall k {:trigger Owns(before, k, id)} :: Owns(before, k, id) ==> !Asked(next, k)
  }

  /** How often `id` is released by stopping and going through the first `i` subscriptions. */
  ghost function Releases(before: Table, next: seq<Subscription>, i: nat, id: HandlerId): nat
    requires i <= |next|
  {
    if i == 0 then (if StopReleases(before, next, id) then 1 else 0)
    else Releases(before, next, i - 1, id) + if StepReleases(before, next, i - 1, id) then 1 else 0
  }

  lemma {:induction false} ReleasesMore(before: Table, next: seq<Subscription>, i: nat, j: nat, id: HandlerId)
    requires i <= j <= |next|
    ensures Releases(before, next, i, id) <= Releases(before, next, j, id)
  {
    if i < j { ReleasesMore(before, next, i, j - 1, id); }
  }

  /** A handler that is owned after one subscription has been gone through has been released by
      that if and only if its entry was restarted, both entries own it, and no other one does. */
  lemma ReleasedWhileOwnedIff(active: Table, s: Subscription, after: Table, id: HandlerId)
    requires after.Keys == active.Keys + {s.key} && after[s.key].owned == s.owned && forall k :: k in active && k != s.key ==> after[k] == active[k]
    ensures Used(after, id) && id in ApplyReleases(active, s) <==>
              && s.key in active && active[s.key].signature != s.signature
              && id in active[s.key].owned && id in s.owned && forall k :: k in active && k != s.key ==> id !in active[k].owned
  {
    var rest := active - {s.key};
    assert id in Owned(rest) <==> exists k :: k in active && k != s.key && id in active[k].owned by {
      if k :| k in active && k != s.key && id in active[k].owned { assert Owns(rest, k, id); }
      if k :| k in rest && Owns(rest, k, id) { assert k in active && k != s.key && id in active[k].owned; }
    }
    assert Used(after, id) <==> id in s.owned || id in Owned(rest) by {
      if id in s.owned { assert Owns(after, s.key, id); }
      if k :| k in rest && Owns(rest, k, id) { assert Owns(after, k, id); }
      if k :| k in after && Owns(after, k, id) { if k != s.key { assert Owns(rest, k, id); } }
    }
  }

  /** Restarting an entry that keeps its handler releases the handler, although it is owned. */
  lemma RestartReleasesItsOwn()
    ensures var before: Table := map[1 := Record(10, 0, [7], [7])]; var next := [Subscription(1, 11, [7], [7])];
            Releases(before, next, 1, 7) == 1 && OwnsAt(before, next, 1, 1, 7)
  {
    var before: Table := map[1 := Record(10, 0, [7], [7])];
    var next := [Subscription(1, 11, [7], [7])];
    assert next[..0] == [] && next[..1] == next && next[0].key == 1;
    assert Asked(next, 1) && Owns(before, 1, 7);
    assert LastFor([], 1) == None && LastFor(next, 1) == Some(next[0]);
    assert !StopReleases(before, next, 7);
    forall k | k != 1 ensures !OwnsAt(before, next, 0, k, 7) { assert LastFor([], k) == None; }
    assert OwnsAt(before, next, 0, 1, 7) && StepReleases(before, next, 0, 7);
    assert Releases(before, next, 0, 7) == 0;
  }

  /** A handler moves from an entry that is not asked for any more to a new one: it is released too. */
  lemma MovedHandlerIsReleased()
    ensures var before: Table := map[1 := Record(10, 0, [7], [7])]; var next := [Subscription(2, 10, [7], [7])];
            Releases(before, next, 1, 7) == 1 && OwnsAt(before, next, 1, 2, 7)
  {
    var before: Table := map[1 := Record(10, 0, [7], [7])];
    var next := [Subscription(2, 10, [7], [7])];
    assert next[..0] == [] && next[..1] == next;
    assert Owns(before, 1, 7) && Used(before, 7);
    assert LastFor([], 2) == None && LastFor(next, 2) == Some(next[0]);
    assert StopReleases(before, next, 7) && !StepReleases(before, next, 0, 7);
    assert Releases(before, next, 0, 7) == 1;
  }

  lemma {:induction false} CountDistinct(q: seq<HandlerId>, id: HandlerId)
    requires Distinct(q)
    ensures multiset(q)[id] == if id in q then 1 else 0
  {
    if q != [] {
      CountDistinct(q[1..], id);
      assert q == [q[0]] + q[1..];
    }
  }

  /** The table agrees with what each key's entry should be by now. */
  ghost predicate TableAt(before: Table, next: seq<Subscription>, i: nat, active: Table)
    requires i <= |next|
  {
    forall k {:trigger EntryAt(before, next, i, k)} ::
      && (k in active <==> EntryAt(before, next, i, k).Some?)
      && (k in active ==> EntryAt(before, next, i, k).value == (active[k].signature, active[k].owned))
  }

  /** Going through subscription `i` releases what `StepReleases` says. */
  lemma StepReleasesWhat(before: Table, next: seq<Subscription>, i: nat, active: Table, id: HandlerId)
    requires i < |next| && TableAt(before, next, i, active)
    ensures id in ApplyReleases(active, next[i]) <==> StepReleases(before, next, i, id)
  {
    var k := next[i].key;
    var rest := active - {k};
    hide LastFor, Asked, EntryAt;
    assert EntryAt(before, next, i, k).Some? <==> k in active;
    if j :| j in rest && Owns(rest, j, id) { assert EntryAt(before, next, i, j).Some?; assert OwnsAt(before, next, i, j, id); }
    if j :| j != k && OwnsAt(before, next, i, j, id) { assert EntryAt(before, next, i, j).Some?; assert Owns(rest, j, id); }
  }

  /** One more step adds what it releases to the count. */
  lemma OneMoreRelease(before: Table, next: seq<Subscription>, i: nat, active: Table, q: seq<HandlerId>, p: seq<HandlerId>, id: HandlerId)
    requires i < |next| && TableAt(before, next, i, active) && Distinct(p) && Elements(p) == ApplyReleases(active, next[i])
    requires multiset(q)[id] == Releases(before, next, i, id)
    ensures multiset(q + p)[id] == Releases(before, next, i + 1, id)
  {
    hide TableAt, StepReleases, ApplyReleases;
    StepReleasesWhat(before, next, i, active, id);
    CountDistinct(p, id);
  }

  lemma {:induction false} ReleasedSomewhere(before: Table, next: seq<Subscription>, i: nat, id: HandlerId)
    requires i <= |next|
    ensures Releases(before, next, i, id) > 0 <==> StopReleases(before, next, id) || exists j :: 0 <= j < i && StepReleases(before, next, j, id)
  {
    if i > 0 { ReleasedSomewhere(before, next, i - 1, id); }
  }

  /** Which handlers are owned after a sync although it released them: those that the request
      gives an owner in the end, and that were without one at some moment after having had one. */
  lemma OwnedYetReleasedIff(before: Table, next: seq<Subscription>, after: Table, q: seq<HandlerId>, id: HandlerId)
    requires TableAt(before, next, |next|, after) && multiset(q)[id] == Releases(before, next, |next|, id)
    ensures Used(after, id) && id in q <==>
              && (exists k :: Asked(next, k) && LastFor(next, k).Some? && id in LastFor(next, k).value.owned)
              && (StopReleases(before, next, id) || exists i :: 0 <= i < |next| && StepReleases(before, next, i, id))
  {
    ReleasedSomewhere(before, next, |next|, id);
    assert id in q <==> multiset(q)[id] > 0;
    assert next[..|next|] == next;
    hide Releases, StopReleases, StepReleases;
    if k :| k in after && Owns(after, k, id) {
      assert EntryAt(before, next, |next|, k).Some?;
      LastForAsked(next, k);
    }
    if k :| Asked(next, k) && LastFor(next, k).Some? && id in LastFor(next, k).value.owned {
      assert EntryAt(before, next, |next|, k).Some?;
      assert Owns(after, k, id);
    }
  }

  // ---------------------------------------------------------------- requests with distinct keys

  ghost predicate KeysDiffer(next: seq<Subscription>) {
    forall i, j :: 0 <= i < j < |next| ==> next[i].key != next[j].key
  }

  /** The old entry for subscription `i` owns the handler. */
  predicate OldOwner(before: Table, next: seq<Subscription>, i: nat, id: HandlerId)
    requires i < |next|
  {
    Owns(before, next[i].key, id)
  }

  predicate NewOwner(next: seq<Subscription>, i: nat, id: HandlerId)
    requires i < |next|
  {
    id in next[i].owned
  }

  predicate Restarted(before: Table, next: seq<Subscription>, i: nat)
    requires i < |next|
  {
    next[i].key in before && before[next[i].key].signature != next[i].signature
  }

  /** Every old owner stands before every new one, or in its place and is restarted. */
  ghost predicate OldBeforeNew(before: Table, next: seq<Subscription>, id: HandlerId) {
    forall i, j {:trigger OldOwner(before, next, i, id), NewOwner(next, j, id)} ::
      0 <= i < |next| && 0 <= j < |next| && OldOwner(before, next, i, id) && NewOwner(next, j, id) ==>
        i < j || (i == j && Restarted(before, next, i))
  }

  lemma {:induction false} LastForDistinct(next: seq<Subscription>, i: nat, j: nat)
    requires KeysDiffer(next) && i <= |next| && j < |next|
    ensures LastFor(next[..i], next[j].key) == if j < i then Some(next[j]) else None
  {
    if i > 0 {
      AskedNext(next, i - 1);
      LastForDistinct(next, i - 1, j);
    }
  }

  /** Where subscription `j` stands when the first `i` have been gone through. */
  lemma OwnsAtDistinct(before: Table, next: seq<Subscription>, i: nat, j: nat, id: HandlerId)
    requires KeysDiffer(next) && i <= |next| && j < |next|
    ensures OwnsAt(before, next, i, next[j].key, id) <==> if j < i then NewOwner(next, j, id) else OldOwner(before, next, j, id)
    ensures j >= i && next[j].key in before ==> EntryAt(before, next, i, next[j].key) == Some((before[next[j].key].signature, before[next[j].key].owned))
  {
    LastForDistinct(next, i, j);
    assert Asked(next, next[j].key);
  }

  lemma {:induction false} UnaskedNowhere(next: seq<Subscription>, i: nat, k: Key)
    requires i <= |next| && !Asked(next, k)
    ensures LastFor(next[..i], k) == None
  {
    if i > 0 {
      AskedNext(next, i - 1);
      UnaskedNowhere(next, i - 1, k);
    }
  }

  /** Going through subscription `i` releases a handler: its old entry is the last that owns it, is
      restarted or gives it up, and no new entry before it owns it. */
  lemma StepReleasesDistinct(before: Table, next: seq<Subscription>, i: nat, id: HandlerId)
    requires KeysDiffer(next) && i < |next|
    ensures StepReleases(before, next, i, id) <==>
              && OldOwner(before, next, i, id) && (Restarted(before, next, i) || !NewOwner(next, i, id))
              && (forall j {:trigger NewOwner(next, j, id)} :: 0 <= j < i ==> !NewOwner(next, j, id))
              && forall j {:trigger OldOwner(before, next, j, id)} :: i < j < |next| ==> !OldOwner(before, next, j, id)
  {
    OwnsAtDistinct(before, next, i, i, id);
    hide EntryAt, LastFor, OwnsAt, OldOwner, NewOwner, Asked;
    forall j | 0 <= j < |next| ensures OwnsAt(before, next, i, next[j].key, id) <==> if j < i then NewOwner(next, j, id) else OldOwner(before, next, j, id) {
      OwnsAtDistinct(before, next, i, j, id);
    }
    if StepReleases(before, next, i, id) {
      forall j | 0 <= j < |next| && j != i ensures !OwnsAt(before, next, i, next[j].key, id) { assert next[j].key != next[i].key; }
    }
    forall k | OwnsAt(before, next, i, k, id) ensures exists j :: 0 <= j < |next| && next[j].key == k { OwnerIsAsked(before, next, i, k, id); }
    OldIs(before, next, i, id);
  }

  lemma OldIs(before: Table, next: seq<Subscription>, i: nat, id: HandlerId)
    requires i < |next| && KeysDiffer(next)
    ensures OldOwner(before, next, i, id) ==> next[i].key in before
    ensures OldOwner(before, next, i, id) ==>
              EntryAt(before, next, i, next[i].key) == Some((before[next[i].key].signature, before[next[i].key].owned))
    ensures NewOwner(next, i, id) <==> id in next[i].owned
  {
    OwnsAtDistinct(before, next, i, i, id);
  }

  lemma OwnerIsAsked(before: Table, next: seq<Subscription>, i: nat, k: Key, id: HandlerId)
    requires i <= |next| && OwnsAt(before, next, i, k, id)
    ensures exists j :: 0 <= j < |next| && next[j].key == k
  {
    if !Asked(next, k) { UnaskedNowhere(next, i, k); }
  }

  /** Of a request with distinct keys: a handler is owned afterwards although the sync released it if
      and only if it had an owner, has one, and every old owner that is asked for stands before every
      new one, or in its place and is restarted. */
  lemma OwnedYetReleasedWhenDistinct(before: Table, next: seq<Subscription>, after: Table, q: seq<HandlerId>, id: HandlerId)
    requires KeysDiffer(next) && TableAt(before, next, |next|, after) && multiset(q)[id] == Releases(before, next, |next|, id)
    ensures Used(after, id) && id in q <==>
              && Used(before, id) && (exists j :: 0 <= j < |next| && NewOwner(next, j, id))
              && OldBeforeNew(before, next, id)
  {
    OwnedYetReleasedIff(before, next, after, q, id);
    OwnedInTheEnd(before, next, id);
    ReleasedAtAll(before, next, id);
    hide OldOwner, NewOwner, Used, StepReleases, StopReleases, TableAt, Releases, Asked, LastFor, Restarted, KeysDiffer;
  }

  lemma OwnedInTheEnd(before: Table, next: seq<Subscription>, id: HandlerId)
    requires KeysDiffer(next)
    ensures (exists k :: Asked(next, k) && LastFor(next, k).Some? && id in LastFor(next, k).value.owned) <==> exists j :: 0 <= j < |next| && NewOwner(next, j, id)
  {
    assert next[..|next|] == next;
    forall j | 0 <= j < |next| ensures LastFor(next, next[j].key) == Some(next[j]) { LastForDistinct(next, |next|, j); }
    if k :| Asked(next, k) && LastFor(next, k).Some? && id in LastFor(next, k).value.owned {
      var j :| 0 <= j < |next| && next[j].key == k;
      assert NewOwner(next, j, id);
    }
    if j :| 0 <= j < |next| && NewOwner(next, j, id) { assert Asked(next, next[j].key); }
  }

  /** The last subscription whose old entry owns the handler. */
  lemma {:induction false} LastOldOwner(before: Table, next: seq<Subscription>, n: nat, id: HandlerId) returns (m: nat)
    requires n <= |next| && exists i :: 0 <= i < n && OldOwner(before, next, i, id)
    ensures m < n && OldOwner(before, next, m, id) && forall j :: m < j < n ==> !OldOwner(before, next, j, id)
  {
    if OldOwner(before, next, n - 1, id) { m := n - 1; } else { m := LastOldOwner(before, next, n - 1, id); }
  }

  /** What a request with distinct keys and a new owner releases at some moment. */
  lemma ReleasedAtAll(before: Table, next: seq<Subscription>, id: HandlerId)
    requires KeysDiffer(next)
    ensures (exists j :: 0 <= j < |next| && NewOwner(next, j, id)) ==>
              ((StopReleases(before, next, id) || exists i :: 0 <= i < |next| && StepReleases(before, next, i, id)) <==>
               && Used(before, id)
               && OldBeforeNew(before, next, id))
  {
    StopsWithoutOldOwner(before, next, id);
    forall i | 0 <= i < |next|
      ensures StepReleases(before, next, i, id) <==>
                && OldOwner(before, next, i, id) && (Restarted(before, next, i) || !NewOwner(next, i, id))
                && (forall j {:trigger NewOwner(next, j, id)} :: 0 <= j < i ==> !NewOwner(next, j, id))
                && forall j {:trigger OldOwner(before, next, j, id)} :: i < j < |next| ==> !OldOwner(before, next, j, id)
    {
      StepReleasesDistinct(before, next, i, id);
    }
    OldOwnerUses(before, next, id);
    hide OldOwner, NewOwner, Used, StepReleases, StopReleases, Restarted, KeysDiffer;
    if exists i :: 0 <= i < |next| && OldOwner(before, next, i, id) {
      var m := LastOldOwner(before, next, |next|, id);
      assert StepReleases(before, next, m, id) <==>
               (Restarted(before, next, m) || !NewOwner(next, m, id)) && forall j {:trigger NewOwner(next, j, id)} :: 0 <= j < m ==> !NewOwner(next, j, id);
    }
  }

  lemma OldOwnerUses(before: Table, next: seq<Subscription>, id: HandlerId)
    ensures (exists i :: 0 <= i < |next| && OldOwner(before, next, i, id)) ==> Used(before, id)
  {
  }

  lemma StopsWithoutOldOwner(before: Table, next: seq<Subscription>, id: HandlerId)
    ensures StopReleases(before, next, id) <==> Used(before, id) && forall i {:trigger OldOwner(before, next, i, id)} :: 0 <= i < |next| ==> !OldOwner(before, next, i, id)
  {
    if StopReleases(before, next, id) {
      forall i | 0 <= i < |next| ensures !OldOwner(before, next, i, id) {
        assert Asked(next, next[i].key);
      }
    }
    if forall i {:trigger OldOwner(before, next, i, id)} :: 0 <= i < |next| ==> !OldOwner(before, next, i, id) {
      forall k | Owns(before, k, id) ensures !Asked(next, k) {
        assert forall i :: 0 <= i < |next| && next[i].key == k ==> OldOwner(before, next, i, id);
      }
    }
  }

  /** What stopping releases is what loses its last owner by it. */
  lemma StopReleasesWhat(before: Table, next: seq<Subscription>, active: Table, id: HandlerId)
    requires active.Keys <= before.Keys && (forall k :: k in active ==> active[k] == before[k])
    requires forall k :: k in before && Asked(next, k) ==> k in active
    ensures id in Owned(before) - Owned(active) ==> StopReleases(before, next, id)
    ensures (forall k :: k in active ==> Asked(next, k)) && StopReleases(before, next, id) ==> id in Owned(before) - Owned(active)
  {
    hide Asked;
    forall k | Owns(before, k, id) && k in active ensures Owns(active, k, id) {}
    forall k | Owns(active, k, id) ensures Owns(before, k, id) {}
  }

  // ---------------------------------------------------------------- which runners there are

  /** Subscription `i` has no entry when its turn comes, or one that does something else. */
  ghost predicate NeedsRunner(before: Table, next: seq<Subscription>, i: nat)
    requires i < |next|
  {
    var entry := EntryAt(before, next, i, next[i].key);
    entry.None? || entry.value.0 != next[i].signature
  }

  /** How many of the first `i` subscriptions need a runner. */
  ghost function NewRunners(before: Table, next: seq<Subscription>, i: nat): nat
    requires i <= |next|
  {
    if i == 0 then 0 else NewRunners(before, next, i - 1) + if NeedsRunner(before, next, i - 1) then 1 else 0
  }

  /** The runner of the entry for `k` when the first `i` subscriptions have been gone through. */
  ghost function RunnerAt(before: Table, next: seq<Subscription>, first: RunnerId, i: nat, k: Key): RunnerId
    requires i <= |next|
  {
    if i == 0 then (if k in before then before[k].runner else first)
    else if next[i - 1].key == k && NeedsRunner(before, next, i - 1) then first + NewRunners(before, next, i - 1)
    else RunnerAt(before, next, first, i - 1, k)
  }

  ghost predicate RunnersAt(before: Table, next: seq<Subscription>, first: RunnerId, i: nat, active: Table)
    requires i <= |next|
  {
    forall k {:trigger RunnerAt(before, next, first, i, k)} :: k in active ==> active[k].runner == RunnerAt(before, next, first, i, k)
  }

  lemma RunnersBefore(before: Table, next: seq<Subscription>, first: RunnerId, active: Table)
    requires forall k :: k in active ==> k in before && active[k] == before[k]
    ensures RunnersAt(before, next, first, 0, active) && NewRunners(before, next, 0) == 0
  {
  }

  lemma RunnersNext(before: Table, next: seq<Subscription>, first: RunnerId, i: nat, active: Table, after: Table)
    requires i < |next| && RunnersAt(before, next, first, i, active) && next[i].key in after && after == active[next[i].key := after[next[i].key]]
    requires if NeedsRunner(before, next, i) then after[next[i].key].runner == first + NewRunners(before, next, i)
             else next[i].key in active && after[next[i].key].runner == active[next[i].key].runner
    ensures RunnersAt(before, next, first, i + 1, after)
  {
    forall k | k in after ensures after[k].runner == RunnerAt(before, next, first, i + 1, k) {
      if k != next[i].key || !NeedsRunner(before, next, i) { assert active[k].runner == RunnerAt(before, next, first, i, k); }
    }
  }

  /** Where keys differ, the entry of a subscription is the one that was there before. */
  lemma RunnerWhenDistinct(before: Table, next: seq<Subscription>, first: RunnerId, i: nat)
    requires KeysDiffer(next) && i < |next|
    ensures NeedsRunner(before, next, i) <==> next[i].key !in before || before[next[i].key].signature != next[i].signature
    ensures EntryAt(before, next, i, next[i].key).Some? <==> next[i].key in before
    ensures next[i].key in before ==> RunnerAt(before, next, first, i, next[i].key) == before[next[i].key].runner
  {
    LastForDistinct(next, i, i);
    assert Asked(next, next[i].key);
    RunnerUntouched(before, next, first, i, next[i].key);
  }

  lemma {:induction false} RunnerUntouched(before: Table, next: seq<Subscription>, first: RunnerId, i: nat, k: Key)
    requires i <= |next| && forall j :: 0 <= j < i ==> next[j].key != k
    ensures k in before ==> RunnerAt(before, next, first, i, k) == before[k].runner
  {
    if i > 0 { RunnerUntouched(before, next, first, i - 1, k); }
  }

  // ---------------------------------------------------------------- runners

  predicate Runs(active: Table, k: Key, r: RunnerId) {
    k in active && active[k].runner == r
  }

  /** A runner that was started runs for one entry, or was disposed once. */
  ghost predicate RunnersOk(active: Table, disposed: seq<RunnerId>, started: nat) {
    && Distinct(disposed)
    && (forall k: Key, r: RunnerId {:trigger Runs(active, k, r)} :: Runs(active, k, r) ==> r < started && r !in disposed)
    && (forall j: Key, k: Key, r: RunnerId {:trigger Runs(active, j, r), Runs(active, k, r)} :: Runs(active, j, r) && Runs(active, k, r) ==> j == k)
    && (forall r :: r in disposed ==> r < started)
    && (forall r :: 0 <= r < started ==> r in disposed || exists k :: Runs(active, k, r))
  }

  lemma StoppedOnce(active: Table, disposed: seq<RunnerId>, started: nat, k: Key)
    requires RunnersOk(active, disposed, started) && k in active
    ensures RunnersOk(active - {k}, disposed + [active[k].runner], started)
  {
    var next, gone := active - {k}, disposed + [active[k].runner];
    assert Runs(active, k, active[k].runner);
    forall j, r ensures Runs(next, j, r) <==> Runs(active, j, r) && j != k {}
    forall r | 0 <= r < started && r !in gone ensures exists j :: Runs(next, j, r) {
      var j :| Runs(active, j, r);
      assert Runs(next, j, r);
    }
  }

  lemma StartedOnce(active: Table, disposed: seq<RunnerId>, started: nat, k: Key, record: Record)
    requires RunnersOk(active, disposed, started) && k !in active && record.runner == started
    ensures RunnersOk(active[k := record], disposed, started + 1)
  {
    var next := active[k := record];
    forall j, r ensures Runs(next, j, r) <==> Runs(active, j, r) || (j == k && r == started) {}
    forall r | 0 <= r < started + 1 && r !in disposed ensures exists j :: Runs(next, j, r) {
      if r == started { assert Runs(next, k, r); } else {
        var j :| Runs(active, j, r);
        assert Runs(next, j, r);
      }
    }
  }

  lemma StillRuns(active: Table, disposed: seq<RunnerId>, started: nat, k: Key, record: Record)
    requires RunnersOk(active, disposed, started) && k in active && record.runner == active[k].runner
    ensures RunnersOk(active[k := record], disposed, started)
  {
    var next := active[k := record];
    forall j, r ensures Runs(next, j, r) <==> Runs(active, j, r) {}
    forall r | 0 <= r < started && r !in disposed ensures exists j :: Runs(next, j, r) {
      var j :| Runs(active, j, r);
      assert Runs(next, j, r);
    }
  }

  // ---------------------------------------------------------------- the table

  /** `q` lists once each the handlers that were owned before and are not any more. */
  ghost predicate Lost(before: Table, after: Table, q: seq<HandlerId>) {
    Distinct(q) && Elements(q) == Owned(before) - Owned(after)
  }

  /** What bringing one entry in line with `s` comes to; runners below `started` existed before. */
  ghost predicate Applied(before: Table, after: Table, s: Subscription, started: nat) {
    && s.key in after && Matches(after[s.key], s)
    && after.Keys == before.Keys + {s.key}
    && (forall k :: k in before && k != s.key ==> after[k] == before[k])
    && (if s.key in before && before[s.key].signature == s.signature then after[s.key].runner == before[s.key].runner
        else after[s.key].runner >= started)
  }

  /** Where entry `k` stands when the first `i` subscriptions have been gone through. */
  ghost predicate KeyOk(next: seq<Subscription>, i: nat, before: Table, active: Table, started: nat, k: Key)
    requires i <= |next|
  {
    && (k in active ==> Asked(next, k))
    && (k in before && Asked(next, k) ==> k in active)
    && (k in active && !Asked(next[..i], k) ==> k in before && active[k] == before[k])
    && (Asked(next[..i], k) ==> k in active && LastFor(next[..i], k).Some? && Matches(active[k], LastFor(next[..i], k).value))
    && (k in active && k in before && Unchanged(next, k, before[k]) ==>
          active[k].runner == before[k].runner && active[k].signature == before[k].signature)
    && (k in active && Asked(next[..i], k) && (k !in before || active[k].signature != before[k].signature) ==> active[k].runner >= started)
  }

  lemma KeyStep(next: seq<Subscription>, i: nat, before: Table, active: Table, after: Table, started: nat, now: nat, k: Key)
    requires i < |next| && started <= now && KeyOk(next, i, before, active, started, k) && Applied(active, after, next[i], now)
    ensures KeyOk(next, i + 1, before, after, started, k)
  {
    AskedNext(next, i);
    if k == next[i].key && k in before && Unchanged(next, k, before[k]) {
      assert next[i].signature == before[k].signature;
    }
  }

  class SubscriptionTable {
    // What runners do is outside the model.
    const starts: (Subscription, RunnerId) -> Start
    const disposeFails: RunnerId -> bool

    var active: Table
    var nextRunner: RunnerId
    /** History: every release of a handler and every disposal of a runner. */
    ghost var released: seq<HandlerId>
    ghost var disposed: seq<RunnerId>

    /** Every runner is accounted for. */
    ghost predicate Valid()
      reads this
    {
      RunnersOk(active, disposed, nextRunner)
    }

    constructor (starts: (Subscription, RunnerId) -> Start, disposeFails: RunnerId -> bool)
      ensures Valid() && active == map[] && released == [] && disposed == []
    {
      this.starts, this.disposeFails := starts, disposeFails;
      active, nextRunner, released, disposed := map[], 0, [], [];
    }

    /** Releases those of `ids` that no active subscription owns, each once. */
    method ReleaseHandlers(ids: seq<HandlerId>)
      modifies this`released
      ensures released == old(released) + Inactive(active, ids)
      ensures forall id {:trigger multiset(released)[id]} :: multiset(released)[id] == multiset(old(released))[id] + if id in ids && !Used(active, id) then 1 else 0
    {
      var inactive := Inactive(active, ids);
      InactiveMeaning(active, ids);
      forall id ensures multiset(inactive)[id] == if id in ids && !Used(active, id) then 1 else 0 { CountDistinct(inactive, id); }
      released := released + inactive;
    }

    /** Disposes the runner of an entry that has left the table and releases what nobody owns any more. */
    method Dispose(record: Record) returns (ok: bool)
      modifies this`released, this`disposed
      ensures released == old(released) + Inactive(active, record.owned)
      ensures disposed == old(disposed) + [record.runner]
      ensures ok == !disposeFails(record.runner)
    {
      disposed := disposed + [record.runner];
      ReleaseHandlers(record.owned);
      ok := !disposeFails(record.runner);
    }

    /** Takes entry `k` out of the table, disposes its runner and releases what only it owned. */
    method Remove(k: Key) returns (ok: bool, ghost q: seq<HandlerId>)
      requires Valid() && k in active
      modifies this`active, this`released, this`disposed
      ensures Valid() && active == old(active) - {k}
      ensures disposed == old(disposed) + [old(active)[k].runner]
      ensures released == old(released) + q && Lost(old(active), active, q)
      ensures ok == !disposeFails(old(active)[k].runner)
    {
      hide RunnersOk, Owned, Inactive, Distinct;
      var record := active[k];
      OwnedWithout(active, k);
      StoppedOnce(active, disposed, nextRunner, k);
      active := active - {k};
      ok := Dispose(record);
      q := Inactive(active, record.owned);
      InactiveMeaning(active, record.owned);
    }

    /** Gives an entry new mappers without restarting it, and releases what nobody owns any more. */
    method UpdateMappers(k: Key, mappers: seq<HandlerId>, owned: seq<HandlerId>) returns (ghost q: seq<HandlerId>)
      requires Valid() && k in active
      modifies this`active, this`released
      ensures Valid() && active == old(active)[k := old(active)[k].(mappers := mappers, owned := owned)]
      ensures released == old(released) + q && Lost(old(active), active, q)
    {
      hide RunnersOk, Owned, Inactive, Distinct, Removed;
      var record := active[k];
      var updated := record.(mappers := mappers, owned := owned);
      var removed := Removed(record.owned, owned);
      RemovedMeaning(record.owned, owned);
      OwnedWithout(active, k);
      OwnedWith(active, k, updated);
      StillRuns(active, disposed, nextRunner, k, updated);
      active := active[k := updated];
      ReleaseHandlers(removed);
      q := Inactive(active, removed);
      InactiveMeaning(active, removed);
      UpdateBalance(old(active), active, k, q, removed);
    }

    /** Starts a runner for a subscription that has no entry. */
    method Begin(s: Subscription) returns (r: Result<(), SyncError>)
      requires Valid() && s.key !in active
      modifies this`active, this`nextRunner
      ensures Valid()
      ensures r.Ok? ==> active == old(active)[s.key := Record(s.signature, old(nextRunner), s.mappers, s.owned)] && nextRunner == old(nextRunner) + 1
      ensures r.Err? ==> active == old(active) && nextRunner == old(nextRunner)
      ensures r.Ok? <==> starts(s, old(nextRunner)).Started?
      ensures r == Err(NoRunner) <==> starts(s, old(nextRunner)).Unknown?
      ensures r == Err(RunnerFailed) <==> starts(s, old(nextRunner)).Fails?
    {
      hide RunnersOk, Owned;
      match starts(s, nextRunner)
      case Unknown => return Err(NoRunner);
      case Fails => return Err(RunnerFailed);
      case Started =>
        var record := Record(s.signature, nextRunner, s.mappers, s.owned);
        StartedOnce(active, disposed, nextRunner, s.key, record);
        active := active[s.key := record];
        nextRunner := nextRunner + 1;
        return Ok(());
    }

    /** Brings the entry for `s` in line with it: kept if it does the same, else restarted. */
    method Apply(s: Subscription) returns (r: Result<(), SyncError>, ghost q: seq<HandlerId>)
      requires Valid()
      modifies this`active, this`nextRunner, this`released, this`disposed
      ensures Valid()
      ensures old(disposed) <= disposed && nextRunner >= old(nextRunner)
      ensures r.Ok? ==> Applied(old(active), active, s, old(nextRunner))
      ensures released == old(released) + q && Distinct(q) && Elements(q) == ApplyReleases(old(active), s)
      ensures Owned(old(active)) - Owned(active) <= Elements(q)
      ensures s.key in old(active) && old(active)[s.key].signature == s.signature ==>
                r.Ok? && disposed == old(disposed) && Lost(old(active), active, q)
      ensures r.Ok? <==> (s.key in old(active) && old(active)[s.key].signature == s.signature)
                         || ((s.key in old(active) ==> !disposeFails(old(active)[s.key].runner)) && starts(s, old(nextRunner)).Started?)
      ensures r == Err(DisposerFailed) <==>
                s.key in old(active) && old(active)[s.key].signature != s.signature && disposeFails(old(active)[s.key].runner)
      ensures r == Err(NoRunner) ==> starts(s, old(nextRunner)).Unknown?
      ensures r == Err(RunnerFailed) ==> starts(s, old(nextRunner)).Fails?
      ensures r.Err? ==> active == old(active) - {s.key} && nextRunner == old(nextRunner)
      ensures r.Ok? ==> active == old(active)[s.key := active[s.key]]
      ensures r.Ok? ==> active[s.key].signature == s.signature && active[s.key].mappers == s.mappers && active[s.key].owned == s.owned
      ensures r.Ok? && !(s.key in old(active) && old(active)[s.key].signature == s.signature) ==>
                active[s.key].runner == old(nextRunner) && nextRunner == old(nextRunner) + 1
      ensures s.key in old(active) && old(active)[s.key].signature == s.signature ==>
                nextRunner == old(nextRunner) && active[s.key].runner == old(active)[s.key].runner
    {
      hide RunnersOk, Owned;
      q := [];
      if s.key in active { OwnedWithout(active, s.key); }
      if s.key in active && active[s.key].signature == s.signature {
        ghost var before := active;
        q := UpdateMappers(s.key, s.mappers, s.owned);
        OwnedWith(before, s.key, active[s.key]);
        return Ok(()), q;
      }
      if s.key in active {
        var ok: bool;
        ok, q := Remove(s.key);
        if !ok { return Err(DisposerFailed), q; }
      }
      ghost var between := active;
      r := Begin(s);
      if r.Ok? {
        OwnedWith(between, s.key, active[s.key]);
        assert between - {s.key} == between;
      }
    }

    /** Stops every entry that is not asked for any more, in any order. */
    method StopOthers(next: seq<Subscription>) returns (ok: bool, ghost q: seq<HandlerId>)
      requires Valid()
      modifies this`active, this`released, this`disposed
      ensures Valid()
      ensures released == old(released) + q && Lost(old(active), active, q) && old(disposed) <= disposed
      ensures active.Keys <= old(active).Keys && (forall k :: k in active ==> active[k] == old(active)[k])
      ensures forall k :: k in old(active) && Asked(next, k) ==> k in active
      ensures ok ==> forall k :: k in active ==> Asked(next, k)
      ensures ok <==> forall k :: k in old(active) && !Asked(next, k) ==> !disposeFails(old(active)[k].runner)
    {
      hide RunnersOk, Owned, Asked, Lost;
      var stale := set k: Key | k in active && !Asked(next, k);
      q := [];
      LostNone(active);
      while stale != {}
        invariant Valid() && released == old(released) + q && Lost(old(active), active, q) && old(disposed) <= disposed
        invariant active.Keys <= old(active).Keys && (forall k :: k in active ==> active[k] == old(active)[k])
        invariant forall k :: k in old(active) && Asked(next, k) ==> k in active
        invariant forall k :: k in stale <==> k in active && !Asked(next, k)
        invariant forall k :: k in old(active) && !Asked(next, k) && k !in stale ==> !disposeFails(old(active)[k].runner)
        decreases |stale|
      {
        var k :| k in stale;
        ghost var before, p := active, [];
        OwnedWithout(active, k);
        ok, p := Remove(k);
        LostMore(old(active), before, active, q, p);
        q := q + p;
        if !ok { return; }
        stale := stale - {k};
      }
      ok := true;
    }

    /** Going through subscription `i` succeeds: its entry is kept, or the runner of the old one is
        disposed properly and the new one starts. `first` is the first new runner. */
    ghost predicate StepSucceeds(before: Table, next: seq<Subscription>, first: RunnerId, i: nat)
      requires i < |next|
    {
      NeedsRunner(before, next, i) ==> !StopFails(before, next, first, i) && starts(next[i], first + NewRunners(before, next, i)).Started?
    }

    /** The old entry of subscription `i` has to be stopped, and its disposer fails. */
    ghost predicate StopFails(before: Table, next: seq<Subscription>, first: RunnerId, i: nat)
      requires i < |next|
    {
      EntryAt(before, next, i, next[i].key).Some? && disposeFails(RunnerAt(before, next, first, i, next[i].key))
    }

    /** Going through subscription `i` fails with `e`. */
    ghost predicate StepFailsWith(before: Table, next: seq<Subscription>, first: RunnerId, i: nat, e: SyncError)
      requires i < |next|
    {
      && NeedsRunner(before, next, i)
      && match e
         case DisposerFailed => StopFails(before, next, first, i)
         case NoRunner => !StopFails(before, next, first, i) && starts(next[i], first + NewRunners(before, next, i)).Unknown?
         case RunnerFailed => !StopFails(before, next, first, i) && starts(next[i], first + NewRunners(before, next, i)).Fails?
    }

    /** Everything that is not asked for any more is disposed properly. */
    ghost predicate StopsSucceed(before: Table, next: seq<Subscription>) {
      forall k :: k in before && !Asked(next, k) ==> !disposeFails(before[k].runner)
    }

    /** Brings the table in line with what is asked for. If it succeeds, there is an entry for
        every key asked for and no other; an entry that does the same is not restarted, and one
        that does something else runs anew. Whether or not it succeeds, a stopped runner has been
        disposed once (`Valid`), and whatever is not owned any more has been released. How often a
        handler is released is what `Releases` says of the table and the request; that may be one
        that is owned again afterwards. */
    method Sync(next: seq<Subscription>) returns (r: Result<(), SyncError>, ghost q: seq<HandlerId>)
      requires Valid()
      modifies this`active, this`nextRunner, this`released, this`disposed
      ensures Valid()
      ensures released == old(released) + q && old(disposed) <= disposed
      ensures r.Ok? ==> InLine(next, old(active), active, old(nextRunner)) && TableAt(old(active), next, |next|, active)
      ensures Owned(old(active)) - Owned(active) <= Elements(q)
      ensures forall id {:trigger multiset(q)[id]} ::
                if r.Ok? then multiset(q)[id] == Releases(old(active), next, |next|, id) else multiset(q)[id] <= Releases(old(active), next, |next|, id)
      ensures r.Ok? <==> StopsSucceed(old(active), next) && forall i :: 0 <= i < |next| ==> StepSucceeds(old(active), next, old(nextRunner), i)
      ensures !StopsSucceed(old(active), next) ==> r == Err(DisposerFailed)
      ensures r.Err? && StopsSucceed(old(active), next) ==>
                exists i :: 0 <= i < |next| && StepFailsWith(old(active), next, old(nextRunner), i, r.error)
                            && forall j :: 0 <= j < i ==> StepSucceeds(old(active), next, old(nextRunner), j)
    {
      hide RunnersOk, Owned, Asked, KeyOk, Applied, LastFor, Lost, TableAt, Releases, StopReleases, ApplyReleases, Inactive, Distinct;
      hide EntryAt, RunnersAt, NewRunners, RunnerAt, NeedsRunner, StepSucceeds, StepFailsWith, StopFails;
      var ok;
      ok, q := StopOthers(next);
      StopCounts(old(active), next, active, q, ok);
      if !ok {
        forall id ensures multiset(q)[id] <= Releases(old(active), next, |next|, id) { ReleasesMore(old(active), next, 0, |next|, id); }
        return Err(DisposerFailed), q;
      }
      forall k ensures KeyOk(next, 0, old(active), active, old(nextRunner), k) { KeyStarts(next, old(active), active, old(nextRunner), k); }
      var i := 0;
      r := Ok(());
      RunnersBefore(old(active), next, old(nextRunner), active);
      while i < |next| && r.Ok?
        invariant 0 <= i <= |next| && Valid() && nextRunner >= old(nextRunner)
        invariant r.Ok? ==> RunnersAt(old(active), next, old(nextRunner), i, active) && nextRunner == old(nextRunner) + NewRunners(old(active), next, i)
        invariant forall j :: 0 <= j < (if r.Ok? then i else i - 1) ==> StepSucceeds(old(active), next, old(nextRunner), j)
        invariant r.Err? ==> i > 0 && StepFailsWith(old(active), next, old(nextRunner), i - 1, r.error)
        invariant r.Err? ==> !StepSucceeds(old(active), next, old(nextRunner), i - 1)
        invariant released == old(released) + q && old(disposed) <= disposed
        invariant Owned(old(active)) - Owned(active) <= Elements(q)
        invariant forall id {:trigger multiset(q)[id]} :: multiset(q)[id] == Releases(old(active), next, i, id)
        invariant r.Ok? ==> forall k {:trigger KeyOk(next, i, old(active), active, old(nextRunner), k)} :: KeyOk(next, i, old(active), active, old(nextRunner), k)
      {
        ghost var before, now, was, p := active, nextRunner, q, [];
        TableNow(next, i, old(active), before, old(nextRunner));
        r, p := Apply(next[i]);
        q := q + p;
        forall id ensures multiset(q)[id] == Releases(old(active), next, i + 1, id) { OneMoreRelease(old(active), next, i, before, was, p, id); }
        ghost var j := i + 1;
        StepOutcome(old(active), next, old(nextRunner), i, before, now, active, nextRunner, r);
        if r.Ok? {
          forall k ensures KeyOk(next, j, old(active), active, old(nextRunner), k) {
            KeyStep(next, i, old(active), before, active, old(nextRunner), now, k);
          }
        }
        i := i + 1;
      }
      if r.Err? {
        forall id ensures multiset(q)[id] <= Releases(old(active), next, |next|, id) { ReleasesMore(old(active), next, i, |next|, id); }
        return;
      }
      TableNow(next, |next|, old(active), active, old(nextRunner));
      forall k ensures KeyInLine(next, old(active), active, old(nextRunner), k) {
        KeyEnds(next, old(active), active, old(nextRunner), k);
      }
    }

    /** Applying subscription `i` turns out as its step does. */
    lemma StepOutcome(before: Table, next: seq<Subscription>, first: RunnerId, i: nat, active: Table, now: RunnerId, after: Table, then': RunnerId, r: Result<(), SyncError>)
      requires i < |next| && TableAt(before, next, i, active) && RunnersAt(before, next, first, i, active) && now == first + NewRunners(before, next, i)
      requires var s := next[i]; var kept := s.key in active && active[s.key].signature == s.signature;
               && (r.Ok? <==> kept || ((s.key in active ==> !disposeFails(active[s.key].runner)) && starts(s, now).Started?))
               && (r == Err(DisposerFailed) <==> s.key in active && !kept && disposeFails(active[s.key].runner))
               && (r == Err(NoRunner) ==> starts(s, now).Unknown?) && (r == Err(RunnerFailed) ==> starts(s, now).Fails?)
               && (r.Ok? ==> s.key in after && after == active[s.key := after[s.key]])
               && (r.Ok? && !kept ==> after[s.key].runner == now && then' == now + 1)
               && (kept ==> then' == now && after[s.key].runner == active[s.key].runner)
      ensures r.Ok? ==> StepSucceeds(before, next, first, i) && RunnersAt(before, next, first, i + 1, after)
      ensures r.Ok? ==> then' == first + NewRunners(before, next, i + 1)
      ensures r.Err? ==> StepFailsWith(before, next, first, i, r.error) && !StepSucceeds(before, next, first, i)
    {
      var s := next[i];
      assert EntryAt(before, next, i, s.key).Some? <==> s.key in active;
      assert s.key in active ==> active[s.key].runner == RunnerAt(before, next, first, i, s.key);
      if r.Ok? { RunnersNext(before, next, first, i, active, after); }
      hide EntryAt, RunnersAt, TableAt, RunnerAt;
    }

    /** Where keys differ: a sync succeeds if and only if whatever is stopped or restarted is disposed
        properly and every new runner starts. */
    lemma SucceedsWhenDistinct(before: Table, next: seq<Subscription>, first: RunnerId, i: nat)
      requires KeysDiffer(next) && i < |next|
      ensures StepSucceeds(before, next, first, i) <==>
                || (next[i].key in before && before[next[i].key].signature == next[i].signature)
                || ((next[i].key in before ==> !disposeFails(before[next[i].key].runner)) && starts(next[i], first + NewRunners(before, next, i)).Started?)
    {
      RunnerWhenDistinct(before, next, first, i);
    }

    /** Shuts everything down: the table is emptied first, so each entry releases all it owns. */
    method DisposeAll() returns (ok: bool, ghost order: seq<Key>)
      requires Valid()
      modifies this`active, this`released, this`disposed
      ensures active == map[]
      ensures Distinct(order) && (forall k :: k in order ==> k in old(active))
      ensures released == old(released) + AllOwned(old(active), order)
      ensures |disposed| == |old(disposed)| + |order|
      ensures ok ==> forall k :: k in old(active) ==> k in order
      ensures ok ==> Owned(old(active)) <= Elements(released)
      ensures !ok ==> order != [] && disposeFails(old(active)[order[|order| - 1]].runner)
    {
      hide RunnersOk, Inactive, Owned, AllOwned;
      var records := active;
      order := [];
      active := map[];
      var rest := records.Keys;
      AllOwnedNone(records);
      while rest != {}
        invariant active == map[] && rest <= records.Keys && records == old(active)
        invariant Distinct(order) && (forall k :: k in order <==> k in records && k !in rest)
        invariant released == old(released) + AllOwned(records, order)
        invariant |disposed| == |old(disposed)| + |order|
        decreases |rest|
      {
        var k :| k in rest;
        DisposeNext(records, order, k);
        ok := Dispose(records[k]);
        order := order + [k];
        rest := rest - {k};
        if !ok { return; }
      }
      ok := true;
      AllOwnedMeaning(records, order);
      forall id | id in Owned(records) ensures id in AllOwned(records, order) {
        var k :| k in records && Owns(records, k, id);
        assert k in order;
      }
    }
  }

  lemma LostNone(active: Table)
    ensures Lost(active, active, [])
  {
  }

  /** Of two steps that both lose owners, each releases its own part. */
  lemma LostMore(a: Table, b: Table, c: Table, q: seq<HandlerId>, p: seq<HandlerId>)
    requires Lost(a, b, q) && Lost(b, c, p) && Owned(c) <= Owned(b) <= Owned(a)
    ensures Lost(a, c, q + p) && Owned(c) <= Owned(a)
  {
    ConcatDistinct(q, p);
    forall id ensures id in Elements(q + p) <==> id in Elements(q) || id in Elements(p) {}
  }

  lemma StopCounts(before: Table, next: seq<Subscription>, active: Table, q: seq<HandlerId>, ok: bool)
    requires Lost(before, active, q) && active.Keys <= before.Keys && (forall k :: k in active ==> active[k] == before[k])
    requires forall k :: k in before && Asked(next, k) ==> k in active
    requires ok ==> forall k :: k in active ==> Asked(next, k)
    ensures forall id {:trigger multiset(q)[id]} ::
              if ok then multiset(q)[id] == Releases(before, next, 0, id) else multiset(q)[id] <= Releases(before, next, 0, id)
    ensures Owned(before) - Owned(active) == Elements(q)
  {
    hide Asked, StopReleases, Owned;
    forall id ensures if ok then multiset(q)[id] == Releases(before, next, 0, id) else multiset(q)[id] <= Releases(before, next, 0, id) {
      StopReleasesWhat(before, next, active, id);
      CountDistinct(q, id);
      assert id in q <==> id in Elements(q);
    }
  }

  lemma TableNow(next: seq<Subscription>, i: nat, before: Table, active: Table, started: nat)
    requires i <= |next| && forall k {:trigger KeyOk(next, i, before, active, started, k)} :: KeyOk(next, i, before, active, started, k)
    ensures TableAt(before, next, i, active)
  {
    forall k
      ensures k in active <==> EntryAt(before, next, i, k).Some?
      ensures k in active ==> EntryAt(before, next, i, k).value == (active[k].signature, active[k].owned)
    {
      assert KeyOk(next, i, before, active, started, k);
      LastForAsked(next[..i], k);
    }
  }

  /** Entry `k` after a successful sync. */
  ghost predicate KeyInLine(next: seq<Subscription>, before: Table, after: Table, started: nat, k: Key) {
    && (k in after <==> Asked(next, k))
    && (k in after ==> LastFor(next, k).Some? && Matches(after[k], LastFor(next, k).value))
    && (k in after && k in before && Unchanged(next, k, before[k]) ==> after[k].runner == before[k].runner)
    && (k in after && (k !in before || LastFor(next, k).value.signature != before[k].signature) ==> after[k].runner >= started)
  }

  ghost predicate InLine(next: seq<Subscription>, before: Table, after: Table, started: nat) {
    forall k {:trigger KeyInLine(next, before, after, started, k)} :: KeyInLine(next, before, after, started, k)
  }

  lemma KeyStarts(next: seq<Subscription>, before: Table, active: Table, started: nat, k: Key)
    requires k in active ==> Asked(next, k) && k in before && active[k] == before[k]
    requires k in before && Asked(next, k) ==> k in active
    ensures KeyOk(next, 0, before, active, started, k)
  {
    assert !Asked(next[..0], k);
  }

  lemma KeyEnds(next: seq<Subscription>, before: Table, active: Table, started: nat, k: Key)
    requires KeyOk(next, |next|, before, active, started, k)
    ensures KeyInLine(next, before, active, started, k)
  {
    assert next[..|next|] == next;
    LastForAsked(next, k);
  }

  lemma AllOwnedNone(records: Table)
    ensures AllOwned(records, []) == []
  {
  }

  /** Disposing one more entry while the table is empty releases all that it owns. */
  lemma DisposeNext(records: Table, order: seq<Key>, k: Key)
    requires k in records && k !in order && Distinct(order) && forall j :: j in order ==> j in records
    ensures Distinct(order + [k])
    ensures AllOwned(records, order + [k]) == AllOwned(records, order) + Inactive(map[], records[k].owned)
    ensures Elements(AllOwned(records, order + [k])) == Elements(AllOwned(records, order)) + (Elements(records[k].owned) - Owned(map[]))
  {
    AllOwnedNext(records, order, k);
    InactiveMeaning(map[], records[k].owned);
  }

  /** The ids of `old` that are not in `next`. */
  function Removed(before: seq<HandlerId>, after: seq<HandlerId>): seq<HandlerId> {
    if before == [] then [] else (if before[0] in after then [] else [before[0]]) + Removed(before[1..], after)
  }

  lemma {:induction false} RemovedMeaning(before: seq<HandlerId>, after: seq<HandlerId>)
    ensures forall id :: id in Removed(before, after) <==> id in before && id !in after
  {
    if before != [] { RemovedMeaning(before[1..], after); }
  }

  /** Replacing the handlers of entry `k` loses those of the removed ones that nobody owns any more. */
  lemma UpdateBalance(before: Table, after: Table, k: Key, q: seq<HandlerId>, removed: seq<HandlerId>)
    requires k in before && k in after && after == before[k := after[k]]
    requires forall id :: id in removed <==> id in before[k].owned && id !in after[k].owned
    requires forall id :: id in q <==> id in removed && !Used(after, id)
    ensures Elements(q) == Owned(before) - Owned(after)
    ensures Owned(before) + Elements(after[k].owned) - (Elements(removed) - Owned(after)) == Owned(after)
  {
    OwnedWith(before, k, after[k]);
    OwnedWith(before, k, before[k]);
    assert before[k := before[k]] == before;
    var rest := Owned(before - {k});
    assert Owned(before) == rest + Elements(before[k].owned) && Owned(after) == rest + Elements(after[k].owned);
  }

  lemma AskedNext(next: seq<Subscription>, i: nat)
    requires i < |next|
    ensures next[..i + 1][..i] == next[..i]
    ensures forall k :: Asked(next[..i + 1], k) <==> Asked(next[..i], k) || k == next[i].key
    ensures forall k :: LastFor(next[..i + 1], k) == if k == next[i].key then Some(next[i]) else LastFor(next[..i], k)
    ensures Asked(next, next[i].key)
  {
    var longer, shorter := next[..i + 1], next[..i];
    assert longer[|longer| - 1] == next[i] && longer[..|longer| - 1] == shorter;
    forall k ensures Asked(longer, k) <==> Asked(shorter, k) || k == next[i].key {
      if j :| 0 <= j < |longer| && longer[j].key == k { if j < i { assert shorter[j].key == k; } }
      if j :| 0 <= j < |shorter| && shorter[j].key == k { assert longer[j].key == k; }
      if k == next[i].key { assert longer[i].key == k; }
    }
    forall k ensures LastFor(longer, k) == if k == next[i].key then Some(next[i]) else LastFor(shorter, k) {
      assert longer != [];
    }
  }

  // ---------------------------------------------------------------- shutting down releases shared handlers twice

  /** What the entries `order` release one after another once the table is empty. */
  ghost function AllOwned(records: Table, order: seq<Key>): seq<HandlerId>
    requires forall k :: k in order ==> k in records
  {
    if order == [] then [] else AllOwned(records, order[..|order| - 1]) + Inactive(map[], records[order[|order| - 1]].owned)
  }

  lemma AllOwnedNext(records: Table, order: seq<Key>, k: Key)
    requires k in records && forall j :: j in order ==> j in records
    ensures AllOwned(records, order + [k]) == AllOwned(records, order) + Inactive(map[], records[k].owned)
  {
    assert (order + [k])[..|order|] == order;
  }

  lemma {:induction false} AllOwnedMeaning(records: Table, order: seq<Key>)
    requires forall k :: k in order ==> k in records
    ensures forall id :: id in AllOwned(records, order) <==> exists k :: k in order && Owns(records, k, id)
  {
    if order != [] {
      var front, last := order[..|order| - 1], order[|order| - 1];
      AllOwnedMeaning(records, front);
      InactiveMeaning(map[], records[last].owned);
      assert order == front + [last];
      assert last in order;
      forall id ensures id in AllOwned(records, order) <==> exists k :: k in order && Owns(records, k, id) {
        if id in records[last].owned { assert Owns(records, last, id); }
        if k :| k in front && Owns(records, k, id) { assert k in order; }
      }
    }
  }

  /** Two entries own the same handler. */
  ghost predicate Shared(records: Table, order: seq<Key>) {
    exists i, j, id :: 0 <= i < j < |order| && Owns(records, order[i], id) && Owns(records, order[j], id)
  }

  /** Shutting down releases no handler twice exactly when no two entries share one. */
  lemma {:induction false} DoubleReleaseIffShared(records: Table, order: seq<Key>)
    requires forall k :: k in order ==> k in records
    ensures Distinct(AllOwned(records, order)) <==> !Shared(records, order)
  {
    if order != [] {
      var front, last := order[..|order| - 1], order[|order| - 1];
      var a, b := AllOwned(records, front), Inactive(map[], records[last].owned);
      DoubleReleaseIffShared(records, front);
      AllOwnedMeaning(records, front);
      InactiveMeaning(map[], records[last].owned);
      ConcatDistinct(a, b);
      assert order == front + [last];
      SharedLast(records, front, last);
      hide AllOwned, Inactive, Shared, Owns, Used, Distinct;
      assert AllOwned(records, order) == a + b by { AllOwnedNext(records, front, last); }
    }
  }

  /** Two entries that share a handler release it twice. */
  lemma SharedHandlerReleasedTwice()
    ensures var records: Table := map[1 := Record(10, 0, [7], [7]), 2 := Record(10, 1, [7], [7])];
            AllOwned(records, [1, 2]) == [7, 7] && Shared(records, [1, 2])
  {
    var records: Table := map[1 := Record(10, 0, [7], [7]), 2 := Record(10, 1, [7], [7])];
    BothOwn(records);
  }

  lemma BothOwn(records: Table)
    requires 1 in records && 2 in records && records[1].owned == records[2].owned == [7]
    ensures AllOwned(records, [1, 2]) == [7, 7] && Shared(records, [1, 2])
  {
    assert Owns(records, [1, 2][0], 7) && Owns(records, [1, 2][1], 7);
    assert Inactive(map[], [7]) == [7] by { assert [7][..0] == [] && !Used(map[], 7); }
    hide Inactive, Used, Owns;
    AllOwnedNext(records, [], 1);
    AllOwnedNext(records, [1], 2);
    assert [] + [1] == [1] && [1] + [2] == [1, 2];
  }

  lemma SharedLast(records: Table, front: seq<Key>, last: Key)
    ensures Shared(records, front + [last]) <==> Shared(records, front) || exists k, id :: k in front && Owns(records, k, id) && Owns(records, last, id)
  {
    var order := front + [last];
    if Shared(records, front) {
      var i, j, id :| 0 <= i < j < |front| && Owns(records, front[i], id) && Owns(records, front[j], id);
      assert Owns(records, order[i], id) && Owns(records, order[j], id);
    }
    if k, id :| k in front && Owns(records, k, id) && Owns(records, last, id) {
      var i :| 0 <= i < |front| && front[i] == k;
      assert Owns(records, order[i], id) && Owns(records, order[|front|], id);
    }
    if Shared(records, order) {
      var i, j, id :| 0 <= i < j < |order| && Owns(records, order[i], id) && Owns(records, order[j], id);
      assert order[i] == front[i];
      if j < |front| { assert Owns(records, front[i], id) && Owns(records, front[j], id); }
    }
  }

  lemma ConcatDistinct<T>(a: seq<T>, b: seq<T>)
    requires Distinct(b)
    ensures Distinct(a + b) <==> Distinct(a) && forall x :: x in a ==> x !in b
  {
    if Distinct(a + b) {
      forall i, j | 0 <= i < j < |a| ensures a[i] != a[j] { assert (a + b)[i] != (a + b)[j]; }
      forall x | x in a ensures x !in b {
        var i :| 0 <= i < |a| && a[i] == x;
        forall j | 0 <= j < |b| ensures b[j] != x { assert (a + b)[i] != (a + b)[|a| + j]; }
      }
    } else {
      var i, j :| 0 <= i < j < |a + b| && (a + b)[i] == (a + b)[j];
      if i < |a| <= j { assert a[i] in a && b[j - |a|] in b; }
    }
  }
}
