/** Every run of the frozen continuation, and exactly which queues its resume check accepts. */
module PendingRuns {
  import opened Common
  import opened Staging
  import opened PendingQueue

  predicate IsDone(q: Q, n: nat) { Conv(n) in q.states && q.states[Conv(n)] == Done }

  /** The frozen order without the finished members. */
  function Remaining(ids: seq<nat>, q: Q): seq<Id> {
    if ids == [] then []
    else if IsDone(q, ids[0]) then Remaining(ids[1..], q)
    else [Conv(ids[0])] + Remaining(ids[1..], q)
  }

  /** The candidates and their payloads are the frozen ones. */
  ghost predicate Frozen(m: Manifest, q: Q) {
    && q.states.Keys == Convs(m.base.previous) + Convs(m.ids)
    && (forall n :: n in m.base.previous ==> IsDone(q, n))
    && (forall id :: id in q.payloads ==> id in m.hashes && q.payloads[id] == m.hashes[id])
  }

  /** Finished members have outcomes, and every outcome is an authorized one. */
  ghost predicate Backed(m: Manifest, s: Run) {
    && (forall n :: n in m.ids && IsDone(s.queue, n) ==> n in s.outcomes)
    && ReadOutcomes(s.outcomes, m)
  }

  ghost predicate InOrder(m: Manifest, q: Q) { Order(q) == Remaining(m.ids, q) }

  /** What every reachable state satisfies. */
  ghost predicate Inv(m: Manifest, s: Run) {
    WellFormed(s.queue) && Frozen(m, s.queue) && Backed(m, s) && InOrder(m, s.queue)
  }

  // ----- Sequences ------------------------------------------------------------------------

  lemma {:induction false} SetSize<T>(s: seq<T>, elements: set<T>)
    requires forall x :: x in elements <==> x in s
    ensures |elements| <= |s|
    ensures |elements| == |s| <==> Distinct(s)
  {
    if s != [] {
      var head, rest := s[0], s[1..];
      assert s == [head] + rest;
      if head in rest {
        SetSize(rest, elements);
        var i :| 0 <= i < |rest| && rest[i] == head;
        assert s[0] == s[i + 1];
      } else {
        SetSize(rest, elements - {head});
        assert elements == (elements - {head}) + {head};
        if Distinct(rest) { assert Distinct(s); }
        if Distinct(s) {
          forall i, j | 0 <= i < j < |rest| ensures rest[i] != rest[j] { assert s[i + 1] != s[j + 1]; }
        }
      }
    }
  }

  // ----- The frozen order -------------------------------------------------------------------

  lemma {:induction false} RemainingDepends(ids: seq<nat>, q: Q, q': Q)
    requires forall n :: n in ids ==> (IsDone(q, n) <==> IsDone(q', n))
    ensures Remaining(ids, q) == Remaining(ids, q')
  {
    if ids != [] {
      assert ids[0] in ids;
      RemainingDepends(ids[1..], q, q');
    }
  }

  lemma {:induction false} RemainingAfter(ids: seq<nat>, q: Q, q': Q, done: nat)
    requires forall n :: n in ids ==> (IsDone(q', n) <==> IsDone(q, n) || n == done)
    ensures Remaining(ids, q') == Without(Remaining(ids, q), Conv(done))
  {
    if ids != [] {
      assert ids[0] in ids;
      RemainingAfter(ids[1..], q, q', done);
      if !IsDone(q, ids[0]) {
        assert Remaining(ids, q) == [Conv(ids[0])] + Remaining(ids[1..], q);
      }
    }
  }

  lemma {:induction false} RemainingAll(ids: seq<nat>, q: Q, order: seq<Id>)
    requires |order| == |ids| && forall i :: 0 <= i < |ids| ==> order[i] == Conv(ids[i])
    requires forall n :: n in ids ==> !IsDone(q, n)
    ensures Remaining(ids, q) == order
  {
    if ids != [] {
      assert ids[0] in ids;
      RemainingAll(ids[1..], q, order[1..]);
    }
  }

  // ----- Steps ------------------------------------------------------------------------------

  lemma TakeKeeps(m: Manifest, s: Run)
    requires Inv(m, s)
    ensures Inv(m, Apply(m, s, Take))
    ensures Apply(m, s, Take).outcomes == s.outcomes
    ensures forall n :: IsDone(Apply(m, s, Take).queue, n) <==> IsDone(s.queue, n)
    ensures s.queue.queue != [] ==> Apply(m, s, Take).queue.queue == s.queue.queue[1..]
  {
    NextKeeps(s.queue);
    if s.queue.queue != [] {
      assert s.queue.queue[0] in s.queue.queue;
      RemainingDepends(m.ids, s.queue, Apply(m, s, Take).queue);
    }
  }

  lemma ResumeKeeps(m: Manifest, s: Run)
    requires Inv(m, s)
    ensures Inv(m, Apply(m, s, Resume)) && Apply(m, s, Resume).queue.pending == []
    ensures Apply(m, s, Resume).outcomes == s.outcomes
    ensures forall n :: IsDone(Apply(m, s, Resume).queue, n) <==> IsDone(s.queue, n)
  {
    RecoverKeeps(s.queue);
    RecoverKeepsFrozen(m, s.queue);
    var q' := Recover(s.queue).value;
    hide WellFormed, Frozen, IsDone, Order, Recover;
    RemainingDepends(m.ids, s.queue, q');
  }

  lemma RecoverKeepsFrozen(m: Manifest, q: Q)
    requires WellFormed(q) && Frozen(m, q) && Recover(q).Ok?
    ensures Frozen(m, Recover(q).value)
    ensures forall n :: IsDone(Recover(q).value, n) <==> IsDone(q, n)
  {
    hide Convs;
    var q' := Recover(q).value;
    assert q'.states.Keys == q.states.Keys && q'.payloads == q.payloads;
  }

  lemma AckKeepsOrder(m: Manifest, q: Q, id: Id)
    requires WellFormed(q) && InOrder(m, q) && id.Conv? && id in q.pending
    ensures Ack(q, id).Ok? && InOrder(m, Ack(q, id).value.0)
    ensures forall n :: IsDone(Ack(q, id).value.0, n) <==> IsDone(q, n) || Conv(n) == id
  {
    AckKeeps(q, id);
    RemainingAfter(m.ids, q, Ack(q, id).value.0, id.n);
  }

  lemma AckKeepsFrozen(m: Manifest, q: Q, q': Q, id: Id)
    requires Frozen(m, q) && id in q.states
    requires q'.states == q.states[id := Done] && q'.payloads == q.payloads - {id}
    ensures Frozen(m, q')
  {
    hide Convs;
    assert q'.states.Keys == q.states.Keys;
  }

  lemma AckKeepsInv(m: Manifest, s: Run, id: Id)
    requires Inv(m, s) && id in s.queue.pending && MayAck(m, s.outcomes, id)
    ensures Inv(m, Apply(m, s, GuardedAck(id))) && Apply(m, s, GuardedAck(id)).outcomes == s.outcomes
    ensures Apply(m, s, GuardedAck(id)).queue.queue == s.queue.queue
    ensures forall n :: IsDone(Apply(m, s, GuardedAck(id)).queue, n) <==> IsDone(s.queue, n) || Conv(n) == id
  {
    var q := s.queue;
    AckKeepsOrder(m, q, id);
    AckKeeps(q, id);
    hide InOrder, Frozen, WellFormed, IsDone, ReadOutcomes;
    var q' := Ack(q, id).value.0;
    AckKeepsFrozen(m, q, q', id);
    assert Backed(m, s.(queue := q'));
  }

  /** An acknowledgement of anything not reserved changes nothing. */
  lemma IdleAck(m: Manifest, s: Run, id: Id)
    requires WellFormed(s.queue) && (id !in s.queue.pending || !MayAck(m, s.outcomes, id))
    ensures Apply(m, s, GuardedAck(id)) == s
  {
  }

  lemma WriteKeepsInv(m: Manifest, s: Run, n: nat, o: Outcome)
    requires Inv(m, s) && m.hashes.Keys == Convs(m.ids)
    ensures Inv(m, Apply(m, s, Write(n, o)))
  {
    hide InOrder, WellFormed, Frozen, Backed, Convs, ValidOutcome;
    if Conv(n) in s.queue.pending && n !in s.outcomes && ValidOutcome(o) {
      PendingIsMember(m, s.queue, n);
      BackedMore(m, s, n, o);
    }
  }

  lemma BackedMore(m: Manifest, s: Run, n: nat, o: Outcome)
    requires Backed(m, s) && n in m.ids && n !in s.outcomes && ValidOutcome(o)
    ensures Backed(m, s.(outcomes := s.outcomes[n := o]))
  {
    hide IsDone, ValidOutcome;
  }

  lemma PendingIsMember(m: Manifest, q: Q, n: nat)
    requires WellFormed(q) && Frozen(m, q) && m.hashes.Keys == Convs(m.ids) && Conv(n) in q.pending
    ensures n in m.ids
  {
    assert Conv(n) in q.payloads;
    assert Conv(n) in m.hashes.Keys;
  }

  lemma ApplyKeepsInv(m: Manifest, s: Run, a: Action)
    requires Inv(m, s) && m.hashes.Keys == Convs(m.ids)
    ensures Inv(m, Apply(m, s, a))
  {
    hide Inv, Apply;
    match a
    case Take => TakeKeeps(m, s);
    case Write(n, o) => WriteKeepsInv(m, s, n, o);
    case GuardedAck(id) => AckSafe(m, s, id);
    case Resume => ResumeKeeps(m, s);
  }

  lemma AckSafe(m: Manifest, s: Run, id: Id)
    requires Inv(m, s)
    ensures Inv(m, Apply(m, s, GuardedAck(id)))
  {
    hide Apply, Frozen, Backed, InOrder;
    if id in s.queue.pending && MayAck(m, s.outcomes, id) { AckKeepsInv(m, s, id); }
    else { IdleAck(m, s, id); }
  }

  lemma {:induction false} ExecKeepsInv(m: Manifest, s: Run, run: seq<Action>)
    requires Inv(m, s) && m.hashes.Keys == Convs(m.ids)
    ensures Inv(m, Exec(m, s, run))
  {
    if run != [] {
      ExecKeepsInv(m, s, run[..|run| - 1]);
      ApplyKeepsInv(m, Exec(m, s, run[..|run| - 1]), run[|run| - 1]);
    }
  }

  // ----- From a bound snapshot ----------------------------------------------------------------

  lemma BoundIds(base: Base, plan: Original, q: Q)
    requires Bindable(base, plan, q)
    ensures
      var ids := Numbers(q.queue);
      && Distinct(q.queue) && Distinct(ids)
      && (forall i :: 0 <= i < |ids| ==> q.queue[i] == Conv(ids[i]) && ids[i] > 0)
      && (forall id :: id in Convs(ids) <==> id in q.queue)
      && (forall id :: id in q.queue <==> id in q.payloads)
  {
    var ids := Numbers(q.queue);
    SetSize(q.queue, IdSet(q.queue));
    forall i | 0 <= i < |ids| ensures q.queue[i] == Conv(ids[i]) && ids[i] > 0 { assert Native(q.queue[i], q, plan); }
    forall i, j | 0 <= i < j < |ids| ensures ids[i] != ids[j] { assert q.queue[i] != q.queue[j]; }
    forall id | id in q.queue ensures id in Convs(ids) {
      var i :| 0 <= i < |q.queue| && q.queue[i] == id;
      assert ids[i] in ids;
    }
    forall id | id in Convs(ids) ensures id in q.queue {
      var i :| 0 <= i < |ids| && ids[i] == id.n;
      assert q.queue[i] in q.queue;
    }
    assert forall id :: id in q.queue <==> id in IdSet(q.queue);
  }

  lemma BoundSizes(base: Base, plan: Original, q: Q)
    requires Bindable(base, plan, q)
    ensures q.pending == [] && |q.queue| == base.expectedPending && |q.states| == base.expectedSeen
    ensures |q.payloads| == |q.queue|
  {
    hide Convs, Native;
    KeysSize(q);
  }

  lemma BoundWellFormed(base: Base, plan: Original, q: Q)
    requires Bindable(base, plan, q)
    ensures WellFormed(q)
  {
    hide Convs, Native, WellFormed, ValidateQueue;
    ValidIsWellFormed(q, base.previous, base.expectedSeen);
  }

  lemma BoundPrevious(base: Base, plan: Original, q: Q, n: nat)
    requires Bindable(base, plan, q) && n in base.previous
    ensures IsDone(q, n) && Conv(n) !in q.queue
  {
    hide Convs, Native;
    assert Conv(n) in q.queue <==> Conv(n) in IdSet(q.queue);
  }

  lemma BoundMembers(base: Base, plan: Original, q: Q, i: nat)
    requires Bindable(base, plan, q) && i < |q.queue|
    ensures
      var m := BindSnapshot(base, plan, q).value;
      && q.queue[i] in m.hashes && m.members[i] == Member(q.queue[i], m.hashes[q.queue[i]], m.hashes[q.queue[i]])
      && ValidatePayload(q.queue[i], m.hashes[q.queue[i]], plan) == Some(m.hashes[q.queue[i]])
  {
    hide ValidateQueue, Convs;
    assert q.queue[i] in q.queue;
    assert Native(q.queue[i], q, plan);
  }

  lemma MapOfQueue(q: Q)
    requires forall id :: id in q.queue <==> id in q.payloads
    ensures (map id | id in q.queue :: q.payloads[id]) == q.payloads
  {
  }

  lemma BoundFields(base: Base, plan: Original, q: Q)
    requires Bindable(base, plan, q)
    ensures
      var m := BindSnapshot(base, plan, q).value;
      && m.base == base && m.ids == Numbers(q.queue) && m.members == MemberList(q.queue, q.payloads)
      && m.snapshot == m.members && m.before == StatsOf(q)
      && m.hashes == map id | id in q.queue :: q.payloads[id]
  {
    hide ValidateQueue, Convs, IdSet;
  }

  lemma BoundHashes(base: Base, plan: Original, q: Q)
    requires Bindable(base, plan, q)
    ensures BindSnapshot(base, plan, q).value.hashes == q.payloads && q.payloads.Keys == Convs(Numbers(q.queue))
  {
    BoundIds(base, plan, q);
    BoundFields(base, plan, q);
    MapOfQueue(q);
    hide ValidateQueue, Convs, IdSet, BindSnapshot, Bindable;
  }

  lemma BoundDisjoint(base: Base, plan: Original, q: Q, n: nat)
    requires Bindable(base, plan, q) && n in base.previous
    ensures n !in Numbers(q.queue)
  {
    hide Bindable;
    BoundPrevious(base, plan, q, n);
    assert Conv(n) !in Convs(Numbers(q.queue)) by { BoundIds(base, plan, q); }
  }

  lemma BoundPositive(base: Base, plan: Original, q: Q, n: nat)
    requires Bindable(base, plan, q) && n in Numbers(q.queue)
    ensures n > 0
  {
    hide Bindable;
    BoundIds(base, plan, q);
    var i :| 0 <= i < |Numbers(q.queue)| && Numbers(q.queue)[i] == n;
  }

  lemma BoundDistinct(base: Base, plan: Original, q: Q)
    requires Bindable(base, plan, q)
    ensures |Numbers(q.queue)| == |NumberSet(Numbers(q.queue))|
  {
    hide Bindable;
    BoundIds(base, plan, q);
    SetSize(Numbers(q.queue), NumberSet(Numbers(q.queue)));
  }

  lemma BoundMember(base: Base, plan: Original, q: Q, i: nat)
    requires Bindable(base, plan, q) && i < |q.queue|
    ensures |BindSnapshot(base, plan, q).value.ids| == |BindSnapshot(base, plan, q).value.members| == |q.queue|
    ensures FrozenMember(BindSnapshot(base, plan, q).value, plan, i)
  {
    hide BindSnapshot, Bindable, ValidatePayload, Numbers, MemberList;
    BoundFields(base, plan, q);
    BoundMembers(base, plan, q, i);
    assert q.queue[i] == Conv(Numbers(q.queue)[i]) by { BoundIds(base, plan, q); }
  }

  lemma BoundSnapshotFields(base: Base, plan: Original, q: Q)
    requires Bindable(base, plan, q)
    ensures
      var m := BindSnapshot(base, plan, q).value;
      && |m.ids| == m.base.expectedPending && |m.members| == |m.ids| && m.snapshot == m.members
      && m.before == Stats(|m.ids|, 0, |m.ids|, m.base.expectedSeen) && m.hashes.Keys == Convs(m.ids)
  {
    BoundFields(base, plan, q);
    BoundHashes(base, plan, q);
    BoundSizes(base, plan, q);
    hide BindSnapshot, Bindable, Convs;
  }

  lemma BoundIdList(base: Base, plan: Original, q: Q)
    requires Bindable(base, plan, q)
    ensures BindSnapshot(base, plan, q).value.ids == Numbers(q.queue) && BindSnapshot(base, plan, q).value.base == base
  {
    BoundFields(base, plan, q);
    hide BindSnapshot, Bindable, Numbers;
  }

  lemma BoundNumbers(base: Base, plan: Original, q: Q)
    requires Bindable(base, plan, q)
    ensures FrozenNumbers(BindSnapshot(base, plan, q).value)
  {
    BoundSnapshotFields(base, plan, q);
    BoundIdList(base, plan, q);
    BoundDistinct(base, plan, q);
    forall n | n in Numbers(q.queue) ensures n > 0 { BoundPositive(base, plan, q, n); }
    forall n | n in base.previous ensures n !in Numbers(q.queue) { BoundDisjoint(base, plan, q, n); }
    hide BindSnapshot, Bindable, Convs, Numbers, NumberSet;
  }

  /** The manifest of a bound snapshot passes validate_frozen. */
  lemma BoundIsFrozen(base: Base, plan: Original, q: Q)
    requires Bindable(base, plan, q)
    ensures ValidateFrozen(BindSnapshot(base, plan, q).value, plan)
  {
    var m := BindSnapshot(base, plan, q).value;
    hide BindSnapshot, Bindable, FrozenNumbers, FrozenMember, Numbers;
    assert |m.members| == |m.ids| == |q.queue| && m.snapshot == m.members by { BoundFields(base, plan, q); }
    BoundNumbers(base, plan, q);
    forall i | 0 <= i < |m.ids| ensures FrozenMember(m, plan, i) { BoundMember(base, plan, q, i); }
  }

  lemma BoundInOrder(base: Base, plan: Original, q: Q)
    requires Bindable(base, plan, q)
    ensures Order(q) == Remaining(Numbers(q.queue), q)
    ensures forall n :: n in Numbers(q.queue) ==> !IsDone(q, n)
  {
    var ids := Numbers(q.queue);
    hide Bindable, Convs;
    forall n | n in ids ensures !IsDone(q, n) {
      BoundIds(base, plan, q);
      BoundWellFormed(base, plan, q);
      assert Conv(n) in Convs(ids);
    }
    assert forall i :: 0 <= i < |ids| ==> q.queue[i] == Conv(ids[i]) by { BoundIds(base, plan, q); }
    RemainingAll(ids, q, q.queue);
    BoundSizes(base, plan, q);
    assert Reverse(q.pending) + q.queue == q.queue;
  }

  lemma BoundStates(base: Base, plan: Original, q: Q)
    requires Bindable(base, plan, q)
    ensures q.states.Keys == Convs(base.previous) + IdSet(q.queue)
  {
    hide ValidateQueue, Native, Convs, IdSet;
  }

  lemma BoundKeys(base: Base, plan: Original, q: Q)
    requires Bindable(base, plan, q)
    ensures q.states.Keys == Convs(base.previous) + Convs(Numbers(q.queue))
  {
    hide Bindable;
    BoundStates(base, plan, q);
    assert Convs(Numbers(q.queue)) == IdSet(q.queue) by { BoundIds(base, plan, q); }
  }

  lemma BoundMembership(base: Base, plan: Original, q: Q)
    requires Bindable(base, plan, q)
    ensures Frozen(BindSnapshot(base, plan, q).value, q)
  {
    var m := BindSnapshot(base, plan, q).value;
    hide BindSnapshot, Bindable, Convs, Numbers, IsDone;
    BoundFields(base, plan, q);
    BoundKeys(base, plan, q);
    assert m.hashes == q.payloads by { BoundHashes(base, plan, q); }
    forall n | n in base.previous ensures IsDone(q, n) { BoundPrevious(base, plan, q, n); }
  }

  lemma BoundUnfinished(base: Base, plan: Original, q: Q)
    requires Bindable(base, plan, q)
    ensures
      var m := BindSnapshot(base, plan, q).value;
      InOrder(m, q) && forall n :: n in m.ids ==> !IsDone(q, n)
  {
    hide BindSnapshot, Bindable, Numbers, Remaining, Order, IsDone;
    BoundFields(base, plan, q);
    BoundInOrder(base, plan, q);
  }

  /** A bound snapshot is a consistent start. */
  lemma BoundStart(base: Base, plan: Original, q: Q)
    requires Bindable(base, plan, q)
    ensures
      var m := BindSnapshot(base, plan, q).value;
      Inv(m, Run(q, map[])) && m.hashes.Keys == Convs(m.ids) && forall n :: n in m.ids ==> !IsDone(q, n)
  {
    hide BindSnapshot, Bindable, Convs, WellFormed, InOrder, IsDone, Frozen;
    BoundWellFormed(base, plan, q);
    BoundUnfinished(base, plan, q);
    BoundSnapshotFields(base, plan, q);
    BoundMembership(base, plan, q);
  }

  lemma KeysSize(q: Q)
    requires IdSet(q.queue) == q.payloads.Keys
    ensures |q.payloads| == |IdSet(q.queue)|
  {
  }

  /** Every state a bound snapshot can reach, by any consumers and any crashes. */
  lemma ReachableKeepsEverything(base: Base, plan: Original, q: Q, run: seq<Action>)
    requires Bindable(base, plan, q)
    ensures
      var m := BindSnapshot(base, plan, q).value;
      var s := Exec(m, Run(q, map[]), run);
      && Inv(m, s)
      && s.queue.states.Keys == q.states.Keys
      && (forall id :: id in s.queue.payloads ==> id in q.payloads && s.queue.payloads[id] == q.payloads[id])
  {
    var m := BindSnapshot(base, plan, q).value;
    BoundStart(base, plan, q);
    ExecKeepsInv(m, Run(q, map[]), run);
    assert Inv(m, Run(q, map[]));
  }

  // ----- What the resume check accepts ----------------------------------------------------------

  lemma QueueSize(q: Q)
    requires WellFormed(q)
    ensures |q.queue| == |IdSet(q.queue)|
  {
    SetSize(q.queue, IdSet(q.queue));
  }

  lemma NobodyReserved(q: Q, id: Id)
    requires WellFormed(q) && q.pending == [] && id in q.states
    ensures q.states[id] != Reserved
  {
    assert id !in q.pending;
  }

  /** Between reservations what is queued is what has a payload. */
  lemma QueuedPayloads(q: Q)
    requires WellFormed(q) && q.pending == []
    ensures IdSet(q.queue) == q.payloads.Keys == set id | id in q.states && q.states[id] == Queued
    ensures forall id :: id in q.states ==> q.states[id] == Queued || q.states[id] == Done
  {
    forall id | id in q.states ensures q.states[id] != Reserved { NobodyReserved(q, id); }
    forall id ensures id in IdSet(q.queue) <==> id in q.states && q.states[id] == Queued { }
    forall id ensures id in q.payloads.Keys <==> id in q.states && q.states[id] == Queued { }
    hide WellFormed;
  }

  lemma RecoveredValidates(m: Manifest, q: Q)
    requires WellFormed(q) && Frozen(m, q) && q.pending == [] && |q.states| == m.base.expectedSeen
    ensures ValidateQueue(q, m.base.previous, m.base.expectedSeen)
  {
    QueuedPayloads(q);
    QueueSize(q);
    hide Convs, IdSet, WellFormed;
  }

  lemma RecoveredMember(m: Manifest, plan: Original, s: Run, id: Id)
    requires WellFormed(s.queue) && Frozen(m, s.queue) && Backed(m, s) && ValidateFrozen(m, plan)
    requires id in Convs(m.ids)
    ensures MemberResumable(id, s.queue, m, plan, s.outcomes)
  {
    hide Convs;
    assert id in m.hashes.Keys && id in s.queue.states.Keys;
    var i :| 0 <= i < |m.ids| && m.ids[i] == id.n;
    assert FrozenMember(m, plan, i);
    assert s.queue.states[id] == Done ==> IsDone(s.queue, id.n);
  }

  lemma AcceptedWhenRecovered(m: Manifest, plan: Original, s: Run)
    requires Inv(m, s) && s.queue.pending == [] && ValidateFrozen(m, plan)
    requires |s.queue.states| == m.base.expectedSeen
    ensures ValidateResumeQueue(s.queue, m, plan, s.outcomes)
  {
    RecoveredValidates(m, s.queue);
    assert s.queue.payloads.Keys <= Convs(m.ids);
    hide Convs, ValidateQueue, WellFormed, InOrder, IsDone, MemberResumable;
    forall id | id in Convs(m.ids) ensures id in s.queue.states && id in m.hashes && MemberResumable(id, s.queue, m, plan, s.outcomes) {
      assert id in m.hashes.Keys && id in s.queue.states.Keys;
      RecoveredMember(m, plan, s, id);
    }
  }

  lemma ValidIsWellFormed(q: Q, previous: seq<nat>, expectedSeen: nat)
    requires ValidateQueue(q, previous, expectedSeen)
    ensures WellFormed(q) && q.pending == []
  {
    SetSize(q.queue, IdSet(q.queue));
    assert forall id :: id in q.queue <==> id in IdSet(q.queue);
  }

  lemma AcceptedPayload(m: Manifest, plan: Original, s: Run, id: Id)
    requires ValidateResumeQueue(s.queue, m, plan, s.outcomes) && id in s.queue.payloads
    ensures id in m.hashes && s.queue.payloads[id] == m.hashes[id]
  {
    hide Convs, ReadOutcomes, ValidateFrozen;
    FrozenKeys(m, plan);
    assert id in Convs(m.ids);
    assert MemberResumable(id, s.queue, m, plan, s.outcomes);
    assert s.queue.states[id] == Queued;
  }

  lemma AcceptedDone(m: Manifest, plan: Original, s: Run, n: nat)
    requires ValidateResumeQueue(s.queue, m, plan, s.outcomes) && n in m.ids && IsDone(s.queue, n)
    ensures n in s.outcomes
  {
    hide ReadOutcomes, ValidateFrozen, ValidateQueue;
    assert Conv(n) in Convs(m.ids);
    assert Conv(n) in m.hashes by { FrozenKeys(m, plan); }
    assert MemberResumable(Conv(n), s.queue, m, plan, s.outcomes);
  }

  lemma AcceptedMembers(m: Manifest, plan: Original, s: Run)
    requires ValidateResumeQueue(s.queue, m, plan, s.outcomes) && WellFormed(s.queue)
    ensures Frozen(m, s.queue) && Backed(m, s)
  {
    var q := s.queue;
    assert q.states.Keys == Convs(m.base.previous) + Convs(m.ids);
    assert ReadOutcomes(s.outcomes, m);
    forall n | n in m.base.previous ensures IsDone(q, n) { }
    hide WellFormed, Convs, ReadOutcomes, ValidateResumeQueue, IsDone;
    forall id | id in q.payloads ensures id in m.hashes && q.payloads[id] == m.hashes[id] { AcceptedPayload(m, plan, s, id); }
    forall n | n in m.ids && IsDone(q, n) ensures n in s.outcomes { AcceptedDone(m, plan, s, n); }
  }

  lemma FrozenKeys(m: Manifest, plan: Original)
    requires ValidateFrozen(m, plan)
    ensures m.hashes.Keys == Convs(m.ids)
  {
  }

  lemma AcceptedIsConsistent(m: Manifest, plan: Original, s: Run)
    requires ValidateResumeQueue(s.queue, m, plan, s.outcomes) && s.queue.queue == Remaining(m.ids, s.queue)
    ensures Inv(m, s)
  {
    ValidIsWellFormed(s.queue, m.base.previous, m.base.expectedSeen);
    AcceptedMembers(m, plan, s);
    hide ValidateResumeQueue, WellFormed, Frozen, Backed, Remaining;
    NothingPending(s.queue);
  }

  lemma NothingPending(q: Q)
    requires q.pending == []
    ensures Order(q) == q.queue
  {
  }

  lemma SameMarks(m: Manifest, q: Q, q': Q, id: Id)
    requires WellFormed(q) && WellFormed(q') && Frozen(m, q) && Frozen(m, q')
    requires q.pending == [] && q'.pending == [] && id in q.states && id in q'.states
    requires forall n :: n in m.ids ==> (IsDone(q, n) <==> IsDone(q', n))
    ensures q.states[id] == q'.states[id]
  {
    hide Convs;
    assert q.states[id] != Reserved && q'.states[id] != Reserved by { assert id !in q.pending && id !in q'.pending; }
    assert id in Convs(m.base.previous) || id in Convs(m.ids);
    if id.n in m.base.previous { assert IsDone(q, id.n) && IsDone(q', id.n); }
    else { assert IsDone(q, id.n) <==> IsDone(q', id.n); }
  }

  lemma SamePayloads(m: Manifest, q: Q, q': Q)
    requires WellFormed(q) && WellFormed(q') && Frozen(m, q) && Frozen(m, q') && q.states == q'.states
    ensures q.payloads == q'.payloads
  {
    hide Convs, IsDone;
    assert forall id :: id in q.payloads <==> id in q'.payloads;
    assert forall id :: id in q.payloads ==> q.payloads[id] == m.hashes[id] && q'.payloads[id] == m.hashes[id];
  }

  /** A recovered state is determined by its finished members and its outcomes. */
  lemma Determined(m: Manifest, s: Run, s': Run)
    requires Inv(m, s) && Inv(m, s') && s.queue.pending == [] && s'.queue.pending == []
    requires s.outcomes == s'.outcomes && forall n :: n in m.ids ==> (IsDone(s.queue, n) <==> IsDone(s'.queue, n))
    ensures s == s'
  {
    var q, q' := s.queue, s'.queue;
    assert q.states.Keys == q'.states.Keys;
    hide WellFormed, Backed, Convs;
    forall id | id in q.states ensures id in q'.states && q.states[id] == q'.states[id] {
      assert id in q'.states.Keys;
      SameMarks(m, q, q', id);
    }
    assert q.states == q'.states;
    hide Frozen;
    SamePayloads(m, q, q');
    assert q.queue == q'.queue by {
      RemainingDepends(m.ids, q, q');
      NothingPending(q); NothingPending(q');
    }
  }

  ghost predicate Reaches(m: Manifest, s: Run, s': Run) {
    exists run :: s' == Exec(m, s, run)
  }

  lemma Joins(m: Manifest, s: Run, s': Run, s'': Run)
    requires Reaches(m, s, s') && Reaches(m, s', s'')
    ensures Reaches(m, s, s'')
  {
    var a :| s' == Exec(m, s, a);
    var b :| s'' == Exec(m, s', b);
    ExecConcat(m, s, a, b);
  }

  lemma {:induction false} ExecConcat(m: Manifest, s: Run, a: seq<Action>, b: seq<Action>)
    ensures Exec(m, s, a + b) == Exec(m, Exec(m, s, a), b)
  {
    if b == [] { assert a + b == a; }
    else {
      assert (a + b)[..|a + b| - 1] == a + b[..|b| - 1];
      ExecConcat(m, s, a, b[..|b| - 1]);
    }
  }

  lemma OneStep(m: Manifest, s: Run, a: Action)
    ensures Reaches(m, s, Apply(m, s, a))
  {
    assert [a][..0] == [];
    assert Exec(m, s, [a]) == Apply(m, s, a);
  }

  lemma NoStep(m: Manifest, s: Run)
    ensures Reaches(m, s, s)
  {
    assert Exec(m, s, []) == s;
  }

  /** Everything can be reserved. */
  lemma {:induction false} TakeAll(m: Manifest, s: Run) returns (s': Run)
    requires Inv(m, s) && m.hashes.Keys == Convs(m.ids)
    ensures Reaches(m, s, s') && Inv(m, s') && s'.queue.queue == [] && s'.outcomes == s.outcomes
    ensures forall n :: IsDone(s'.queue, n) <==> IsDone(s.queue, n)
    decreases |s.queue.queue|
  {
    if s.queue.queue == [] { NoStep(m, s); return s; }
    var next := Apply(m, s, Take);
    TakeKeeps(m, s);
    OneStep(m, s, Take);
    s' := TakeAll(m, next);
    Joins(m, s, next, s');
  }

  lemma WriteOne(m: Manifest, s: Run, n: nat, o: Outcome) returns (next: Run)
    requires Inv(m, s) && m.hashes.Keys == Convs(m.ids) && s.queue.queue == []
    requires n in m.ids && !IsDone(s.queue, n) && ValidOutcome(o) && n !in s.outcomes
    ensures Reaches(m, s, next) && Inv(m, next) && next.queue == s.queue && next.outcomes == s.outcomes[n := o]
  {
    MemberIsReserved(m, s.queue, n);
    next := Apply(m, s, Write(n, o));
    WriteKeepsInv(m, s, n, o);
    OneStep(m, s, Write(n, o));
  }

  /** While everything is reserved, any valid outcomes can be written. */
  lemma {:induction false} WriteAll(m: Manifest, s: Run, ids: seq<nat>, target: map<nat, Outcome>) returns (s': Run)
    requires Inv(m, s) && m.hashes.Keys == Convs(m.ids) && s.queue.queue == []
    requires forall n :: n in ids ==> n in m.ids && !IsDone(s.queue, n)
    requires ReadOutcomes(target, m) && s.outcomes.Keys <= target.Keys
    requires forall n :: n in s.outcomes ==> s.outcomes[n] == target[n]
    ensures Reaches(m, s, s') && Inv(m, s') && s'.queue == s.queue
    ensures forall n :: n in s'.outcomes <==> n in s.outcomes || (n in ids && n in target)
    ensures forall n :: n in s'.outcomes ==> n in target && s'.outcomes[n] == target[n]
    decreases |ids|
  {
    hide Inv, Reaches, IsDone, Convs, ValidOutcome;
    if ids == [] { NoStep(m, s); return s; }
    var n := ids[0];
    assert n in ids;
    var next := s;
    if n in target && n !in s.outcomes {
      next := WriteOne(m, s, n, target[n]);
    } else {
      NoStep(m, s);
    }
    s' := WriteAll(m, next, ids[1..], target);
    Joins(m, s, next, s');
    assert forall k :: k in ids <==> k == n || k in ids[1..];
  }

  /** While everything unfinished is reserved, any members with outcomes can be finished. */
  lemma {:induction false} AckAll(m: Manifest, s: Run, ids: seq<nat>) returns (s': Run)
    requires Inv(m, s) && m.hashes.Keys == Convs(m.ids) && s.queue.queue == []
    requires forall n :: n in ids ==> n in m.ids && n in s.outcomes
    ensures Reaches(m, s, s') && Inv(m, s') && s'.queue.queue == [] && s'.outcomes == s.outcomes
    ensures forall n :: IsDone(s'.queue, n) <==> IsDone(s.queue, n) || n in ids
    decreases |ids|
  {
    if ids == [] { NoStep(m, s); return s; }
    var n := ids[0];
    assert n in ids;
    var next := s;
    if IsDone(s.queue, n) {
      NoStep(m, s);
    } else {
      next := Apply(m, s, GuardedAck(Conv(n)));
      MemberIsReserved(m, s.queue, n);
      AckKeepsInv(m, s, Conv(n));
      OneStep(m, s, GuardedAck(Conv(n)));
    }
    hide Inv, Reaches, IsDone;
    s' := AckAll(m, next, ids[1..]);
    Joins(m, s, next, s');
    assert forall k :: k in ids <==> k == n || k in ids[1..];
  }

  lemma MemberIsReserved(m: Manifest, q: Q, n: nat)
    requires WellFormed(q) && Frozen(m, q) && q.queue == [] && n in m.ids && !IsDone(q, n)
    ensures Conv(n) in q.pending
  {
    assert Conv(n) in q.states.Keys;
  }

  function Pick(ids: seq<nat>, q: Q): (r: seq<nat>)
    ensures forall n :: n in r <==> n in ids && IsDone(q, n)
  {
    if ids == [] then [] else (if IsDone(q, ids[0]) then [ids[0]] else []) + Pick(ids[1..], q)
  }

  lemma AcceptedIsReachable(m: Manifest, plan: Original, start: Run, s: Run)
    requires Inv(m, start) && start.outcomes == map[] && m.hashes.Keys == Convs(m.ids)
    requires forall n :: n in m.ids ==> !IsDone(start.queue, n)
    requires Inv(m, s) && s.queue.pending == []
    ensures exists run :: Exec(m, start, run + [Resume]) == s
  {
    hide Inv, Exec, Convs, IsDone;
    var taken := TakeAll(m, start);
    InvOutcomes(m, s);
    var written := WriteAll(m, taken, m.ids, s.outcomes);
    assert written.outcomes == s.outcomes;
    var picked := Pick(m.ids, s.queue);
    var acked := AckAll(m, written, picked);
    Joins(m, start, taken, written);
    Joins(m, start, written, acked);
    ResumeKeeps(m, acked);
    Determined(m, Apply(m, acked, Resume), s);
    var run :| acked == Exec(m, start, run);
    LastStep(m, start, run, Resume);
  }

  lemma InvOutcomes(m: Manifest, s: Run)
    requires Inv(m, s)
    ensures ReadOutcomes(s.outcomes, m) && forall n :: n in s.outcomes ==> n in m.ids
    ensures forall n :: n in m.ids && IsDone(s.queue, n) ==> n in s.outcomes
  {
  }

  lemma LastStep(m: Manifest, s: Run, run: seq<Action>, a: Action)
    ensures Exec(m, s, run + [a]) == Apply(m, Exec(m, s, run), a)
  {
    assert (run + [a])[..|run|] == run;
  }

  lemma ReachableIsAccepted(base: Base, plan: Original, q: Q, run: seq<Action>)
    requires Bindable(base, plan, q)
    ensures
      var m := BindSnapshot(base, plan, q).value;
      var s := Exec(m, Run(q, map[]), run + [Resume]);
      ValidateResumeQueue(s.queue, m, plan, s.outcomes) && s.queue.queue == Remaining(m.ids, s.queue)
  {
    var m := BindSnapshot(base, plan, q).value;
    var start := Run(q, map[]);
    var s := Exec(m, start, run + [Resume]);
    hide Exec, BindSnapshot, ValidateResumeQueue;
    LastStep(m, start, run, Resume);
    BoundFields(base, plan, q);
    BoundStart(base, plan, q);
    BoundSizes(base, plan, q);
    BoundIsFrozen(base, plan, q);
    ExecKeepsInv(m, start, run);
    hide Bindable, ValidateFrozen, Apply;
    ResumeKeeps(m, Exec(m, start, run));
    SameStates(m, start, s);
    AcceptedWhenRecovered(m, plan, s);
    NothingPending(s.queue);
  }

  lemma SameStates(m: Manifest, s: Run, s': Run)
    requires Inv(m, s) && Inv(m, s')
    ensures |s.queue.states| == |s'.queue.states|
  {
    assert s.queue.states.Keys == s'.queue.states.Keys;
    assert |s.queue.states| == |s.queue.states.Keys| && |s'.queue.states| == |s'.queue.states.Keys|;
  }

  /** The resume check accepts exactly the recovered states of the bound queue; all it does
      not read is the order of the queue. */
  lemma ResumeCheckIsExact(base: Base, plan: Original, q: Q, s: Run)
    requires Bindable(base, plan, q)
    ensures
      var m := BindSnapshot(base, plan, q).value;
      (exists run :: Exec(m, Run(q, map[]), run + [Resume]) == s)
      <==> ValidateResumeQueue(s.queue, m, plan, s.outcomes) && s.queue.queue == Remaining(m.ids, s.queue)
  {
    var m := BindSnapshot(base, plan, q).value;
    var start := Run(q, map[]);
    hide Exec, Bindable, BindSnapshot, Inv, Convs;
    forall run | Exec(m, start, run + [Resume]) == s
      ensures ValidateResumeQueue(s.queue, m, plan, s.outcomes) && s.queue.queue == Remaining(m.ids, s.queue)
    {
      ReachableIsAccepted(base, plan, q, run);
    }
    if ValidateResumeQueue(s.queue, m, plan, s.outcomes) && s.queue.queue == Remaining(m.ids, s.queue) {
      ValidIsWellFormed(s.queue, m.base.previous, m.base.expectedSeen);
      AcceptedIsConsistent(m, plan, s);
      hide ValidateResumeQueue, ValidateQueue, ValidateFrozen;
      BoundStart(base, plan, q);
      AcceptedIsReachable(m, plan, start, s);
    }
  }
}
