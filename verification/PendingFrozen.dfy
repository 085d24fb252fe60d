/** What validate_frozen of scripts/continue_prod2_pending.py accepts: the manifests that some
    snapshot of the queue binds to. */
module PendingFrozen {
  import opened Common
  import opened Staging
  import opened PendingQueue
  import opened PendingRuns

  /** The queue a frozen manifest speaks of. */
  function Unbound(m: Manifest): Q {
    Queue(Marks(Convs(m.base.previous), Convs(m.ids)), m.hashes, Listed(m.ids), [])
  }

  function Listed(ids: seq<nat>): (r: seq<Id>)
    ensures |r| == |ids| && forall i :: 0 <= i < |ids| ==> r[i] == Conv(ids[i])
  {
    seq(|ids|, i requires 0 <= i < |ids| => Conv(ids[i]))
  }

  lemma OneMoreEach(a: set<Id>, b: set<nat>, n: nat)
    requires |a| == |b| && (Conv(n) in a <==> n in b)
    ensures |{Conv(n)} + a| == |{n} + b|
  {
    if n in b { assert {Conv(n)} + a == a && {n} + b == b; }
  }

  lemma {:induction false} ConvsSize(ids: seq<nat>)
    ensures |Convs(ids)| == |NumberSet(ids)|
  {
    if ids != [] {
      ConvsSize(ids[1..]);
      assert Conv(ids[0]) in Convs(ids[1..]) <==> ids[0] in NumberSet(ids[1..]);
      OneMoreEach(Convs(ids[1..]), NumberSet(ids[1..]), ids[0]);
      assert Convs(ids) == {Conv(ids[0])} + Convs(ids[1..]) && NumberSet(ids) == {ids[0]} + NumberSet(ids[1..]) by {
        hide *;
        Unfolded(ids);
      }
      hide *;
    }
  }

  lemma Unfolded(ids: seq<nat>)
    requires ids != []
    ensures Convs(ids) == {Conv(ids[0])} + Convs(ids[1..]) && NumberSet(ids) == {ids[0]} + NumberSet(ids[1..])
  {
  }

  lemma ListedSet(ids: seq<nat>)
    ensures IdSet(Listed(ids)) == Convs(ids) && Numbers(Listed(ids)) == ids
  {
    var queue := Listed(ids);
    forall id ensures id in IdSet(queue) <==> id in Convs(ids) {
      if id in queue {
        var i :| 0 <= i < |queue| && queue[i] == id;
        assert ids[i] in ids;
      }
      if id.Conv? && id.n in ids {
        var i :| 0 <= i < |ids| && ids[i] == id.n;
        assert queue[i] in queue;
      }
    }
    hide IdSet, Convs;
    assert Numbers(queue) == ids;
  }

  lemma Apart(m: Manifest)
    requires FrozenNumbers(m)
    ensures Convs(m.base.previous) !! Convs(m.ids)
  {
  }

  lemma FrozenAt(m: Manifest, plan: Original, i: nat)
    requires ValidateFrozen(m, plan) && i < |m.ids|
    ensures
      var id := Conv(m.ids[i]);
      && id in m.hashes && m.members[i] == Member(id, m.hashes[id], m.hashes[id])
      && ValidatePayload(id, m.hashes[id], plan).Some?
  {
    assert FrozenMember(m, plan, i);
    hide FrozenNumbers;
  }

  lemma JoinedSize<T>(a: set<T>, b: set<T>)
    requires a !! b
    ensures |a + b| == |a| + |b|
  {
  }

  function Marks(done: set<Id>, queued: set<Id>): map<Id, Mark> {
    map id | id in done + queued :: if id in queued then Queued else Done
  }

  lemma MarksOf(done: set<Id>, queued: set<Id>)
    requires done !! queued
    ensures
      var marks := Marks(done, queued);
      && marks.Keys == done + queued && (set id | id in marks && marks[id] == Queued) == queued
      && (forall id :: id in marks ==> marks[id] == Queued || marks[id] == Done)
      && (forall id :: id in done ==> id in marks && marks[id] == Done)
  {
  }

  lemma UnboundStates(m: Manifest)
    requires FrozenNumbers(m)
    ensures
      var q := Unbound(m);
      && q.states.Keys == Convs(m.base.previous) + Convs(m.ids)
      && (set id | id in q.states && q.states[id] == Queued) == Convs(m.ids)
      && (forall id :: id in q.states ==> q.states[id] == Queued || q.states[id] == Done)
      && (forall n :: n in m.base.previous ==> Conv(n) in q.states && q.states[Conv(n)] == Done)
  {
    Apart(m);
    MarksOf(Convs(m.base.previous), Convs(m.ids));
    assert forall n :: n in m.base.previous ==> Conv(n) in Convs(m.base.previous);
    hide FrozenNumbers, Convs, Listed, Marks;
  }

  lemma UnboundCount(m: Manifest)
    requires FrozenNumbers(m)
    ensures |Unbound(m).states| == |NumberSet(m.base.previous)| + |m.ids|
  {
    var q := Unbound(m);
    Apart(m);
    ConvsSize(m.base.previous);
    ConvsSize(m.ids);
    UnboundStates(m);
    assert |m.ids| == |NumberSet(m.ids)|;
    hide FrozenNumbers, Convs, NumberSet, Unbound;
    JoinedSize(Convs(m.base.previous), Convs(m.ids));
    assert |q.states| == |q.states.Keys|;
  }

  lemma UnboundValid(m: Manifest)
    requires FrozenNumbers(m) && |NumberSet(m.base.previous)| + |m.ids| == m.base.expectedSeen
    ensures ValidateQueue(Unbound(m), m.base.previous, m.base.expectedSeen)
  {
    UnboundStates(m);
    UnboundCount(m);
    ListedSet(m.ids);
    ConvsSize(m.ids);
    assert m.hashes.Keys == Convs(m.ids) && |m.ids| == |NumberSet(m.ids)|;
    hide FrozenNumbers, Convs, IdSet, NumberSet, Numbers;
  }

  lemma UnboundBinds(m: Manifest, plan: Original)
    requires ValidateFrozen(m, plan) && |NumberSet(m.base.previous)| + |m.ids| == m.base.expectedSeen
    ensures Bindable(m.base, plan, Unbound(m))
  {
    var q := Unbound(m);
    UnboundValid(m);
    UnboundStates(m);
    ListedSet(m.ids);
    forall id | id in q.queue ensures Native(id, q, plan) {
      var i :| 0 <= i < |q.queue| && q.queue[i] == id;
      FrozenAt(m, plan, i);
    }
    assert |m.ids| == m.base.expectedPending;
    hide FrozenNumbers, FrozenMember, ValidateQueue, Convs, IdSet, NumberSet, Numbers, Native;
  }

  lemma SameMembers(m: Manifest, plan: Original)
    requires ValidateFrozen(m, plan)
    ensures (forall id :: id in Listed(m.ids) ==> id in m.hashes) && MemberList(Listed(m.ids), m.hashes) == m.members
  {
    var queue := Listed(m.ids);
    forall i | 0 <= i < |m.ids| ensures queue[i] in m.hashes && m.members[i] == Member(queue[i], m.hashes[queue[i]], m.hashes[queue[i]]) {
      FrozenAt(m, plan, i);
    }
    hide FrozenNumbers, FrozenMember;
    assert MemberList(queue, m.hashes) == m.members;
  }

  lemma UnboundIsSame(m: Manifest, plan: Original)
    requires ValidateFrozen(m, plan) && |NumberSet(m.base.previous)| + |m.ids| == m.base.expectedSeen
    ensures Bindable(m.base, plan, Unbound(m)) && BindSnapshot(m.base, plan, Unbound(m)) == Some(m)
  {
    var q := Unbound(m);
    UnboundBinds(m, plan);
    SameMembers(m, plan);
    FrozenFields(m, plan);
    hide ValidateFrozen, FrozenNumbers, NumberSet;
    BoundFields(m.base, plan, q);
    BoundHashes(m.base, plan, q);
    BoundSizes(m.base, plan, q);
    hide Bindable, MemberList, Convs, IdSet;
    ListedSet(m.ids);
  }

  lemma FrozenFields(m: Manifest, plan: Original)
    requires ValidateFrozen(m, plan)
    ensures m.snapshot == m.members && m.before == Stats(|m.ids|, 0, |m.ids|, m.base.expectedSeen)
  {
  }

  lemma BoundApart(base: Base, plan: Original, q: Q)
    requires Bindable(base, plan, q)
    ensures Convs(base.previous) !! Convs(Numbers(q.queue))
  {
    forall n | n in base.previous ensures n !in Numbers(q.queue) { BoundDisjoint(base, plan, q, n); }
    hide Bindable, Numbers;
  }

  lemma BoundCounts(base: Base, plan: Original, q: Q)
    requires Bindable(base, plan, q)
    ensures |NumberSet(base.previous)| + |Numbers(q.queue)| == base.expectedSeen
  {
    var ids := Numbers(q.queue);
    BoundDistinct(base, plan, q);
    BoundSizes(base, plan, q);
    BoundApart(base, plan, q);
    BoundKeys(base, plan, q);
    ConvsSize(base.previous);
    ConvsSize(ids);
    hide Bindable, Convs, IdSet, NumberSet, Numbers;
    JoinedSize(Convs(base.previous), Convs(ids));
    assert |q.states| == |q.states.Keys|;
  }

  /** Exactly the manifests of bindable snapshots pass, once the numbers of members add up,
      which validate_frozen leaves to the later check of the queue. */
  lemma FrozenExactly(m: Manifest, plan: Original)
    ensures ValidateFrozen(m, plan) && |NumberSet(m.base.previous)| + |m.ids| == m.base.expectedSeen
            <==> exists q: Q :: Bindable(m.base, plan, q) && BindSnapshot(m.base, plan, q) == Some(m)
  {
    hide ValidateFrozen, Bindable, BindSnapshot;
    if ValidateFrozen(m, plan) && |NumberSet(m.base.previous)| + |m.ids| == m.base.expectedSeen { UnboundIsSame(m, plan); }
    if q: Q :| Bindable(m.base, plan, q) && BindSnapshot(m.base, plan, q) == Some(m) {
      BoundIsFrozen(m.base, plan, q);
      BoundIdList(m.base, plan, q);
      BoundCounts(m.base, plan, q);
    }
  }
}
