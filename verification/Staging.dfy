/** The run-scoped Redis stage of workers/seace/src/buenapro_worker/prod2/staging.py: two
    hashes and two lists, each script one atomic step. */
module Staging {
  import opened Common

  /** A staged identifier: a canonical convocation number, or any other text. */
  datatype Id = Conv(n: nat) | Other(text: string)

  datatype Mark = Queued | Reserved | Done

  datatype Queue<P> = Queue(states: map<Id, Mark>, payloads: map<Id, P>, queue: seq<Id>, pending: seq<Id>)

  datatype StagingError = PayloadMissing | StateMismatch | NoReservation | ReservationMissing | PendingMismatch

  function Reverse<T>(s: seq<T>): (r: seq<T>)
    ensures |r| == |s| && forall i :: 0 <= i < |s| ==> r[i] == s[|s| - 1 - i]
  {
    seq(|s|, i requires 0 <= i < |s| => s[|s| - 1 - i])
  }

  /** LREM with count 1. */
  function RemoveFirst<T(==)>(s: seq<T>, x: T): seq<T> {
    if s == [] then [] else if s[0] == x then s[1..] else [s[0]] + RemoveFirst(s[1..], x)
  }

  // ----- The scripts as functions ---------------------------------------------------------

  function Next<P>(q: Queue<P>): Result<(Queue<P>, Option<Id>), StagingError> {
    if q.queue == [] then Ok((q, None))
    else
      var id := q.queue[0];
      if id !in q.payloads then Err(PayloadMissing)
      else if id !in q.states || q.states[id] != Queued then Err(StateMismatch)
      else Ok((Queue(q.states[id := Reserved], q.payloads, q.queue[1..], [id] + q.pending), Some(id)))
  }

  function Ack<P>(q: Queue<P>, id: Id): Result<(Queue<P>, bool), StagingError> {
    if id !in q.states || q.states[id] == Done then Ok((q, false))
    else if q.states[id] != Reserved then Err(NoReservation)
    else if id !in q.pending then Err(ReservationMissing)
    else Ok((Queue(q.states[id := Done], q.payloads - {id}, q.queue, RemoveFirst(q.pending, id)), true))
  }

  predicate Recoverable<P>(q: Queue<P>, id: Id) {
    id in q.states && q.states[id] == Reserved && id in q.payloads
  }

  function Requeued(states: map<Id, Mark>, ids: seq<Id>): map<Id, Mark> {
    map id | id in states :: if id in ids then Queued else states[id]
  }

  lemma NothingRequeued(states: map<Id, Mark>)
    ensures Requeued(states, []) == states && Reverse<Id>([]) == []
  {
  }

  /** What putting one more reservation back does. */
  lemma RequeuedOne(states: map<Id, Mark>, ids: seq<Id>, i: nat)
    requires i < |ids| && ids[i] in states
    ensures Requeued(states, ids[..i])[ids[i] := Queued] == Requeued(states, ids[..i + 1])
    ensures [ids[i]] + Reverse(ids[..i]) == Reverse(ids[..i + 1])
  {
    assert ids[..i + 1] == ids[..i] + [ids[i]];
  }

  function Recover<P>(q: Queue<P>): Result<Queue<P>, StagingError> {
    if forall id :: id in q.pending ==> Recoverable(q, id)
    then Ok(Queue(Requeued(q.states, q.pending), q.payloads, Reverse(q.pending) + q.queue, []))
    else Err(PendingMismatch)
  }

  // ----- The object -------------------------------------------------------------------------

  class RedisStage<P> {
    var states: map<Id, Mark>
    var payloads: map<Id, P>
    var queue: seq<Id>
    var pending: seq<Id>

    function Snapshot(): Queue<P>
      reads this
    {
      Queue(states, payloads, queue, pending)
    }

    constructor (q: Queue<P>)
      ensures Snapshot() == q
    {
      states, payloads, queue, pending := q.states, q.payloads, q.queue, q.pending;
    }

    /** A new candidate goes to the end of the work; a known one changes nothing, whatever
        has become of it. */
    method StageOne(id: Id, payload: P) returns (added: bool)
      modifies this
      ensures added <==> id !in old(states)
      ensures !added ==> Snapshot() == old(Snapshot())
      ensures added ==>
                && Order(Snapshot()) == Order(old(Snapshot())) + [id] && pending == old(pending)
                && states == old(states)[id := Queued] && payloads == old(payloads)[id := payload]
      ensures WellFormed(old(Snapshot())) ==> WellFormed(Snapshot())
    {
      if id in states { return false; }
      states := states[id := Queued];
      payloads := payloads[id := payload];
      queue := queue + [id];
      return true;
    }

    /** Reserves the oldest candidate.  On a consistent stage this cannot fail, moves nothing
        in the order of the work, and leaves the payload to recover from. */
    method Reserve() returns (r: Result<Option<Id>, StagingError>)
      modifies this
      ensures match Next(old(Snapshot()))
              case Ok((q, job)) => r == Ok(job) && Snapshot() == q
              case Err(e) => r == Err(e) && Snapshot() == old(Snapshot())
      ensures WellFormed(old(Snapshot())) ==>
                && r.Ok? && WellFormed(Snapshot()) && Order(Snapshot()) == Order(old(Snapshot()))
                && payloads == old(payloads) && (r.value.None? <==> old(queue) == [])
                && (r.value.Some? ==> r.value.value in payloads && Unreserved(old(Snapshot()), Snapshot(), r.value.value))
    {
      ghost var before := Snapshot();
      if WellFormed(before) { NextKeeps(before); }
      if queue == [] { return Ok(None); }
      var id := queue[0];
      if id !in payloads { return Err(PayloadMissing); }
      if id !in states || states[id] != Queued { return Err(StateMismatch); }
      pending := [id] + pending;
      queue := queue[1..];
      states := states[id := Reserved];
      return Ok(Some(id));
    }

    /** Finishes a reservation.  On a consistent stage it fails exactly for a queued candidate,
        does something exactly for a reserved one, and then takes only that one out of the
        work. */
    method Acknowledge(id: Id) returns (r: Result<bool, StagingError>)
      modifies this
      ensures match Ack(old(Snapshot()), id)
              case Ok((q, done)) => r == Ok(done) && Snapshot() == q
              case Err(e) => r == Err(e) && Snapshot() == old(Snapshot())
      ensures WellFormed(old(Snapshot())) ==>
                && WellFormed(Snapshot())
                && (r.Err? <==> id in old(queue)) && (r == Ok(true) <==> id in old(pending))
                && (r == Ok(true) ==>
                      && id !in payloads && Order(Snapshot()) == Without(Order(old(Snapshot())), id)
                      && forall k :: k in old(payloads) && k != id ==> k in payloads && payloads[k] == old(payloads)[k])
    {
      ghost var before := Snapshot();
      if WellFormed(before) && id in pending { AckKeeps(before, id); }
      if id !in states || states[id] == Done { return Ok(false); }
      if states[id] != Reserved { return Err(NoReservation); }
      if id !in pending { return Err(ReservationMissing); }
      pending := RemoveFirst(pending, id);
      payloads := payloads - {id};
      states := states[id := Done];
      return Ok(true);
    }

    /** pending is newest first: prepending each item restores the original order. */
    method RecoverAll() returns (r: Result<nat, StagingError>)
      modifies this
      ensures match Recover(old(Snapshot()))
              case Ok(q) => r == Ok(|old(pending)|) && Snapshot() == q
              case Err(e) => r == Err(e) && Snapshot() == old(Snapshot())
    {
      NothingRequeued(states);
      hide Requeued, Reverse;
      for i := 0 to |pending|
        invariant forall j :: 0 <= j < i ==> Recoverable(Snapshot(), pending[j])
        invariant Snapshot() == old(Snapshot())
      {
        if !Recoverable(Snapshot(), pending[i]) { return Err(PendingMismatch); }
      }
      for i := 0 to |pending|
        invariant payloads == old(payloads) && pending == old(pending)
        invariant queue == Reverse(pending[..i]) + old(queue)
        invariant states == Requeued(old(states), pending[..i])
      {
        RequeuedOne(old(states), pending, i);
        assert Recoverable(old(Snapshot()), pending[i]);
        queue := [pending[i]] + queue;
        states := states[pending[i] := Queued];
      }
      assert pending[..|pending|] == pending;
      r := Ok(|pending|);
      pending := [];
    }
  }

  // ----- What every script keeps ------------------------------------------------------------

  /** The four keys agree: each known identifier is in exactly one place. */
  ghost predicate WellFormed<P>(q: Queue<P>) {
    && Distinct(q.queue) && Distinct(q.pending)
    && (forall id :: id in q.queue <==> id in q.states && q.states[id] == Queued)
    && (forall id :: id in q.pending <==> id in q.states && q.states[id] == Reserved)
    && (forall id :: id in q.payloads <==> id in q.states && q.states[id] != Done)
  }

  /** Reservations count as not yet taken: the order in which work will be done again. */
  function Order<P>(q: Queue<P>): seq<Id> { Reverse(q.pending) + q.queue }

  /** The oldest queued candidate was taken, and no other changed. */
  ghost predicate Unreserved<P>(q: Queue<P>, q': Queue<P>, id: Id) {
    && q.queue == [id] + q'.queue && id in q'.states && q'.states[id] == Reserved
    && forall k :: k in q.states && k != id ==> k in q'.states && q'.states[k] == q.states[k]
  }

  function Without(s: seq<Id>, x: Id): seq<Id> {
    if s == [] then [] else (if s[0] == x then [] else [s[0]]) + Without(s[1..], x)
  }

  lemma {:induction false} WithoutJoin(a: seq<Id>, b: seq<Id>, x: Id)
    ensures Without(a + b, x) == Without(a, x) + Without(b, x)
  {
    if a == [] { assert a + b == b; }
    else {
      assert (a + b)[0] == a[0] && (a + b)[1..] == a[1..] + b;
      WithoutJoin(a[1..], b, x);
    }
  }

  lemma {:induction false} WithoutAbsent(s: seq<Id>, x: Id)
    requires x !in s
    ensures Without(s, x) == s
  {
    if s != [] { WithoutAbsent(s[1..], x); }
  }

  lemma {:induction false} RemoveFirstIsWithout(s: seq<Id>, x: Id)
    requires Distinct(s)
    ensures RemoveFirst(s, x) == Without(s, x)
  {
    if s != [] {
      if s[0] == x { WithoutAbsent(s[1..], x); }
      else { RemoveFirstIsWithout(s[1..], x); }
    }
  }

  lemma ReverseStep(head: Id, rest: seq<Id>)
    ensures Reverse([head] + rest) == Reverse(rest) + [head]
  {
  }

  lemma WithoutOne(head: Id, x: Id)
    ensures Without([head], x) == if head == x then [] else [head]
  {
    assert [head][1..] == [];
  }

  lemma {:induction false} ReverseWithout(s: seq<Id>, x: Id)
    ensures Reverse(Without(s, x)) == Without(Reverse(s), x)
  {
    if s != [] {
      var head, rest := s[0], s[1..];
      assert s == [head] + rest;
      assert Without(s, x) == (if head == x then [] else [head]) + Without(rest, x);
      ReverseStep(head, rest);
      ReverseStep(head, Without(rest, x));
      WithoutOne(head, x);
      hide Reverse, Without;
      ReverseWithout(rest, x);
      WithoutJoin(Reverse(rest), [head], x);
      if head == x { assert [] + Without(rest, x) == Without(rest, x); }
    }
  }

  lemma {:induction false} RemoveFirstFacts<T>(s: seq<T>, x: T)
    requires Distinct(s)
    ensures Distinct(RemoveFirst(s, x))
    ensures forall y :: y in RemoveFirst(s, x) <==> y in s && y != x
  {
    if s != [] {
      RemoveFirstFacts(s[1..], x);
      if s[0] != x {
        var rest := RemoveFirst(s[1..], x);
        assert s[0] !in s[1..];
        assert RemoveFirst(s, x) == [s[0]] + rest;
        forall y ensures y in RemoveFirst(s, x) <==> y in s && y != x {
          assert y in s <==> y == s[0] || y in s[1..];
        }
      } else {
        assert x !in s[1..];
        assert forall y :: y in s <==> y == s[0] || y in s[1..];
      }
    }
  }

  /** On a consistent stage the next reservation cannot fail. */
  lemma NextKeeps<P>(q: Queue<P>)
    requires WellFormed(q)
    ensures Next(q).Ok? && WellFormed(Next(q).value.0) && Order(Next(q).value.0) == Order(q)
    ensures Next(q).value.1 == if q.queue == [] then None else Some(q.queue[0])
  {
  }

  lemma AckShape<P>(q: Queue<P>, q': Queue<P>, id: Id)
    requires WellFormed(q) && id in q.pending
    requires q' == Queue(q.states[id := Done], q.payloads - {id}, q.queue, q'.pending)
    requires Distinct(q'.pending) && forall y :: y in q'.pending <==> y in q.pending && y != id
    ensures WellFormed(q')
  {
    hide Distinct;
  }

  /** An acknowledged reservation leaves the order of everything else. */
  lemma AckKeeps<P>(q: Queue<P>, id: Id)
    requires WellFormed(q) && id in q.pending
    ensures Ack(q, id).Ok? && WellFormed(Ack(q, id).value.0) && Ack(q, id).value.1
    ensures Order(Ack(q, id).value.0) == Without(Order(q), id)
  {
    RemoveFirstFacts(q.pending, id);
    PendingGone(q, id);
    AckShape(q, Queue(q.states[id := Done], q.payloads - {id}, q.queue, RemoveFirst(q.pending, id)), id);
    assert id in q.states && q.states[id] == Reserved;
    hide RemoveFirst, Reverse, Without, WellFormed, Distinct;
  }

  lemma PendingGone<P>(q: Queue<P>, id: Id)
    requires Distinct(q.pending) && id in q.pending && id !in q.queue
    ensures Reverse(RemoveFirst(q.pending, id)) + q.queue == Without(Order(q), id)
  {
    RemoveFirstIsWithout(q.pending, id);
    ReverseWithout(q.pending, id);
    WithoutJoin(Reverse(q.pending), q.queue, id);
    WithoutAbsent(q.queue, id);
  }

  lemma ReverseFacts<T>(s: seq<T>)
    ensures forall x :: x in Reverse(s) <==> x in s
    ensures Distinct(s) ==> Distinct(Reverse(s))
  {
    forall x | x in s ensures x in Reverse(s) {
      var i :| 0 <= i < |s| && s[i] == x;
      assert Reverse(s)[|s| - 1 - i] == x;
    }
  }

  /** Recovery succeeds on every consistent stage and gives back the exact order. */
  lemma RecoverKeeps<P>(q: Queue<P>)
    requires WellFormed(q)
    ensures Recover(q).Ok? && WellFormed(Recover(q).value) && Order(Recover(q).value) == Order(q)
    ensures Recover(q).value.queue == Order(q) && Recover(q).value.pending == []
  {
    var q' := Recover(q).value;
    ReverseFacts(q.pending);
    var back := Reverse(q.pending);
    forall i, j | 0 <= i < j < |q'.queue| ensures q'.queue[i] != q'.queue[j] {
      if i < |back| <= j { assert back[i] in q.pending && q.queue[j - |back|] in q.queue; }
    }
    assert forall id :: id in q'.queue <==> id in q.pending || id in q.queue;
  }
}
