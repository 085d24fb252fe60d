/** The report of scripts/continue_prod2_pending.py: five lists over the authorized ids, and
    when it may call the continuation complete. */
module PendingReport {
  import opened Common
  import opened Staging
  import opened PendingQueue
  import opened PendingRuns

  datatype Report = Report(processed: nat, rejected: seq<nat>, accepted: nat, complete: seq<nat>, unread: seq<nat>,
                           review: seq<nat>, missing: seq<nat>, isComplete: bool)

  /** The tests of the report's list expressions, and three more for splitting them. */
  datatype Test = Any | Known | Absent | Accepted | Is(status: OutcomeStatus) | Attention | NotRejected | NeitherOfTwo

  predicate Holds(outcomes: map<nat, Outcome>, n: nat, test: Test) {
    match test
    case Any => true
    case Known => n in outcomes
    case Absent => n !in outcomes
    case Accepted => n in outcomes && outcomes[n].accepted
    case Is(status) => n in outcomes && outcomes[n].status == status
    case Attention => n in outcomes && outcomes[n].status !in {RejectedBelow60, Llm1Complete, AcceptedUnread}
    case NotRejected => n in outcomes && outcomes[n].status != RejectedBelow60
    case NeitherOfTwo => n in outcomes && outcomes[n].status !in {RejectedBelow60, Llm1Complete}
  }

  function Where(ids: seq<nat>, outcomes: map<nat, Outcome>, test: Test): seq<nat> {
    if ids == [] then []
    else (if Holds(outcomes, ids[0], test) then [ids[0]] else []) + Where(ids[1..], outcomes, test)
  }

  function MakeReport(m: Manifest, q: Q, outcomes: map<nat, Outcome>, errors: nat, unknownAttempts: nat): Report {
    var missing := Where(m.ids, outcomes, Absent);
    var review := Where(m.ids, outcomes, Attention);
    Report(|Where(m.ids, outcomes, Known)|, Where(m.ids, outcomes, Is(RejectedBelow60)),
           |Where(m.ids, outcomes, Accepted)|, Where(m.ids, outcomes, Is(Llm1Complete)),
           Where(m.ids, outcomes, Is(AcceptedUnread)), review, missing,
           missing == [] && review == [] && errors == 0 && StatsOf(q).payloads == 0 && unknownAttempts == 0)
  }

  lemma {:induction false} WhereMembers(ids: seq<nat>, outcomes: map<nat, Outcome>, test: Test)
    ensures forall n :: n in Where(ids, outcomes, test) <==> n in ids && Holds(outcomes, n, test)
  {
    if ids != [] {
      WhereMembers(ids[1..], outcomes, test);
      assert forall n :: n in ids <==> n == ids[0] || n in ids[1..];
    }
  }

  ghost predicate Ascending(at: seq<nat>) { forall i, j :: 0 <= i < j < |at| ==> at[i] < at[j] }

  /** The list holds the ids at these positions, in the manifest's order. */
  ghost predicate ListsAt(ids: seq<nat>, list: seq<nat>, at: seq<nat>) {
    && |at| == |list| && Ascending(at)
    && forall k :: 0 <= k < |at| ==> at[k] < |ids| && list[k] == ids[at[k]]
  }

  ghost predicate Lists(ids: seq<nat>, list: seq<nat>, positions: set<nat>) {
    exists at :: ListsAt(ids, list, at) && forall i :: i in positions <==> i in at
  }

  ghost function Shifted(at: seq<nat>): (r: seq<nat>)
    ensures |r| == |at| && forall k :: 0 <= k < |at| ==> r[k] == at[k] + 1
  {
    seq(|at|, k requires 0 <= k < |at| => at[k] + 1)
  }

  /** Positions in the tail are one further on in the whole. */
  lemma ShiftedAt(ids: seq<nat>, list: seq<nat>, at: seq<nat>)
    requires ids != [] && ListsAt(ids[1..], list, at)
    ensures ListsAt(ids, list, Shifted(at)) && ListsAt(ids, [ids[0]] + list, [0] + Shifted(at))
    ensures forall i :: i in Shifted(at) <==> i > 0 && i - 1 in at
  {
    var more := Shifted(at);
    forall i | i > 0 && i - 1 in at ensures i in more {
      var k :| 0 <= k < |at| && at[k] == i - 1;
      assert more[k] == i;
    }
  }

  lemma {:induction false} WhereAt(ids: seq<nat>, outcomes: map<nat, Outcome>, test: Test) returns (at: seq<nat>)
    ensures ListsAt(ids, Where(ids, outcomes, test), at)
    ensures forall i :: i in at <==> 0 <= i < |ids| && Holds(outcomes, ids[i], test)
  {
    hide Holds;
    at := [];
    if ids != [] {
      var rest := WhereAt(ids[1..], outcomes, test);
      ShiftedAt(ids, Where(ids[1..], outcomes, test), rest);
      hide ListsAt;
      at := if Holds(outcomes, ids[0], test) then [0] + Shifted(rest) else Shifted(rest);
      assert forall i :: 1 <= i < |ids| ==> ids[1..][i - 1] == ids[i];
    }
  }

  lemma {:induction false} SetOfAscending(at: seq<nat>, positions: set<nat>)
    requires Ascending(at) && forall i :: i in positions <==> i in at
    ensures |positions| == |at|
  {
    if at != [] {
      var n := |at| - 1;
      SetOfAscending(at[..n], positions - {at[n]});
    } else {
      assert positions == {};
    }
  }

  /** Which ids each list holds and in which order, and what the accepted number counts. */
  lemma ReportLists(m: Manifest, q: Q, outcomes: map<nat, Outcome>, errors: nat, unknownAttempts: nat)
    ensures
      var r, ids, n := MakeReport(m, q, outcomes, errors, unknownAttempts), m.ids, |m.ids|;
      && Lists(ids, r.rejected, set i: nat | 0 <= i < n && ids[i] in outcomes && outcomes[ids[i]].status == RejectedBelow60)
      && Lists(ids, r.complete, set i: nat | 0 <= i < n && ids[i] in outcomes && outcomes[ids[i]].status == Llm1Complete)
      && Lists(ids, r.unread, set i: nat | 0 <= i < n && ids[i] in outcomes && outcomes[ids[i]].status == AcceptedUnread)
      && Lists(ids, r.review, set i: nat | 0 <= i < n && ids[i] in outcomes && outcomes[ids[i]].status != RejectedBelow60
                                           && outcomes[ids[i]].status != Llm1Complete && outcomes[ids[i]].status != AcceptedUnread)
      && Lists(ids, r.missing, set i: nat | 0 <= i < n && ids[i] !in outcomes)
      && r.accepted == |set i: nat | 0 <= i < n && ids[i] in outcomes && outcomes[ids[i]].accepted|
  {
    var ids := m.ids;
    var rejected := WhereAt(ids, outcomes, Is(RejectedBelow60));
    var complete := WhereAt(ids, outcomes, Is(Llm1Complete));
    var unread := WhereAt(ids, outcomes, Is(AcceptedUnread));
    var review := WhereAt(ids, outcomes, Attention);
    var missing := WhereAt(ids, outcomes, Absent);
    var accepted := WhereAt(ids, outcomes, Accepted);
    hide Where, ListsAt, Ascending;
    SetOfAscending(accepted, set i: nat | 0 <= i < |ids| && ids[i] in outcomes && outcomes[ids[i]].accepted) by {
      AscendingAt(ids, Where(ids, outcomes, Accepted), accepted);
    }
    AscendingAt(ids, Where(ids, outcomes, Accepted), accepted);
  }

  lemma AscendingAt(ids: seq<nat>, list: seq<nat>, at: seq<nat>)
    requires ListsAt(ids, list, at)
    ensures Ascending(at) && |at| == |list|
  {
  }

  predicate Splits(both: Test, one: Test, other: Test) {
    || (both == Any && one == Known && other == Absent)
    || (both == Known && one == Is(RejectedBelow60) && other == NotRejected)
    || (both == NotRejected && one == Is(Llm1Complete) && other == NeitherOfTwo)
    || (both == NeitherOfTwo && one == Is(AcceptedUnread) && other == Attention)
  }

  lemma OneOrOther(outcomes: map<nat, Outcome>, n: nat, both: Test, one: Test, other: Test)
    requires Splits(both, one, other)
    ensures Holds(outcomes, n, both) <==> Holds(outcomes, n, one) || Holds(outcomes, n, other)
    ensures !(Holds(outcomes, n, one) && Holds(outcomes, n, other))
  {
  }

  /** Two tests that never agree and always cover keep every id once. */
  lemma {:induction false} WhereSplits(ids: seq<nat>, outcomes: map<nat, Outcome>, both: Test, one: Test, other: Test)
    requires Splits(both, one, other)
    ensures multiset(Where(ids, outcomes, both)) == multiset(Where(ids, outcomes, one)) + multiset(Where(ids, outcomes, other))
    ensures |Where(ids, outcomes, both)| == |Where(ids, outcomes, one)| + |Where(ids, outcomes, other)|
  {
    hide Holds, Splits;
    if ids != [] {
      WhereSplits(ids[1..], outcomes, both, one, other);
      OneOrOther(outcomes, ids[0], both, one, other);
    }
  }

  lemma {:induction false} WhereAny(ids: seq<nat>, outcomes: map<nat, Outcome>)
    ensures Where(ids, outcomes, Any) == ids
  {
    if ids != [] { WhereAny(ids[1..], outcomes); }
  }

  /** The five lists hold every authorized id exactly as often as the manifest does, whatever
      the outcomes are. */
  lemma ReportPartitions(m: Manifest, q: Q, outcomes: map<nat, Outcome>, errors: nat, unknownAttempts: nat)
    ensures
      var r := MakeReport(m, q, outcomes, errors, unknownAttempts);
      && multiset(r.rejected) + multiset(r.complete) + multiset(r.unread) + multiset(r.review) + multiset(r.missing) == multiset(m.ids)
      && r.processed == |r.rejected| + |r.complete| + |r.unread| + |r.review|
      && |m.ids| == r.processed + |r.missing|
  {
    hide Where, Splits;
    WhereAny(m.ids, outcomes);
    Covers(m.ids, outcomes);
  }

  lemma Covers(ids: seq<nat>, outcomes: map<nat, Outcome>)
    ensures
      multiset(Where(ids, outcomes, Is(RejectedBelow60))) + multiset(Where(ids, outcomes, Is(Llm1Complete)))
      + multiset(Where(ids, outcomes, Is(AcceptedUnread))) + multiset(Where(ids, outcomes, Attention))
      + multiset(Where(ids, outcomes, Absent)) == multiset(Where(ids, outcomes, Any))
    ensures |Where(ids, outcomes, Any)| == |Where(ids, outcomes, Known)| + |Where(ids, outcomes, Absent)|
    ensures |Where(ids, outcomes, Known)|
            == |Where(ids, outcomes, Is(RejectedBelow60))| + |Where(ids, outcomes, Is(Llm1Complete))|
               + |Where(ids, outcomes, Is(AcceptedUnread))| + |Where(ids, outcomes, Attention)|
  {
    hide Where;
    WhereSplits(ids, outcomes, Any, Known, Absent);
    WhereSplits(ids, outcomes, Known, Is(RejectedBelow60), NotRejected);
    WhereSplits(ids, outcomes, NotRejected, Is(Llm1Complete), NeitherOfTwo);
    WhereSplits(ids, outcomes, NeitherOfTwo, Is(AcceptedUnread), Attention);
    Regroup(multiset(Where(ids, outcomes, Is(RejectedBelow60))), multiset(Where(ids, outcomes, Is(Llm1Complete))),
            multiset(Where(ids, outcomes, Is(AcceptedUnread))), multiset(Where(ids, outcomes, Attention)),
            multiset(Where(ids, outcomes, Absent)));
  }

  lemma Regroup(a: multiset<nat>, b: multiset<nat>, c: multiset<nat>, d: multiset<nat>, e: multiset<nat>)
    ensures a + b + c + d + e == (a + (b + (c + d))) + e
  {
  }

  predicate Conclusive(o: Outcome) {
    o.status == RejectedBelow60 || o.status == Llm1Complete || o.status == AcceptedUnread
  }

  /** After any run, with no worker error and no unpriced attempt, the report says complete
      exactly when every authorized member is acknowledged with a conclusive outcome. */
  lemma CompleteExactly(base: Base, plan: Original, q: Q, run: seq<Action>, errors: nat, unknownAttempts: nat)
    requires Bindable(base, plan, q)
    ensures
      var m := BindSnapshot(base, plan, q).value;
      var s := Exec(m, Run(q, map[]), run);
      MakeReport(m, s.queue, s.outcomes, errors, unknownAttempts).isComplete
      <==> errors == 0 && unknownAttempts == 0
           && forall n :: n in m.ids ==> IsDone(s.queue, n) && n in s.outcomes && Conclusive(s.outcomes[n])
  {
    var m := BindSnapshot(base, plan, q).value;
    var s := Exec(m, Run(q, map[]), run);
    hide BindSnapshot, Exec, Bindable;
    ReachableKeepsEverything(base, plan, q, run);
    CompleteWhen(m, s, errors, unknownAttempts);
  }

  lemma CompleteWhen(m: Manifest, s: Run, errors: nat, unknownAttempts: nat)
    requires Inv(m, s)
    ensures MakeReport(m, s.queue, s.outcomes, errors, unknownAttempts).isComplete
            <==> errors == 0 && unknownAttempts == 0
                 && forall n :: n in m.ids ==> IsDone(s.queue, n) && n in s.outcomes && Conclusive(s.outcomes[n])
  {
    hide WellFormed, Frozen, Backed, InOrder, IsDone, Where;
    NothingLeft(m, s.queue);
    var missing, review := Where(m.ids, s.outcomes, Absent), Where(m.ids, s.outcomes, Attention);
    WhereMembers(m.ids, s.outcomes, Absent);
    WhereMembers(m.ids, s.outcomes, Attention);
    assert missing != [] ==> missing[0] in missing;
    assert review != [] ==> review[0] in review;
  }

  lemma NothingLeft(m: Manifest, q: Q)
    requires WellFormed(q) && Frozen(m, q)
    ensures |q.payloads| == 0 <==> forall n :: n in m.ids ==> IsDone(q, n)
  {
  }
}
