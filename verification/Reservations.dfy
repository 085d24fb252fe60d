/** Rows of prod2_evaluations: one reservation per frozen request, claimed before any paid
    work, over any interleaving of claimers, completions, expiries and the two recoveries. */
module Reservations {
  import opened Common

  type Token = nat

  /** What the evaluation key hashes; the kind is always gemini_match. */
  datatype Binding = Binding(convocation: nat, profile: string, model: string, policy: string, request: string)

  datatype Status = Pending | Running | Uncertain | Done | Failed

  datatype Row = Row(status: Status, token: Option<Token>, leaseUntil: int, result: Option<string>)

  datatype Claim = Claim(binding: Binding, token: Option<Token>)

  /** Two histories: every claim handed to a caller, and every claim given back unused. */
  datatype State = State(rows: map<Binding, Row>, now: nat, issued: seq<Claim>, released: seq<Claim>)

  datatype ClaimStatus = Claimed | AlreadyDone | NotPending(status: Status)

  datatype Action =
    | TryClaim(binding: Binding, token: Token)
    | Wait(seconds: nat)
    | Note(binding: Binding, token: Token, result: string)     // a running row is tagged
    | MarkUncertain(binding: Binding, token: Token)
    | Complete(binding: Binding, token: Token, result: string)
    | Fail(binding: Binding, token: Token, result: string)     // a terminal failure, reconciled
    | Release(binding: Binding, token: Token)                  // the provider rejected the call
    | Renew(binding: Binding, token: Token)                    // recover_rejected_jev_claim

  const LEASE := 3600

  /** claim_evaluation: insert if absent, then decide on the locked row. */
  function ClaimEvaluation(s: State, b: Binding, token: Token): (r: (State, ClaimStatus))
    ensures r.1 == Claimed <==> b !in s.rows || s.rows[b].status == Pending
    ensures r.1 == Claimed ==>
              && b in r.0.rows && r.0.rows == s.rows[b := r.0.rows[b]]
              && r.0.rows[b].status == Running && r.0.rows[b].token == Some(token) && r.0.rows[b].leaseUntil == s.now + LEASE
    ensures r.0.now == s.now
  {
    var row := if b in s.rows then s.rows[b] else Row(Pending, None, 0, None);
    var kept := s.(rows := s.rows[b := row]);
    if row.status == Done then (kept, AlreadyDone)
    else if row.status == Running && row.leaseUntil <= s.now then
      (s.(rows := s.rows[b := row.(status := Uncertain)]), NotPending(Uncertain))
    else if row.status != Pending then (kept, NotPending(row.status))
    else
      (s.(rows := s.rows[b := row.(status := Running, token := Some(token), leaseUntil := s.now + LEASE)],
          issued := s.issued + [Claim(b, Some(token))]),
       Claimed)
  }

  predicate Owned(s: State, b: Binding, token: Token) {
    b in s.rows && s.rows[b].token == Some(token)
  }

  /** A statement `UPDATE … WHERE claim_token=… AND status IN …`. */
  function Update(s: State, b: Binding, token: Token, from: set<Status>, row: Row): State {
    if Owned(s, b, token) && s.rows[b].status in from then s.(rows := s.rows[b := row]) else s
  }

  function RowAt(s: State, b: Binding): Row { if b in s.rows then s.rows[b] else Row(Pending, None, 0, None) }

  function Apply(s: State, a: Action): State {
    match a
    case TryClaim(b, token) => ClaimEvaluation(s, b, token).0
    case Wait(seconds) => s.(now := s.now + seconds)
    case Note(b, token, result) => Update(s, b, token, {Running}, RowAt(s, b).(result := Some(result)))
    case MarkUncertain(b, token) => Update(s, b, token, {Running}, RowAt(s, b).(status := Uncertain))
    case Complete(b, token, result) =>
      Update(s, b, token, {Running, Uncertain}, RowAt(s, b).(status := Done, result := Some(result)))
    case Fail(b, token, result) =>
      Update(s, b, token, {Running, Uncertain}, RowAt(s, b).(status := Failed, result := Some(result)))
    case Release(b, token) =>
      if Owned(s, b, token) && s.rows[b].status == Running
      then s.(rows := s.rows[b := s.rows[b].(status := Pending, token := None, leaseUntil := 0)],
              released := s.released + [Claim(b, Some(token))])
      else s
    case Renew(b, token) => Update(s, b, token, {Uncertain}, RowAt(s, b).(status := Running, leaseUntil := s.now + LEASE))
  }

  function Exec(s: State, run: seq<Action>): State {
    if run == [] then s else Apply(Exec(s, run[..|run| - 1]), run[|run| - 1])
  }

  /** claim_evaluation over the row it finds. */
  lemma ClaimExactly(s: State, b: Binding, token: Token)
    ensures
      var (s', answer) := ClaimEvaluation(s, b, token);
      && s'.now == s.now && s'.released == s.released
      && if b !in s.rows || s.rows[b].status == Pending then
           && answer == Claimed && s'.issued == s.issued + [Claim(b, Some(token))]
           && s'.rows == s.rows[b := Row(Running, Some(token), s.now + 3600, if b in s.rows then s.rows[b].result else None)]
         else if s.rows[b].status == Running && s.rows[b].leaseUntil <= s.now then
           && answer == NotPending(Uncertain) && s'.issued == s.issued
           && s'.rows == s.rows[b := Row(Uncertain, s.rows[b].token, s.rows[b].leaseUntil, s.rows[b].result)]
         else
           s' == s && answer == if s.rows[b].status == Done then AlreadyDone else NotPending(s.rows[b].status)
  {
  }

  /** Every other action changes one row at most, by its own token and out of certain states:
      which, and what the row becomes. */
  lemma UpdateExactly(s: State, a: Action)
    requires !a.TryClaim? && !a.Wait?
    ensures
      var s' := Apply(s, a);
      && s'.now == s.now && s'.issued == s.issued
      && (s'.released == if a.Release? && s' != s then s.released + [Claim(a.binding, Some(a.token))] else s.released)
      && if a.binding in s.rows && s.rows[a.binding].token == Some(a.token)
            && ((s.rows[a.binding].status == Running && !a.Renew?)
                || (s.rows[a.binding].status == Uncertain && (a.Renew? || a.Complete? || a.Fail?)))
         then
           var was := s.rows[a.binding];
           s'.rows == s.rows[a.binding :=
             match a
             case Note(_, _, result) => Row(Running, Some(a.token), was.leaseUntil, Some(result))
             case MarkUncertain(_, _) => Row(Uncertain, Some(a.token), was.leaseUntil, was.result)
             case Complete(_, _, result) => Row(Done, Some(a.token), was.leaseUntil, Some(result))
             case Fail(_, _, result) => Row(Failed, Some(a.token), was.leaseUntil, Some(result))
             case Release(_, _) => Row(Pending, None, 0, was.result)
             case Renew(_, _) => Row(Running, Some(a.token), s.now + 3600, was.result)]
         else s' == s
  {
  }

  // ----- Who may pay ----------------------------------------------------------------------

  function CountFor(claims: seq<Claim>, b: Binding): nat {
    if claims == [] then 0
    else CountFor(claims[..|claims| - 1], b) + if claims[|claims| - 1].binding == b then 1 else 0
  }

  lemma CountMore(claims: seq<Claim>, c: Claim, b: Binding)
    ensures CountFor(claims + [c], b) == CountFor(claims, b) + if c.binding == b then 1 else 0
  {
    assert (claims + [c])[..|claims|] == claims;
  }

  predicate Open(s: State, b: Binding) { b !in s.rows || s.rows[b].status == Pending }

  /** The claim last issued for a reservation. */
  function Latest(claims: seq<Claim>, b: Binding): Option<Claim> {
    if claims == [] then None
    else if claims[|claims| - 1].binding == b then Some(claims[|claims| - 1])
    else Latest(claims[..|claims| - 1], b)
  }

  lemma LatestMore(claims: seq<Claim>, c: Claim, b: Binding)
    ensures Latest(claims + [c], b) == if c.binding == b then Some(c) else Latest(claims, b)
  {
    assert (claims + [c])[..|claims|] == claims;
  }

  /** Every claim but the current one was given back, and the row belongs to the latest. */
  ghost predicate Inv(s: State, b: Binding) {
    && CountFor(s.issued, b) <= CountFor(s.released, b) + (if Open(s, b) then 0 else 1)
    && (!Open(s, b) && Latest(s.issued, b).Some? ==> s.rows[b].token == Latest(s.issued, b).value.token)
  }

  lemma StepKeepsInv(s: State, a: Action, b: Binding)
    requires Inv(s, b)
    ensures Inv(Apply(s, a), b)
  {
    hide CountFor, Latest;
    match a
    case TryClaim(c, token) =>
      CountMore(s.issued, Claim(c, Some(token)), b);
      LatestMore(s.issued, Claim(c, Some(token)), b);
    case Release(c, token) => CountMore(s.released, Claim(c, Some(token)), b);
    case _ =>
  }

  lemma {:induction false} ExecKeepsInv(s: State, run: seq<Action>, b: Binding)
    requires s.issued == [] && s.released == []
    ensures Inv(Exec(s, run), b)
  {
    hide Apply;
    if run != [] {
      ExecKeepsInv(s, run[..|run| - 1], b);
      StepKeepsInv(Exec(s, run[..|run| - 1]), run[|run| - 1], b);
    }
  }

  /** From any table, over any run: the claimers of one reservation are at most one more than
      the claims given back before the provider took the call, and a reservation that is not
      open belongs to the latest of them. */
  lemma OneClaimBeyondReleases(s: State, run: seq<Action>, b: Binding)
    requires s.issued == [] && s.released == []
    ensures CountFor(Exec(s, run).issued, b) <= CountFor(Exec(s, run).released, b) + 1
    ensures !Open(Exec(s, run), b) && Latest(Exec(s, run).issued, b).Some? ==>
              Exec(s, run).rows[b].token == Latest(Exec(s, run).issued, b).value.token
  {
    ExecKeepsInv(s, run, b);
  }

  predicate NeverReleased(run: seq<Action>, b: Binding) {
    forall i :: 0 <= i < |run| ==> !(run[i].Release? && run[i].binding == b)
  }

  lemma {:induction false} NothingReleased(s: State, run: seq<Action>, b: Binding)
    requires s.released == [] && NeverReleased(run, b)
    ensures CountFor(Exec(s, run).released, b) == 0
  {
    if run != [] {
      var n := |run| - 1;
      NothingReleased(s, run[..n], b);
      var mid := Exec(s, run[..n]);
      hide CountFor;
      if run[n].Release? { CountMore(mid.released, Claim(run[n].binding, Some(run[n].token)), b); }
    }
  }

  lemma {:induction false} CountTwo(claims: seq<Claim>, b: Binding, i: nat, j: nat)
    requires i < j < |claims| && claims[i].binding == b && claims[j].binding == b
    ensures CountFor(claims, b) >= 2
  {
    var n := |claims| - 1;
    if j < n { CountTwo(claims[..n], b, i, j); }
    else { CountOne(claims[..n], b, i); }
  }

  lemma {:induction false} CountOne(claims: seq<Claim>, b: Binding, i: nat)
    requires i < |claims| && claims[i].binding == b
    ensures CountFor(claims, b) >= 1
  {
    if i < |claims| - 1 { CountOne(claims[..|claims| - 1], b, i); }
  }

  /** A reservation that is never released is claimed at most once. */
  lemma OneClaimEver(s: State, run: seq<Action>, i: nat, j: nat)
    requires s.issued == [] && s.released == [] && i < |Exec(s, run).issued| && j < |Exec(s, run).issued|
    requires Exec(s, run).issued[i].binding == Exec(s, run).issued[j].binding
    requires NeverReleased(run, Exec(s, run).issued[i].binding)
    ensures i == j
  {
    var b := Exec(s, run).issued[i].binding;
    hide Exec;
    OneClaimBeyondReleases(s, run, b);
    NothingReleased(s, run, b);
    if i < j { CountTwo(Exec(s, run).issued, b, i, j); }
    if j < i { CountTwo(Exec(s, run).issued, b, j, i); }
  }

  /** One release lets a second claimer in: the bound is met. */
  lemma ReleaseAllowsAnother(b: Binding)
    ensures
      var run := [TryClaim(b, 1), Release(b, 1), TryClaim(b, 2)];
      var s := Exec(State(map[], 0, [], []), run);
      s.issued == [Claim(b, Some(1)), Claim(b, Some(2))] && s.released == [Claim(b, Some(1))]
  {
    var s0 := State(map[], 0, [], []);
    var a1, a2, a3 := TryClaim(b, 1), Release(b, 1), TryClaim(b, 2);
    var s1 := Apply(s0, a1);
    var s2 := Apply(s1, a2);
    assert [a1, a2, a3][..2] == [a1, a2] && [a1, a2][..1] == [a1] && [a1][..0] == [];
    assert Exec(s0, []) == s0;
    assert Exec(s0, [a1]) == s1;
    assert Exec(s0, [a1, a2]) == s2;
    assert Exec(s0, [a1, a2, a3]) == Apply(s2, a3);
  }

  /** A completed or failed reservation is never touched again. */
  lemma {:induction false} SettledIsFinal(s: State, run: seq<Action>, b: Binding)
    requires b in s.rows && (s.rows[b].status == Done || s.rows[b].status == Failed)
    ensures b in Exec(s, run).rows && Exec(s, run).rows[b] == s.rows[b]
  {
    if run != [] { SettledIsFinal(s, run[..|run| - 1], b); }
  }

  /** Without the recovery, an uncertain reservation can only be settled, by its owner; it
      never runs again. */
  lemma {:induction false} UncertainNeverRuns(s: State, run: seq<Action>, b: Binding)
    requires b in s.rows && s.rows[b].status in {Uncertain, Done, Failed}
    requires forall i :: 0 <= i < |run| ==> !run[i].Renew?
    ensures b in Exec(s, run).rows && Exec(s, run).rows[b].status in {Uncertain, Done, Failed}
    ensures Exec(s, run).rows[b].token == s.rows[b].token
  {
    if run != [] { UncertainNeverRuns(s, run[..|run| - 1], b); }
  }
}
