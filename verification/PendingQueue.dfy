/** The frozen continuation of scripts/continue_prod2_pending.py: a queue bound once to an
    exact list of candidates, worked by any number of consumers whose acknowledgements
    need a durable outcome, and validated again after every interruption.  Content hashes
    are injective, so a stored hash is the value it hashes. */
module PendingQueue {
  import opened Common
  import opened Staging

  // ----- Payloads -------------------------------------------------------------------------

  /** A native discovery row with its query; dates are day numbers, None if malformed, and
      `exact` says that normalizing the row gives the row back. */
  datatype Payload = Payload(convocation: nat, keyword: string, year: int, kind: string,
                             from: Option<int>, to: Option<int>, page: int, business: Option<string>, exact: bool)

  /** The frozen context of the original run. */
  datatype Original = Original(keywords: set<string>, years: set<int>, objects: set<string>,
                               from: int, to: int, businessPlan: map<string, string>)

  predicate Identity(id: Id) { id.Conv? && 1 <= id.n < 10_000_000_000_000_000_000 }

  /** validate_payload: the payload's hash, or nothing when it raises. */
  function ValidatePayload(id: Id, p: Payload, plan: Original): (hash: Option<Payload>)
    ensures hash.Some? ==> hash.value == p && Identity(id) && p.convocation == id.n
  {
    if !Identity(id) || p.convocation != id.n || p.keyword !in plan.keywords || p.year !in plan.years
       || p.kind !in plan.objects || !(1 <= p.page <= 498) then None
    else if p.from.None? || p.to.None? || !(plan.from <= p.from.value <= p.to.value <= plan.to) || !p.exact then None
    else if p.business != (if p.keyword in plan.businessPlan then Some(plan.businessPlan[p.keyword]) else None) then None
    else Some(p)
  }

  /** Which payloads pass: a canonical id of one to nineteen digits and its own row, a keyword,
      year and object of the plan, a page of the listing, a period inside the plan's, and the
      business context the plan has for the keyword. */
  lemma PayloadPasses(id: Id, p: Payload, plan: Original)
    ensures ValidatePayload(id, p, plan) == Some(p) <==>
              && id == Conv(p.convocation) && 0 < p.convocation <= 9_999_999_999_999_999_999
              && p.keyword in plan.keywords && p.year in plan.years && p.kind in plan.objects
              && 0 < p.page < 499 && p.exact
              && (exists from, to :: p.from == Some(from) && p.to == Some(to) && plan.from <= from && from <= to && to <= plan.to)
              && (p.keyword in plan.businessPlan ==> p.business == Some(plan.businessPlan[p.keyword]))
              && (p.keyword !in plan.businessPlan ==> p.business == None)
    ensures ValidatePayload(id, p, plan) != Some(p) ==> ValidatePayload(id, p, plan) == None
  {
  }

  // ----- The manifest ---------------------------------------------------------------------

  datatype Member = Member(candidate: Id, hash: Payload, payload: Payload)

  datatype Stats = Stats(queued: nat, pending: nat, payloads: nat, seen: nat)

  datatype Base = Base(previous: seq<nat>, expectedPending: nat, expectedSeen: nat)

  datatype Manifest = Manifest(base: Base, ids: seq<nat>, hashes: map<Id, Payload>, members: seq<Member>,
                               snapshot: seq<Member>, before: Stats)

  type Q = Queue<Payload>

  function StatsOf(q: Q): Stats { Stats(|q.queue|, |q.pending|, |q.payloads|, |q.states|) }

  function IdSet(s: seq<Id>): (r: set<Id>)
    ensures forall id :: id in r <==> id in s
  {
    if s == [] then {} else {s[0]} + IdSet(s[1..])
  }

  function Convs(ids: seq<nat>): (r: set<Id>)
    ensures forall id :: id in r <==> id.Conv? && id.n in ids
  {
    if ids == [] then {} else {Conv(ids[0])} + Convs(ids[1..])
  }

  function NumberSet(ids: seq<nat>): (r: set<nat>)
    ensures forall n :: n in r <==> n in ids
  {
    if ids == [] then {} else {ids[0]} + NumberSet(ids[1..])
  }

  predicate ValidateQueue(q: Q, previous: seq<nat>, expectedSeen: nat) {
    && |q.states| == expectedSeen && q.pending == [] && |q.queue| == |IdSet(q.queue)|
    && IdSet(q.queue) == q.payloads.Keys
    && q.payloads.Keys == (set id | id in q.states && q.states[id] == Queued)
    && (forall id :: id in q.states ==> q.states[id] == Queued || q.states[id] == Done)
    && (forall n :: n in previous ==> Conv(n) in q.states && q.states[Conv(n)] == Done)
  }

  predicate Native(id: Id, q: Q, plan: Original) {
    id in q.payloads && ValidatePayload(id, q.payloads[id], plan).Some?
  }

  /** int(identity); zero, which is no convocation, for anything else. */
  function Num(id: Id): nat { if id.Conv? then id.n else 0 }

  function Numbers(s: seq<Id>): (r: seq<nat>)
    ensures |r| == |s| && forall i :: 0 <= i < |s| ==> r[i] == Num(s[i])
  {
    seq(|s|, i requires 0 <= i < |s| => Num(s[i]))
  }

  function MemberList(s: seq<Id>, payloads: map<Id, Payload>): (r: seq<Member>)
    requires forall id :: id in s ==> id in payloads
    ensures |r| == |s| && forall i :: 0 <= i < |s| ==> s[i] in s && r[i] == Member(s[i], payloads[s[i]], payloads[s[i]])
  {
    if s == [] then []
    else MemberList(s[..|s| - 1], payloads) + [Member(s[|s| - 1], payloads[s[|s| - 1]], payloads[s[|s| - 1]])]
  }

  predicate Bindable(base: Base, plan: Original, q: Q) {
    && ValidateQueue(q, base.previous, base.expectedSeen) && |q.queue| == base.expectedPending
    && q.states.Keys == Convs(base.previous) + IdSet(q.queue)
    && (forall id :: id in q.queue ==> Native(id, q, plan))
  }

  /** bind_snapshot. */
  function BindSnapshot(base: Base, plan: Original, q: Q): Option<Manifest> {
    if !Bindable(base, plan, q) then None
    else
      var members := MemberList(q.queue, q.payloads);
      Some(Manifest(base, Numbers(q.queue), map id | id in q.queue :: q.payloads[id], members, members, StatsOf(q)))
  }

  predicate FrozenNumbers(m: Manifest) {
    && |m.ids| == m.base.expectedPending && |m.ids| == |NumberSet(m.ids)|
    && (forall n :: n in m.ids ==> n > 0)
    && (forall n :: n in m.base.previous ==> n !in m.ids)
    && m.hashes.Keys == Convs(m.ids)
    && m.before == Stats(|m.ids|, 0, |m.ids|, m.base.expectedSeen)
  }

  predicate FrozenMember(m: Manifest, plan: Original, i: nat)
    requires i < |m.ids| && i < |m.members|
  {
    var id := Conv(m.ids[i]);
    && id in m.hashes && m.members[i].candidate == id && m.members[i].hash == m.hashes[id]
    && ValidatePayload(id, m.members[i].payload, plan) == Some(m.hashes[id])
  }

  /** validate_frozen. */
  predicate ValidateFrozen(m: Manifest, plan: Original) {
    && FrozenNumbers(m)
    && |m.members| == |m.ids| && m.snapshot == m.members
    && (forall i :: 0 <= i < |m.ids| ==> FrozenMember(m, plan, i))
  }

  // ----- Outcomes -------------------------------------------------------------------------

  datatype OutcomeStatus = RejectedBelow60 | Llm1Complete | AcceptedUnread | NeedsReview | DocumentsMissing | SelectionNeedsReview

  datatype Outcome = Outcome(status: OutcomeStatus, accepted: bool)

  predicate ValidOutcome(o: Outcome) {
    && (o.status == RejectedBelow60 ==> !o.accepted)
    && (o.status == Llm1Complete || o.status == AcceptedUnread ==> o.accepted)
  }

  /** Which classifications pass: below sixty is never accepted, a finished or unread case
      always, and any other may be either. */
  lemma OutcomePasses(o: Outcome)
    ensures ValidOutcome(o) <==>
              match o.status
              case RejectedBelow60 => o.accepted == false
              case Llm1Complete => o.accepted == true
              case AcceptedUnread => o.accepted == true
              case NeedsReview => true
              case DocumentsMissing => true
              case SelectionNeedsReview => true
  {
  }

  /** Whether read_outcomes accepts the outcome files. */
  predicate ReadOutcomes(outcomes: map<nat, Outcome>, m: Manifest) {
    forall n :: n in outcomes ==> n in m.ids && ValidOutcome(outcomes[n])
  }

  predicate MemberResumable(id: Id, q: Q, m: Manifest, plan: Original, outcomes: map<nat, Outcome>)
    requires id in q.states && id in m.hashes && id.Conv?
  {
    if q.states[id] == Done then id.n in outcomes
    else id in q.payloads && ValidatePayload(id, q.payloads[id], plan) == Some(m.hashes[id])
  }

  /** validate_resume_queue, on outcomes that were read without error. */
  predicate ValidateResumeQueue(q: Q, m: Manifest, plan: Original, outcomes: map<nat, Outcome>) {
    && ValidateFrozen(m, plan) && ReadOutcomes(outcomes, m)
    && ValidateQueue(q, m.base.previous, m.base.expectedSeen)
    && q.states.Keys == Convs(m.base.previous) + Convs(m.ids)
    && q.payloads.Keys <= Convs(m.ids)
    && (forall id :: id in Convs(m.ids) ==> MemberResumable(id, q, m, plan, outcomes))
  }

  // ----- Runs -----------------------------------------------------------------------------

  /** The durable state; workers hold nothing that a crash could lose. */
  datatype Run = Run(queue: Q, outcomes: map<nat, Outcome>)

  datatype Action =
    | Take                               // BoundStage.next
    | Write(n: nat, outcome: Outcome)    // a consumer finishes a reserved member, once
    | GuardedAck(id: Id)                 // BoundStage.ack
    | Resume                             // recover, after a crash or at the end

  predicate MayAck(m: Manifest, outcomes: map<nat, Outcome>, id: Id) {
    id in m.hashes && ReadOutcomes(outcomes, m) && id.Conv? && id.n in outcomes
  }

  function Apply(m: Manifest, s: Run, a: Action): Run {
    match a
    case Take => (match Next(s.queue) case Ok((q, _)) => s.(queue := q) case Err(_) => s)
    case Write(n, o) =>
      if Conv(n) in s.queue.pending && n !in s.outcomes && ValidOutcome(o) then s.(outcomes := s.outcomes[n := o]) else s
    case GuardedAck(id) =>
      if !MayAck(m, s.outcomes, id) then s
      else (match Ack(s.queue, id) case Ok((q, _)) => s.(queue := q) case Err(_) => s)
    case Resume => (match Recover(s.queue) case Ok(q) => s.(queue := q) case Err(_) => s)
  }

  function Exec(m: Manifest, s: Run, run: seq<Action>): Run {
    if run == [] then s else Apply(m, Exec(m, s, run[..|run| - 1]), run[|run| - 1])
  }

  // ----- The object -----------------------------------------------------------------------

  class BoundStage {
    const stage: RedisStage<Payload>
    const manifest: Manifest
    const plan: Original
    var outcomes: map<nat, Outcome>
    var stop: bool

    constructor (stage: RedisStage<Payload>, manifest: Manifest, plan: Original, outcomes: map<nat, Outcome>)
      ensures this.stage == stage && this.manifest == manifest && this.plan == plan
      ensures this.outcomes == outcomes && !stop
    {
      this.stage, this.manifest, this.plan, this.outcomes, stop := stage, manifest, plan, outcomes, false;
    }

    function Now(): Run
      reads this, stage
    {
      Run(stage.Snapshot(), outcomes)
    }

    /** A reservation that is not exactly the frozen member raises and stops the run, and
        stays reserved, to be recovered. */
    method Take() returns (job: Result<Option<Id>, StagingError>)
      modifies stage, this`stop
      ensures Now() == Apply(manifest, old(Now()), Action.Take)
      ensures job.Ok? && job.value.Some? ==>
                var id := job.value.value;
                && id in manifest.hashes && id in stage.payloads
                && ValidatePayload(id, stage.payloads[id], plan) == Some(manifest.hashes[id])
                && stop == old(stop)
      ensures
        match Next(old(stage.Snapshot()))
        case Ok((q, Some(id))) =>
          && (job == Ok(Some(id)) <==>
                id in manifest.hashes && id in q.payloads && ValidatePayload(id, q.payloads[id], plan) == Some(manifest.hashes[id]))
          && (job != Ok(Some(id)) ==> job.Err? && stop)
        case Ok((_, None)) => job == Ok(None) && stop == old(stop)
        case Err(e) => job == Err(e) && stop == old(stop)
    {
      job := stage.Reserve();
      if job.Ok? && job.value.Some? {
        var id := job.value.value;
        if id !in manifest.hashes || ValidatePayload(id, stage.payloads[id], plan) != Some(manifest.hashes[id]) {
          stop := true;
          job := Err(StateMismatch);
        }
      }
    }

    /** Refused without an authorized durable outcome, and refusal stops the run. */
    method Acknowledge(id: Id) returns (r: Result<bool, StagingError>)
      modifies stage, this`stop
      ensures Now() == Apply(manifest, old(Now()), GuardedAck(id))
      ensures r.Ok? ==> MayAck(manifest, outcomes, id) && stop == old(stop)
      ensures !MayAck(manifest, outcomes, id) ==> r.Err? && stop
    {
      if !MayAck(manifest, outcomes, id) {
        stop := true;
        return Err(NoReservation);
      }
      r := stage.Acknowledge(id);
    }
  }
}
