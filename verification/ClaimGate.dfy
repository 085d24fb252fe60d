/** verify_owned_claim, and the two places of
    scripts/run_dinaut_three_dot_matches.py and scripts/run_dinaut_three_dot_gemma_batches.py
    that send only behind it: run_case and execute_batch.  A check and the send that
    follows it are one step. */
module ClaimGate {
  import opened Common
  import opened DispatchProtocol
  import opened JevTransport
  import Reservations

  type Row = Reservations.Row
  type Claim = Reservations.Claim
  type Binding = Reservations.Binding

  /** What saved_batch_recommendation finds in the case folder. */
  datatype Bound = NoBinding | Replays | BadBinding

  /** The evidence of one case folder. */
  datatype Evidence = Evidence(root: Files, child: Child, gemma: Files, bound: Bound)

  predicate LiveClaim(db: Reservations.State, c: Claim) {
    && c.binding in db.rows && db.rows[c.binding].token == c.token
    && db.rows[c.binding].status == Reservations.Running && db.now < db.rows[c.binding].leaseUntil
  }

  /** A whole saved response with status 200; a torn one raises. */
  predicate Saved200(files: Files) {
    ResponseFile in files && match files[ResponseFile] case Some(Saved(r)) => r.status == 200 case _ => false
  }

  predicate TornResponse(files: Files) {
    ResponseFile in files && match files[ResponseFile] case Some(Saved(_)) => false case _ => true
  }

  /** Whether verify_owned_claim returns instead of raising; `stage` is its optional
      argument.  Cases outside PROD2 have no claim and pass. */
  predicate VerifyOwnedClaim(db: Reservations.State, claim: Option<Claim>, expected: Binding,
                             e: Evidence, source: Payload, stage: Option<Stage>)
  {
    if claim.None? then true
    else
      var c := claim.value;
      if c.binding !in db.rows || c.binding != expected || db.rows[c.binding].token != c.token then false
      else
        var row := db.rows[c.binding];
        var cached := GetCachedReceipt(e.root, e.child, Some(source));
        if cached.Err? || e.bound == BadBinding || (e.bound == NoBinding && TornResponse(e.gemma)) then false
        else
          var jevCached := cached.value.Some?;
          var ready := jevCached && (e.bound == Replays || Saved200(e.gemma));
          if row.status == Reservations.Running && db.now < row.leaseUntil then true
          else if row.status == Reservations.Uncertain && stage == Some(Jev) && (jevCached || Saved200(e.root)) then true
          else if row.status == Reservations.Uncertain && stage == Some(Gemma) && Saved200(e.gemma) then true
          else (row.status == Reservations.Done || row.status == Reservations.Uncertain) && ready
  }

  /** The gate: the claim's own row for the frozen request, readable evidence, and a live lease,
      or else saved answers that leave the stage, or both stages, nothing to send. */
  lemma GateExactly(db: Reservations.State, c: Claim, expected: Binding, e: Evidence, source: Payload, stage: Option<Stage>)
    ensures VerifyOwnedClaim(db, Some(c), expected, e, source, stage) <==>
              && c.binding == expected && expected in db.rows && db.rows[expected].token == c.token
              && GetCachedReceipt(e.root, e.child, Some(source)).Ok? && e.bound != BadBinding
              && (e.bound == NoBinding && ResponseFile in e.gemma ==> exists r :: e.gemma[ResponseFile] == Some(Saved(r)))
              && var status, scored := db.rows[expected].status, GetCachedReceipt(e.root, e.child, Some(source)).value != None;
                 || (status == Reservations.Running && db.now < db.rows[expected].leaseUntil)
                 || (status == Reservations.Uncertain && stage == Some(Jev) && (scored || Answered200(e.root)))
                 || (status == Reservations.Uncertain && stage == Some(Gemma) && Answered200(e.gemma))
                 || ((status == Reservations.Done || status == Reservations.Uncertain) && scored && (e.bound == Replays || Answered200(e.gemma)))
  {
    hide GetCachedReceipt;
  }

  ghost predicate Answered200(files: Files) {
    exists r: Receipt :: ResponseFile in files && files[ResponseFile] == Some(Saved(r)) && r.status == 200
  }

  /** Passing the scoring gate without a live claim means the score is already paid for. */
  lemma ScoringGate(db: Reservations.State, c: Claim, expected: Binding, e: Evidence, source: Payload)
    requires VerifyOwnedClaim(db, Some(c), expected, e, source, Some(Jev)) && !LiveClaim(db, c)
    ensures GetCachedReceipt(e.root, e.child, Some(source)).Ok?
    ensures GetCachedReceipt(e.root, e.child, Some(source)).value.Some?
  {
  }

  /** A case with a cached receipt cannot be sent again, whatever its journal does. */
  lemma CachedNeverSends(c: Case, source: Payload, c': Case, answer: Answer)
    requires GetCachedReceipt(c.root, c.child, Some(source)).Ok?
    requires GetCachedReceipt(c.root, c.child, Some(source)).value.Some?
    requires TransportCall(c, source, c', answer)
    ensures c'.sends == c.sends
  {
  }

  // ----- run_case ------------------------------------------------------------------------

  /** One send, with the claims it was made under. */
  datatype Paid = Paid(stage: Stage, claim: Option<Claim>, db: Reservations.State)

  predicate UnderLiveClaim(s: Paid) {
    s.claim.Some? ==> LiveClaim(s.db, s.claim.value)
  }

  datatype Item = Item(prod2: bool, binding: Binding, source: Payload, gemmaRequest: Payload)

  /** What the world does during one run of a case. */
  datatype World = World(
    inputsHold: bool,                              // predispatch finds the frozen inputs
    token: Reservations.Token, claimFate: Fate,   // the fresh token and the claim file's write
    fates: nat -> Fate, jev: (Files, Payload) -> Attempt,
    score: Option<nat>, gemma: (Files, Payload) -> Attempt, parsed: bool, result: string)

  datatype CaseResult = JevReady | ReadyToPublish | Halted | Killed

  /** A settled or uncertain one passes when everything can be replayed. */
  lemma ReplayPasses(db: Reservations.State, claim: Option<Claim>, expected: Binding, c: Case, gemma: Files, bound: Bound, source: Payload)
    requires MayReplay(c, source)
    ensures bound == Replays
            && (claim.Some? ==>
                  && claim.value.binding == expected && OwnsRow(db, claim.value)
                  && db.rows[expected].status in {Reservations.Done, Reservations.Uncertain}) ==>
              VerifyOwnedClaim(db, claim, expected, Evidence(c.root, c.child, gemma, bound), source, Some(Jev))
  {
    CachedExactly(c, source);
    hide GetCachedReceipt, MayReplay;
  }

  /** What a first run and a replay need of the scoring stage. */
  lemma ScoringGoes(item: Item, db: Reservations.State, claim: Option<Claim>, w: World, e: Evidence, sends: seq<Dispatch>)
    ensures
      var c := Case(e.root, e.child, sends);
      && (FirstScore(item, db, claim, w, e) ==>
            && VerifyOwnedClaim(db, claim, item.binding, e, item.source, Some(Jev))
            && UsableNow(c, item.source) && (forall i :: w.fates(i) == Survives)
            && Delivers(w.jev(e.child.journal, TextState(item.source.model, item.source.state, item.source.questions)), item.source))
      && (Replay(item, db, claim, w, e) ==>
            && VerifyOwnedClaim(db, claim, item.binding, e, item.source, Some(Jev))
            && MayReplay(c, item.source) && (forall i :: w.fates(i) == Survives))
  {
    var c := Case(e.root, e.child, sends);
    if Replay(item, db, claim, w, e) { ReplayPasses(db, claim, item.binding, c, e.gemma, e.bound, item.source); }
  }

  /** What they need of the explanation stage, the request being scored. */
  lemma ExplanationGoes(item: Item, newOnly: bool, db: Reservations.State, claim: Option<Claim>, jevOnly: bool, w: World, before: Evidence,
                        e: Evidence)
    requires MayWork(item, newOnly, db, claim, jevOnly, w, before) && e.gemma == before.gemma && e.bound == before.bound
    ensures w.score.Some? && (FirstScore(item, db, claim, w, before) || Replay(item, db, claim, w, before))
    ensures Scored(Case(e.root, e.child, []), item.source) && !jevOnly ==>
              || e.bound == Replays
              || (e.bound == NoBinding && !newOnly && VerifyOwnedClaim(db, claim, item.binding, e, item.source, None)
                  && w.parsed && Returns(w.gemma(e.gemma, item.gemmaRequest)))
  {
    hide GetCachedReceipt, MayReplay;
  }

  class CaseRun {
    const item: Item
    const newOnly: bool
    var folder: CaseFolder
    var gemma: Files
    var bound: Bound
    var claimFile: Slot<Option<Claim>>
    var db: Reservations.State
    var sends: seq<Paid>

    constructor (item: Item, newOnly: bool, folder: CaseFolder, db: Reservations.State)
      ensures this.item == item && this.newOnly == newOnly && this.folder == folder && this.db == db
      ensures gemma == map[] && bound == NoBinding && claimFile.Missing? && sends == [] && Valid()
    {
      this.item := item;
      this.newOnly := newOnly;
      this.folder := folder;
      this.db := db;
      gemma, bound, claimFile, sends := map[], NoBinding, Missing, [];
    }

    function Now(): Evidence
      reads this, folder
    {
      Evidence(folder.root, folder.child, gemma, bound)
    }

    /** Every send so far was made under a running owned claim, and a new-only case never
        has explanation evidence of its own. */
    predicate Valid()
      reads this
    {
      && (forall i :: 0 <= i < |sends| ==> UnderLiveClaim(sends[i]))
      && (newOnly ==> gemma == map[])
      && (!item.prod2 && claimFile.Whole? ==> claimFile.value.None?)
      && (item.prod2 && claimFile.Whole? ==> claimFile.value.Some?)
    }

    /** What the coordinator does to a case between two calls of run_case, so no method here
        calls it: time passes, other processes and the recoveries work on the table, and
        a shared batch may bind the case. */
    method Elapse(others: seq<Reservations.Action>, bound: Bound)
      requires Valid()
      modifies this`db, this`bound
      ensures Valid() && db == Reservations.Exec(old(db), others) && this.bound == bound
    {
      db := Reservations.Exec(db, others);
      this.bound := bound;
    }

    /** The saved claim, or a fresh one that is saved before it is used. */
    method ObtainClaim(w: World) returns (r: Result<Option<Claim>, CaseResult>, ghost run: seq<Reservations.Action>)
      requires Valid()
      modifies this`claimFile, this`db
      ensures Valid() && db == Reservations.Exec(old(db), run)
      ensures r.Err? ==> (r.error == Halted && !claimFile.Whole?) || r.error == Killed
      ensures Claimable(old(claimFile), old(db), item.binding) && w.claimFate == Survives ==> r.Ok?
      ensures r.Ok? ==> claimFile == Whole(r.value) && (item.prod2 <==> r.value.Some?)
      ensures !old(claimFile).Missing? ==> claimFile == old(claimFile) && db == old(db)
      ensures old(claimFile).Whole? ==> r == Ok(old(claimFile).value)
      ensures old(claimFile).Missing? && r.Ok? && item.prod2 ==>
                r.value.value.binding == item.binding && LiveClaim(db, r.value.value) && r.value.value.token == Some(w.token)
    {
      run := [];
      match claimFile {
        case Whole(claim) => return Ok(claim), run;
        case Torn => return Err(Halted), run;
        case Missing =>
          var claim: Option<Claim> := None;
          if item.prod2 {
            run := [Reservations.TryClaim(item.binding, w.token)];
            assert run[..0] == [];
            var answer := Reservations.ClaimEvaluation(db, item.binding, w.token);
            db := answer.0;
            if answer.1 != Reservations.Claimed { return Err(Halted), run; }
            claim := Some(Reservations.Claim.Claim(item.binding, Some(w.token)));
          }
          var saved := Once(claimFile, claim, w.claimFate);
          claimFile := saved.0;
          return if saved.1.Some? then Err(Killed) else Ok(claim), run;
      }
    }

    /** The scoring stage behind its gate. */
    method Score(claim: Option<Claim>, w: World, ghost before: Evidence) returns (answer: Answer)
      requires Valid() && before == Now() && (forall files, payload :: JournalAttempt(files, payload, w.jev(files, payload)))
      modifies this`sends, folder`child, folder`sends
      ensures Valid() && old(sends) <= sends
      ensures MadeUnder(sends, |old(sends)|, claim, true)
      ensures TransportCall(old(folder.Now()), item.source, folder.Now(), answer) || (answer == Raised && folder.Now() == old(folder.Now()))
      ensures folder.sends != old(folder.sends) <==> sends != old(sends)
      ensures FirstScore(item, db, claim, w, before) ==> sends != old(sends) && answer.Answered?
      ensures answer.Answered? ==> Scored(Case(folder.root, folder.child, []), item.source)
      ensures Replay(item, db, claim, w, before) ==> answer.Answered?
    {
      ScoringGoes(item, db, claim, w, before, folder.sends);
      hide FirstScore, Replay, FirstTry, MayReplay, MaySend, GetCachedReceipt, StoredAnswer, JournalAttempt, TransportCall, UsableNow, Delivers, VerifyOwnedClaim;
      if !VerifyOwnedClaim(db, claim, item.binding, Now(), item.source, Some(Jev)) { return Raised; }
      ghost var folderBefore := folder.Now();
      var sent := |folder.sends|;
      answer := folder.DispatchTransport(item.source, w.fates, w.jev);
      if |folder.sends| > sent {
        sends := sends + [Paid(Jev, claim, db)];
        if claim.Some? && !LiveClaim(db, claim.value) {
          CachedNeverSends(folderBefore, item.source, folder.Now(), answer);
        }
      }
    }

    /** The explanation stage: a saved shared batch, or a send of the case's own. */
    method Explain(claim: Option<Claim>, w: World) returns (r: CaseResult)
      requires Valid() && (forall files, payload :: JournalAttempt(files, payload, w.gemma(files, payload)))
      modifies this`sends, this`gemma
      ensures Valid() && old(sends) <= sends
      ensures MadeUnder(sends, |old(sends)|, claim, newOnly)
      ensures r != JevReady
      ensures
        if bound == NoBinding && !newOnly && VerifyOwnedClaim(db, claim, item.binding, old(Now()), item.source, None) then
          var attempt := w.gemma(old(gemma), item.gemmaRequest);
          && gemma == attempt.files && |sends| == |old(sends)| + (if attempt.sent.Some? then 1 else 0)
          && (r == Killed <==> attempt.out.None?)
          && (r == ReadyToPublish <==> attempt.out.Some? && attempt.out.value.Returned? && w.parsed)
        else
          gemma == old(gemma) && sends == old(sends) && r == if bound == Replays then ReadyToPublish else Halted
      ensures r == ReadyToPublish && w.score.Some? && Scored(Case(folder.root, folder.child, []), item.source) ==>
                HasAnswers(item, newOnly, w, Now())
    {
      match bound {
        case BadBinding => return Halted;
        case Replays => return ReadyToPublish;
        case NoBinding =>
          if newOnly { return Halted; }
          if !VerifyOwnedClaim(db, claim, item.binding, Now(), item.source, None) { return Halted; }
          var attempt := w.gemma(gemma, item.gemmaRequest);
          if attempt.sent.Some? { sends := sends + [Paid(Gemma, claim, db)]; }
          gemma := attempt.files;
          if attempt.out.None? { return Killed; }
          if !attempt.out.value.Returned? || !w.parsed { return Halted; }
          return ReadyToPublish;
      }
    }

    /** The scoring stage and what it decides: the run ends there, or goes on to the
        explanation. */
    method ScoreStage(claim: Option<Claim>, jevOnly: bool, w: World, ghost before: Evidence) returns (stop: Option<CaseResult>)
      requires Valid() && before == Now() && (forall files, payload :: JournalAttempt(files, payload, w.jev(files, payload)))
      modifies this`sends, folder`child, folder`sends
      ensures Valid() && old(sends) <= sends
      ensures MadeUnder(sends, |old(sends)|, claim, true)
      ensures FirstScore(item, db, claim, w, before) ==> sends != old(sends)
      ensures stop != Some(ReadyToPublish) && (stop == Some(JevReady) ==> jevOnly)
      ensures stop == None || stop == Some(JevReady) ==> w.score.Some? && Scored(Case(folder.root, folder.child, []), item.source)
      ensures w.score.Some? && (FirstScore(item, db, claim, w, before) || Replay(item, db, claim, w, before)) ==>
                stop == if jevOnly then Some(JevReady) else None
      ensures stop == None ==> !jevOnly
    {
      hide Valid, MadeUnder, FirstScore, Replay, Scored, TransportCall, JournalAttempt;
      var answer := Score(claim, w, before);
      if answer == Died { return Some(Killed); }
      if answer == Raised || w.score.None? { return Some(Halted); }
      return if jevOnly then Some(JevReady) else None;
    }

    /** The paid work of one run, between the claim and its settlement. */
    method Work(claim: Option<Claim>, jevOnly: bool, w: World, ghost before: Evidence) returns (r: CaseResult)
      requires Valid() && before == Now()
      requires forall files, payload :: JournalAttempt(files, payload, w.jev(files, payload))
      requires forall files, payload :: JournalAttempt(files, payload, w.gemma(files, payload))
      modifies this`sends, this`gemma, folder`child, folder`sends
      ensures Valid() && old(sends) <= sends
      ensures MadeUnder(sends, |old(sends)|, claim, jevOnly || newOnly)
      ensures r == JevReady ==> jevOnly && w.score.Some?
      ensures r == ReadyToPublish ==> !jevOnly && HasAnswers(item, newOnly, w, Now())
      ensures MayWork(item, newOnly, db, claim, jevOnly, w, before) ==> r == if jevOnly then JevReady else ReadyToPublish
      ensures FirstScore(item, db, claim, w, before) ==> sends != old(sends)
    {
      ghost var sent := sends;
      var stop := ScoreStage(claim, jevOnly, w, before);
      MoreUnder(sent, sends, sends, claim, jevOnly || newOnly);
      if MayWork(item, newOnly, db, claim, jevOnly, w, before) { ExplanationGoes(item, newOnly, db, claim, jevOnly, w, before, Now()); }
      hide Valid, MadeUnder, MayWork, FirstScore, Replay, Scored, HasAnswers, VerifyOwnedClaim, JournalAttempt;
      if stop.Some? { return stop.value; }
      ghost var scored := sends;
      r := Explain(claim, w);
      MoreUnder(sent, scored, sends, claim, newOnly);
    }

    /** complete_evaluation, or the update that leaves an unfinished claim uncertain. */
    method Settle(claim: Option<Claim>, done: CaseResult, w: World) returns (r: CaseResult, ghost step: Option<Reservations.Action>)
      modifies this`db
      ensures db == if step.Some? then Reservations.Apply(old(db), step.value) else old(db)
      ensures done == Killed || done == JevReady || claim.None? ==> r == done && step == None
      ensures r == done || (done == ReadyToPublish && r == Halted)
      ensures claim.Some? && r == Halted ==> !StillRunning(db, claim.value)
      ensures claim.Some? && r == ReadyToPublish ==> Completed(db, item.binding)
      ensures claim.Some? && done == ReadyToPublish && Settleable(old(db), claim.value, item.binding) ==> r == ReadyToPublish
    {
      r, step := done, None;
      if claim.Some? && r != Killed && r != JevReady {
        var c := claim.value;
        if c.token.Some? {
          var a := if r == ReadyToPublish then Reservations.Complete(c.binding, c.token.value, w.result)
                   else Reservations.MarkUncertain(c.binding, c.token.value);
          step := Some(a);
          db := Reservations.Apply(db, a);
        }
        if r == ReadyToPublish && !Completed(db, item.binding) { r := Halted; }
      }
    }

    /** run_case up to its publication. */
    method RunCase(jevOnly: bool, w: World) returns (r: CaseResult, ghost run: seq<Reservations.Action>)
      requires Valid()
      requires forall files, payload :: JournalAttempt(files, payload, w.jev(files, payload))
      requires forall files, payload :: JournalAttempt(files, payload, w.gemma(files, payload))
      modifies this`sends, this`gemma, this`claimFile, this`db, folder`child, folder`sends
      ensures Valid() && old(sends) <= sends
      ensures db == Reservations.Exec(old(db), run)
      ensures !w.inputsHold ==> sends == old(sends) && db == old(db) && claimFile == old(claimFile)
      ensures !old(claimFile).Missing? ==> claimFile == old(claimFile)
      ensures sends != old(sends) ==> claimFile.Whole? && MadeUnder(sends, |old(sends)|, claimFile.value, jevOnly || newOnly)
      ensures r == ReadyToPublish && item.prod2 ==> Completed(db, item.binding)
      ensures r == JevReady ==> jevOnly && w.score.Some?
      ensures r == ReadyToPublish ==> !jevOnly && HasAnswers(item, newOnly, w, Now())
      ensures r == Halted && w.inputsHold && claimFile.Whole? && claimFile.value.Some? ==> !StillRunning(db, claimFile.value.value)
      ensures w.inputsHold && old(claimFile).Whole? && MayWork(item, newOnly, old(db), old(claimFile).value, jevOnly, w, old(Now()))
              && (old(claimFile).value.Some? ==> old(claimFile).value.value.token.Some?)
              ==> r == if jevOnly then JevReady else ReadyToPublish
      ensures w.inputsHold && w.claimFate == Survives && Claimable(old(claimFile), old(db), item.binding) && w.score.Some?
              && FirstTry(old(Now()), item.source, w)
              && (jevOnly || (!newOnly && w.parsed && Returns(w.gemma(old(Now()).gemma, item.gemmaRequest))))
              ==> r == if jevOnly then JevReady else ReadyToPublish
      ensures w.inputsHold && w.claimFate == Survives && Claimable(old(claimFile), old(db), item.binding)
              && FirstTry(old(Now()), item.source, w)
              ==> sends != old(sends)
    {
      run := [];
      if !w.inputsHold { return Halted, run; }
      var owned;
      owned, run := ObtainClaim(w);
      if owned.Err? { return owned.error, run; }
      WorkSettles(item, newOnly, db, owned.value, jevOnly, w, Now());
      hide MayWork, FirstTry, MadeUnder, HasAnswers, LiveClaim, OwnsRow, StillRunning, Completed, Settleable, JournalAttempt, Reservations.Apply;
      r := Work(owned.value, jevOnly, w, Now());
      ghost var step;
      r, step := Settle(owned.value, r, w);
      if step.Some? {
        assert (run + [step.value])[..|run|] == run;
        run := run + [step.value];
      }
    }
  }

  /** Every send from the given one on is under this claim, and of the scoring stage alone if
      so said. */
  predicate MadeUnder(sends: seq<Paid>, from: nat, claim: Option<Claim>, onlyScoring: bool) {
    forall i :: from <= i < |sends| ==> sends[i].claim == claim && (onlyScoring ==> sends[i].stage == Jev)
  }

  lemma MoreUnder(before: seq<Paid>, mid: seq<Paid>, after: seq<Paid>, claim: Option<Claim>, onlyScoring: bool)
    requires before <= mid <= after && MadeUnder(mid, |before|, claim, true) && MadeUnder(after, |mid|, claim, onlyScoring)
    ensures before <= after && MadeUnder(after, |before|, claim, onlyScoring)
  {
  }

  /** Nothing stands in the way of a run: a first try whose requests are answered under a live
      claim, or saved answers to replay. */
  ghost predicate MayWork(item: Item, newOnly: bool, db: Reservations.State, claim: Option<Claim>, jevOnly: bool, w: World, e: Evidence) {
    && w.score.Some?
    && (FirstRun(item, newOnly, db, claim, jevOnly, w, e) || Replay(item, db, claim, w, e))
  }

  ghost predicate FirstScore(item: Item, db: Reservations.State, claim: Option<Claim>, w: World, e: Evidence) {
    FirstTry(e, item.source, w) && (claim.Some? ==> claim.value.binding == item.binding && LiveClaim(db, claim.value))
  }

  ghost predicate FirstRun(item: Item, newOnly: bool, db: Reservations.State, claim: Option<Claim>, jevOnly: bool, w: World, e: Evidence) {
    && FirstScore(item, db, claim, w, e)
    && (jevOnly || (!newOnly && w.parsed && Returns(w.gemma(e.gemma, item.gemmaRequest))))
  }

  ghost predicate Replay(item: Item, db: Reservations.State, claim: Option<Claim>, w: World, e: Evidence) {
    && MayReplay(Case(e.root, e.child, []), item.source) && e.bound == Replays && (forall i :: w.fates(i) == Survives)
    && (claim.Some? ==>
          && claim.value.binding == item.binding && OwnsRow(db, claim.value)
          && db.rows[item.binding].status in {Reservations.Done, Reservations.Uncertain})
  }

  /** What a publishable case has: a scored request and an explanation. */
  ghost predicate HasAnswers(item: Item, newOnly: bool, w: World, e: Evidence) {
    && w.score.Some? && Scored(Case(e.root, e.child, []), item.source)
    && (e.bound == Replays || (e.bound == NoBinding && !newOnly && w.parsed && Saved200(e.gemma)))
  }

  predicate Returns(a: Attempt) { a.out.Some? && a.out.value.Returned? }

  predicate Scored(c: Case, source: Payload) {
    GetCachedReceipt(c.root, c.child, Some(source)).Ok? && GetCachedReceipt(c.root, c.child, Some(source)).value.Some?
  }

  /** The row carries the claim's token. */
  predicate OwnsRow(db: Reservations.State, c: Claim) {
    c.binding in db.rows && db.rows[c.binding].token == c.token
  }

  /** The row can still be completed, or is. */
  predicate Settleable(db: Reservations.State, c: Claim, b: Binding) {
    && c.binding == b && c.token.Some? && OwnsRow(db, c)
    && db.rows[b].status in {Reservations.Running, Reservations.Uncertain, Reservations.Done}
  }

  lemma WorkSettles(item: Item, newOnly: bool, db: Reservations.State, claim: Option<Claim>, jevOnly: bool, w: World, e: Evidence)
    ensures
      MayWork(item, newOnly, db, claim, jevOnly, w, e) && claim.Some? && claim.value.token.Some? ==> Settleable(db, claim.value, item.binding)
    ensures
      claim.Some? && claim.value.token.Some? && claim.value.binding == item.binding && LiveClaim(db, claim.value) ==>
        Settleable(db, claim.value, item.binding)
    ensures
      FirstTry(e, item.source, w) && (claim.Some? ==> claim.value.binding == item.binding && LiveClaim(db, claim.value)) && w.score.Some?
      && (jevOnly || (!newOnly && w.parsed && Returns(w.gemma(e.gemma, item.gemmaRequest))))
      ==> MayWork(item, newOnly, db, claim, jevOnly, w, e)
  {
    hide FirstTry, MayReplay;
  }

  predicate StillRunning(db: Reservations.State, c: Claim) {
    c.token.Some? && OwnsRow(db, c) && db.rows[c.binding].status == Reservations.Running
  }

  predicate Completed(db: Reservations.State, b: Binding) {
    b in db.rows && db.rows[b].status == Reservations.Done
  }

  /** Nobody has claimed this request yet. */
  predicate Claimable(claimFile: Slot<Option<Claim>>, db: Reservations.State, b: Binding) {
    claimFile.Missing? && b !in db.rows
  }

  /** A case without evidence whose scoring request reaches the provider and is answered. */
  ghost predicate FirstTry(e: Evidence, source: Payload, w: World) {
    && UsableNow(Case(e.root, e.child, []), source) && e.gemma == map[] && e.bound == NoBinding
    && (forall i :: w.fates(i) == Survives)
    && Delivers(w.jev(e.child.journal, TextState(source.model, source.state, source.questions)), source)
  }

  // ----- execute_batch -------------------------------------------------------------------

  /** One case of a shared batch, as its second gate sees it. */
  datatype Member = Member(claim: Option<Claim>, item: Item, evidence: Evidence)

  predicate Passes(db: Reservations.State, m: Member) {
    VerifyOwnedClaim(db, m.claim, m.item.binding, m.evidence, m.item.source, None)
  }

  predicate Live(db: Reservations.State, m: Member) {
    m.claim.Some? ==> LiveClaim(db, m.claim.value)
  }

  class Batch {
    var journal: Files
    var sends: nat

    constructor ()
      ensures journal == map[] && sends == 0
    {
      journal, sends := map[], 0;
    }

    /** execute_batch between the token count and the binding: every member passes its
        gate before the one shared send. */
    method Execute(db: Reservations.State, members: seq<Member>, count: nat, budget: nat, request: Payload, attempt: Attempt)
      returns (result: Option<Outcome>)
      requires JournalAttempt(journal, request, attempt)
      modifies this
      ensures sends == old(sends) + if Goes(db, members, count, budget) && attempt.sent.Some? then 1 else 0
      ensures result.Some? ==> Goes(db, members, count, budget)
      ensures !Goes(db, members, count, budget) ==> journal == old(journal)
      ensures sends != old(sends) ==> NeverSent(old(journal)) && RequestFile in journal && StartedFile in journal
    {
      if count > budget { return None; }
      for i := 0 to |members|
        invariant forall j :: 0 <= j < i ==> Passes(db, members[j])
      {
        if !Passes(db, members[i]) { return None; }
      }
      journal := attempt.files;
      if attempt.sent.Some? { sends := sends + 1; }
      return attempt.out;
    }
  }

  predicate Goes(db: Reservations.State, members: seq<Member>, count: nat, budget: nat) {
    count <= budget && forall i :: 0 <= i < |members| ==> Passes(db, members[i])
  }

  /** A case that already has its own explanation, paid outside any batch. */
  predicate OwnExplanation(m: Member) { Saved200(m.evidence.gemma) }

  /** The shared send happens under every member's live claim exactly when no member whose
      claim has lapsed brings a stored explanation of its own. */
  lemma BatchLiveExactly(db: Reservations.State, members: seq<Member>, count: nat, budget: nat)
    requires Goes(db, members, count, budget)
    requires forall i :: 0 <= i < |members| ==> members[i].evidence.bound == NoBinding
    ensures (forall i :: 0 <= i < |members| ==> Live(db, members[i]))
            <==> (forall i :: 0 <= i < |members| && OwnExplanation(members[i]) ==> Live(db, members[i]))
  {
    forall i | 0 <= i < |members| && !Live(db, members[i]) ensures OwnExplanation(members[i]) {
      assert Passes(db, members[i]);
    }
  }

  /** What the batch reads of a case: its saved claim and its files as they are now. */
  function MemberOf(run: CaseRun): Member
    reads run, run.folder
  {
    Member(if run.claimFile.Whole? then run.claimFile.value else None, run.item, run.Now())
  }

  /** A new-only case never pays for an explanation of its own, whatever was run on it
      before, so every shared send of such cases, not yet bound, is under live claims. */
  lemma NewOnlyBatchIsLive(db: Reservations.State, runs: seq<CaseRun>, members: seq<Member>, count: nat, budget: nat)
    requires |members| == |runs| && forall i :: 0 <= i < |runs| ==> members[i] == MemberOf(runs[i])
    requires forall i :: 0 <= i < |runs| ==> runs[i].Valid() && runs[i].newOnly && runs[i].bound == NoBinding
    requires Goes(db, members, count, budget)
    ensures forall i :: 0 <= i < |members| ==> Live(db, members[i])
  {
    forall i | 0 <= i < |members| ensures Live(db, members[i]) {
      assert runs[i].Valid() && Passes(db, members[i]);
    }
  }

  const SCORE_REQUEST := ObjectState("m", "s", "q")

  const OWN := Reservations.Binding.Binding(1, "p", "m", "v", "r")

  function SavedFiles(request: Payload): Files {
    map[RequestFile := Some(PayloadText(request)), StartedFile := Some(StartedMark(request)),
        ResponseFile := Some(Saved(Receipt(request, 200, "")))]
  }

  /** In the three-dot scope the shared send can go out under a lapsed claim: a case scored
      and explained on its own, whose claim then became uncertain, passes the gate again. */
  lemma LapsedClaimJoinsBatch() returns (db: Reservations.State, m: Member)
    ensures Goes(db, [m], 1, 14500) && m.claim.Some? && !LiveClaim(db, m.claim.value)
    ensures m.evidence.bound == NoBinding && m.claim.value.binding in db.rows
    ensures db.rows[m.claim.value.binding].status == Reservations.Uncertain
  {
    var row := Reservations.Row.Row(Reservations.Uncertain, Some(7), 0, None);
    db := Reservations.State.State(map[OWN := row], 10, [], []);
    m := Member(Some(Reservations.Claim.Claim(OWN, Some(7))), Item(true, OWN, SCORE_REQUEST, Text("g")),
                Evidence(SavedFiles(SCORE_REQUEST), Child(map[], Missing, Missing, Missing), SavedFiles(Text("g")), NoBinding));
    assert GetCachedReceipt(m.evidence.root, m.evidence.child, Some(SCORE_REQUEST)) == Ok(Some(Receipt(SCORE_REQUEST, 200, "")));
    assert Passes(db, m);
  }
}
