/** The publisher of scripts/dinaut_three_dot_persistence.py as run_case drives it: a
    baseline taken before paid work, a compare-and-swap transaction behind a durable
    backup, and a result file, with other writers and crashes in between. */
module Publication {
  import opened Common
  import opened JevTransport

  datatype Source = Prod2 | Prod6

  datatype Key = Key(source: Source, id: nat)

  /** A match row; `provenance` is the PROD2 side table's row. */
  datatype Match = Match(id: nat, meta: string, body: string, provenance: Option<string>)

  /** A case as it was frozen, and the composition its paid answers fixed once. */
  datatype Frozen = Frozen(existingId: Option<nat>, existingMeta: Option<string>,
                           meta: string, body: string, provenance: Option<string>)

  datatype Backup = Backup(previous: Option<Match>, meta: string, body: string)

  datatype Change = Inserted(key: Key, row: Match) | Updated(key: Key, before: Match, after: Match)

  datatype Phase =
    | Idle
    | Paid(key: Key, previous: Option<Match>)
    | Committed(key: Key, matchId: nat)

  datatype Scope = ThreeDot | NewOnly

  /** `history` lists the row changes this coordinator committed. */
  datatype State = State(
    rows: map<Key, Match>,
    baselines: map<Key, Slot<Option<Match>>>, backups: map<Key, Slot<Backup>>, results: map<Key, Slot<nat>>,
    phase: Phase, history: seq<Change>)

  datatype Action =
    | Begin(key: Key, fate: Fate)                  // predispatch
    | Transact(evidence: bool, fate: Fate, newId: nat, raced: Option<Match>, commits: bool)
    | Record(fate: Fate)
    | Fail                                        // an error or death in between
    | Foreign(key: Key, row: Match)               // another writer inserts or replaces

  /** The only existing matches the three-dot batch may replace. */
  const ALLOWED: set<(Source, nat)> := {(Prod2, 129), (Prod2, 130), (Prod6, 911)}

  function AllowedReplacements(scope: Scope): set<(Source, nat)> {
    if scope == NewOnly then {} else ALLOWED
  }

  function RowOf(rows: map<Key, Match>, key: Key): Option<Match> {
    if key in rows then Some(rows[key]) else None
  }

  function SlotOf<T>(files: map<Key, Slot<T>>, key: Key): Slot<T> {
    if key in files then files[key] else Missing
  }

  /** predispatch's view of the current match against the frozen one. */
  predicate AsFrozen(current: Option<Match>, c: Frozen) {
    && (if current.None? then None else Some(current.value.id)) == c.existingId
    && (if current.None? then None else Some(current.value.meta)) == c.existingMeta
  }

  function BeginCase(cases: map<Key, Frozen>, s: State, key: Key, fate: Fate): State {
    if !s.phase.Idle? || key !in cases || !SlotOf(s.results, key).Missing? then s
    else
      var current := RowOf(s.rows, key);
      if !AsFrozen(current, cases[key]) then s
      else
        var saved := Once(SlotOf(s.baselines, key), current, fate);
        s.(baselines := s.baselines[key := saved.0], phase := if saved.1.None? then Paid(key, current) else Idle)
  }

  function Written(c: Frozen, id: nat): Match { Match(id, c.meta, c.body, c.provenance) }

  /** publish_case: every check, the backup and the write commit together or not at all,
      except that the backup file stays when the transaction does not commit.  `raced` is a row another
      writer inserts after the row was read, and `commits` whether the commit gets through. */
  function TransactCase(cases: map<Key, Frozen>, scope: Scope, s: State, evidence: bool, fate: Fate, newId: nat,
                        raced: Option<Match>, commits: bool): State
  {
    if !s.phase.Paid? || s.phase.key !in cases then s
    else
      var key, c := s.phase.key, cases[s.phase.key];
      var current := RowOf(s.rows, key);
      var idle := s.(phase := Idle);
      if scope == NewOnly && (s.phase.previous.Some? || c.existingId.Some?) then idle
      else if !evidence || current != s.phase.previous then idle
      else if current.Some? && (key.source, current.value.id) !in AllowedReplacements(scope) then idle
      else
        var saved := Once(SlotOf(s.backups, key), Backup(current, c.meta, c.body), fate);
        var backed := idle.(backups := s.backups[key := saved.0]);
        if saved.1.Some? then backed
        else if current.Some? then
          if !commits then backed
          else
            var after := Written(c, current.value.id);
            backed.(rows := s.rows[key := after], history := s.history + [Updated(key, current.value, after)],
                    phase := Committed(key, after.id))
        else if raced.Some? then backed.(rows := s.rows[key := raced.value])
        else if !commits then backed
        else
          var row := Written(c, newId);
          backed.(rows := s.rows[key := row], history := s.history + [Inserted(key, row)], phase := Committed(key, newId))
  }

  function RecordResult(s: State, fate: Fate): State {
    if !s.phase.Committed? then s
    else
      var key := s.phase.key;
      s.(results := s.results[key := Once(SlotOf(s.results, key), s.phase.matchId, fate).0], phase := Idle)
  }

  function Apply(cases: map<Key, Frozen>, scope: Scope, s: State, a: Action): State {
    match a
    case Begin(key, fate) => BeginCase(cases, s, key, fate)
    case Transact(evidence, fate, newId, raced, commits) => TransactCase(cases, scope, s, evidence, fate, newId, raced, commits)
    case Record(fate) => RecordResult(s, fate)
    case Fail => s.(phase := Idle)
    case Foreign(key, row) => s.(rows := s.rows[key := row])
  }

  function Exec(cases: map<Key, Frozen>, scope: Scope, s: State, run: seq<Action>): State {
    if run == [] then s else Apply(cases, scope, Exec(cases, scope, s, run[..|run| - 1]), run[|run| - 1])
  }

  // ----- What a publication takes -------------------------------------------------------------

  predicate IsRow(rows: map<Key, Match>, key: Key, row: Option<Match>) {
    match row
    case None => key !in rows
    case Some(r) => key in rows && rows[key] == r
  }

  /** A file already there with this very value, or a new one whose write survives. */
  predicate Durable<T(==)>(files: map<Key, Slot<T>>, key: Key, value: T, fate: Fate) {
    if key in files && files[key] != Missing then files[key] == Whole(value) else fate == Survives
  }

  /** No result yet, the row as the selection saw it, and its baseline stored. */
  predicate MayBegin(c: Frozen, key: Key, row: Option<Match>, results: map<Key, Slot<nat>>,
                     baselines: map<Key, Slot<Option<Match>>>, fate: Fate) {
    && (key in results ==> results[key] == Missing)
    && (match row
        case None => c.existingId == None && c.existingMeta == None
        case Some(r) => c.existingId == Some(r.id) && c.existingMeta == Some(r.meta))
    && Durable(baselines, key, row, fate)
  }

  /** Live evidence, the row of the baseline, a new row or a listed one, the backup, and a
      commit that no insertion forestalls. */
  predicate MayPublish(c: Frozen, scope: Scope, key: Key, previous: Option<Match>, rows: map<Key, Match>,
                       backups: map<Key, Slot<Backup>>, evidence: bool, fate: Fate, raced: Option<Match>, commits: bool) {
    && evidence && commits && IsRow(rows, key, previous)
    && Durable(backups, key, Backup(previous, c.meta, c.body), fate)
    && match previous
       case None => raced == None && (scope == NewOnly ==> c.existingId == None)
       case Some(r) => scope == ThreeDot && if key.source == Prod2 then r.id == 129 || r.id == 130 else r.id == 911
  }

  // ----- The object ------------------------------------------------------------------------

  class Publisher {
    const cases: map<Key, Frozen>
    const scope: Scope
    var rows: map<Key, Match>
    var baselines: map<Key, Slot<Option<Match>>>
    var backups: map<Key, Slot<Backup>>
    var results: map<Key, Slot<nat>>
    var phase: Phase
    ghost var history: seq<Change>

    ghost function Now(): State
      reads this
    {
      State(rows, baselines, backups, results, phase, history)
    }

    constructor (cases: map<Key, Frozen>, scope: Scope, rows: map<Key, Match>)
      ensures this.cases == cases && this.scope == scope
      ensures Now() == State(rows, map[], map[], map[], Idle, [])
    {
      this.cases, this.scope, this.rows := cases, scope, rows;
      baselines, backups, results, phase, history := map[], map[], map[], Idle, [];
    }

    /** once_json(baseline): the row the paid work starts from. */
    method Predispatch(key: Key, fate: Fate) returns (ready: bool)
      requires phase.Idle?
      modifies this
      ensures Now() == Apply(cases, scope, old(Now()), Begin(key, fate))
      ensures ready <==> phase == Paid(key, RowOf(rows, key))
      ensures ready <==> key in cases && exists row :: IsRow(rows, key, row) && MayBegin(cases[key], key, row, old(results), old(baselines), fate)
      ensures ready ==> phase.Paid? && phase.key == key && IsRow(rows, key, phase.previous) && baselines == old(baselines)[key := Whole(phase.previous)]
      ensures rows == old(rows) && backups == old(backups) && results == old(results) && history == old(history)
    {
      if key !in cases || !SlotOf(results, key).Missing? { return false; }
      var current := RowOf(rows, key);
      assert IsRow(rows, key, current);
      if !AsFrozen(current, cases[key]) { return false; }
      var saved := Once(SlotOf(baselines, key), current, fate);
      baselines := baselines[key := saved.0];
      if saved.1.Some? { return false; }
      phase := Paid(key, current);
      return true;
    }

    /** The INSERT, or the UPDATE of the row that was there. */
    method Commit(key: Key, current: Option<Match>, id: nat) returns (published: nat)
      requires key in cases
      modifies this`rows, this`history, this`phase
      ensures published == id && rows == old(rows)[key := Written(cases[key], id)] && phase == Committed(key, id)
      ensures history == old(history) + [if current.Some? then Updated(key, current.value, rows[key]) else Inserted(key, rows[key])]
    {
      var row := Written(cases[key], id);
      rows := rows[key := row];
      history := history + [if current.Some? then Updated(key, current.value, row) else Inserted(key, row)];
      phase := Committed(key, row.id);
      return row.id;
    }

    /** One paid case: every guard again, the backup, then the one change. */
    method PublishCase(evidence: bool, fate: Fate, newId: nat, raced: Option<Match>, commits: bool) returns (published: Option<nat>)
      requires phase.Paid? && phase.key in cases
      modifies this
      ensures Now() == Apply(cases, scope, old(Now()), Transact(evidence, fate, newId, raced, commits))
      ensures published.Some? <==> |history| > |old(history)|
      ensures published.Some? ==> phase == Committed(old(phase).key, published.value)
      ensures published.Some? ==> SlotOf(backups, old(phase).key)
                                  == Whole(Backup(RowOf(old(rows), old(phase).key), cases[old(phase).key].meta, cases[old(phase).key].body))
    {
      hide AllowedReplacements, Once, AsFrozen;
      var key, c := phase.key, cases[phase.key];
      var current := RowOf(rows, key);
      var previous := phase.previous;
      phase := Idle;
      if scope == NewOnly && (previous.Some? || c.existingId.Some?) { return None; }
      if !evidence || current != previous { return None; }
      if current.Some? && (key.source, current.value.id) !in AllowedReplacements(scope) { return None; }
      var saved := Once(SlotOf(backups, key), Backup(current, c.meta, c.body), fate);
      backups := backups[key := saved.0];
      if saved.1.Some? { return None; }
      if current.None? && raced.Some? {
        rows := rows[key := raced.value];
        return None;
      }
      if !commits { return None; }
      var id := Commit(key, current, if current.Some? then current.value.id else newId);
      return Some(id);
    }
  }

  // ----- All runs ----------------------------------------------------------------------------

  function KeyOf(c: Change): Key { c.key }

  ghost predicate BackedUp(s: State, c: Change) {
    && KeyOf(c) in s.rows
    && match SlotOf(s.backups, KeyOf(c))
       case Whole(b) => b.previous == if c.Updated? then Some(c.before) else None
       case _ => false
  }

  predicate InsertsAgain(a: Change, b: Change) { a.Inserted? && b.Inserted? && KeyOf(a) == KeyOf(b) }

  ghost predicate Permitted(scope: Scope, c: Change) {
    c.Updated? ==> scope == ThreeDot && c.before.id == c.after.id && (c.key.source, c.before.id) in ALLOWED
  }

  ghost predicate Inv(cases: map<Key, Frozen>, scope: Scope, s: State) {
    && (forall i :: 0 <= i < |s.history| ==> BackedUp(s, s.history[i]) && Permitted(scope, s.history[i]))
    && (s.phase.Paid? ==> SlotOf(s.baselines, s.phase.key) == Whole(s.phase.previous))
    && (s.phase.Paid? ==> s.phase.key in cases && AsFrozen(s.phase.previous, cases[s.phase.key]))
    && (forall i, j :: 0 <= i < |s.history| && 0 <= j < |s.history| && InsertsAgain(s.history[i], s.history[j]) ==> i == j)
  }

  ghost predicate OneChange(s: State, s': State, c: Change) {
    && s'.history == s.history + [c]
    && match c
       case Inserted(k, row) => k !in s.rows && s'.rows == s.rows[k := row]
       case Updated(k, before, after) => k in s.rows && s.rows[k] == before && s'.rows == s.rows[k := after]
  }

  ghost predicate RowsKept(s: State, s': State) {
    forall k :: k in s.rows ==> k in s'.rows && s'.rows[k] == s.rows[k]
  }

  ghost predicate BackupsKept(s: State, s': State) {
    forall k :: !SlotOf(s.backups, k).Missing? ==> SlotOf(s'.backups, k) == SlotOf(s.backups, k)
  }

  lemma TransactKeeps(cases: map<Key, Frozen>, scope: Scope, s: State, evidence: bool, fate: Fate, newId: nat,
                      raced: Option<Match>, commits: bool)
    ensures
      var s' := TransactCase(cases, scope, s, evidence, fate, newId, raced, commits);
      && BackupsKept(s, s') && s'.baselines == s.baselines && (s'.phase.Paid? ==> s' == s)
      && (s'.history == s.history ==> RowsKept(s, s'))
  {
  }

  /** The transaction, seen from outside. */
  lemma TransactEffect(cases: map<Key, Frozen>, scope: Scope, s: State, evidence: bool, fate: Fate, newId: nat,
                       raced: Option<Match>, commits: bool)
    ensures
      var s' := TransactCase(cases, scope, s, evidence, fate, newId, raced, commits);
      && BackupsKept(s, s') && s'.baselines == s.baselines && (s'.phase.Paid? ==> s' == s)
      && (s'.history == s.history ==> RowsKept(s, s'))
      && (s'.history != s.history ==>
            && |s'.history| == |s.history| + 1 && OneChange(s, s', s'.history[|s.history|])
            && s.phase.Paid? && s.phase.key == KeyOf(s'.history[|s.history|])
            && s.phase.previous == RowOf(s.rows, s.phase.key)
            && BackedUp(s', s'.history[|s.history|]) && Permitted(scope, s'.history[|s.history|]))
  {
    TransactKeeps(cases, scope, s, evidence, fate, newId, raced, commits);
    hide Once, BackupsKept, RowsKept;
    var s' := TransactCase(cases, scope, s, evidence, fate, newId, raced, commits);
    if s.phase.Paid? && s'.history != s.history {
      assert s'.history[|s.history|] == s'.history[|s'.history| - 1];
    }
  }

  /** What one action may do: at most one recorded change, of the row it names, as it was. */
  lemma StepChanges(cases: map<Key, Frozen>, scope: Scope, s: State, a: Action)
    ensures
      var s' := Apply(cases, scope, s, a);
      && (s'.history == s.history && !a.Foreign? ==> RowsKept(s, s'))
      && (a.Foreign? ==> s'.rows == s.rows[a.key := a.row] && s'.history == s.history)
      && (s'.history != s.history ==> |s'.history| == |s.history| + 1 && OneChange(s, s', s'.history[|s.history|]))
  {
    if a.Transact? {
      hide TransactCase;
      TransactEffect(cases, scope, s, a.evidence, a.fate, a.newId, a.raced, a.commits);
    }
  }

  lemma OldChangesStay(scope: Scope, s: State, s': State)
    requires forall i :: 0 <= i < |s.history| ==> BackedUp(s, s.history[i]) && Permitted(scope, s.history[i])
    requires BackupsKept(s, s') && s.rows.Keys <= s'.rows.Keys && s.history <= s'.history
    ensures forall i :: 0 <= i < |s.history| ==> BackedUp(s', s'.history[i]) && Permitted(scope, s'.history[i])
  {
    forall i | 0 <= i < |s.history| ensures BackedUp(s', s'.history[i]) && Permitted(scope, s'.history[i]) {
      assert BackedUp(s, s.history[i]) && Permitted(scope, s.history[i]);
    }
  }

  /** The key of a committed insertion was not recorded before. */
  lemma InsertsOnce(cases: map<Key, Frozen>, scope: Scope, s: State, s': State)
    requires Inv(cases, scope, s) && s'.history != s.history
    requires |s'.history| == |s.history| + 1 && OneChange(s, s', s'.history[|s.history|])
    ensures forall i, j :: 0 <= i < |s'.history| && 0 <= j < |s'.history| && InsertsAgain(s'.history[i], s'.history[j]) ==> i == j
  {
    var n := |s.history|;
    assert s'.history[..n] == s.history;
    hide AsFrozen, Permitted;
    forall i | 0 <= i < n ensures KeyOf(s'.history[i]) in s.rows {
      assert BackedUp(s, s.history[i]);
    }
  }

  lemma TransactKeepsInv(cases: map<Key, Frozen>, scope: Scope, s: State, a: Action)
    requires a.Transact? && Inv(cases, scope, s)
    ensures Inv(cases, scope, Apply(cases, scope, s, a))
  {
    hide TransactCase, AsFrozen, BackedUp, Permitted, InsertsAgain;
    var s' := Apply(cases, scope, s, a);
    TransactEffect(cases, scope, s, a.evidence, a.fate, a.newId, a.raced, a.commits);
    OldChangesStay(scope, s, s');
    if s'.history != s.history { InsertsOnce(cases, scope, s, s'); }
  }

  lemma StepKeepsInv(cases: map<Key, Frozen>, scope: Scope, s: State, a: Action)
    requires Inv(cases, scope, s)
    ensures Inv(cases, scope, Apply(cases, scope, s, a))
  {
    if a.Transact? {
      TransactKeepsInv(cases, scope, s, a);
    } else {
      OldChangesStay(scope, s, Apply(cases, scope, s, a));
    }
  }

  lemma AllowedIs(scope: Scope, key: Key, id: nat)
    ensures (key.source, id) in AllowedReplacements(scope) <==>
              scope == ThreeDot && if key.source == Prod2 then id == 129 || id == 130 else id == 911
  {
  }

  /** A publication that meets every check commits: the paid composition, under the id the
      match had. */
  lemma PublishCommits(cases: map<Key, Frozen>, scope: Scope, s: State, evidence: bool, fate: Fate, newId: nat,
                       raced: Option<Match>, commits: bool)
    requires s.phase.Paid? && s.phase.key in cases
    requires MayPublish(cases[s.phase.key], scope, s.phase.key, s.phase.previous, s.rows, s.backups, evidence, fate, raced, commits)
    ensures
      var key, c, previous := s.phase.key, cases[s.phase.key], s.phase.previous;
      var s' := Apply(cases, scope, s, Transact(evidence, fate, newId, raced, commits));
      var row := Match(if previous.Some? then previous.value.id else newId, c.meta, c.body, c.provenance);
      && s'.rows == s.rows[key := row] && s'.phase == Committed(key, row.id)
      && s'.history == s.history + [if previous.Some? then Updated(key, previous.value, row) else Inserted(key, row)]
      && s'.backups == s.backups[key := Whole(Backup(previous, c.meta, c.body))]
      && s'.baselines == s.baselines && s'.results == s.results
  {
    if s.phase.previous.Some? { AllowedIs(scope, s.phase.key, s.phase.previous.value.id); }
    hide AllowedReplacements;
  }

  lemma CommitNeeds(cases: map<Key, Frozen>, scope: Scope, s: State, evidence: bool, fate: Fate, newId: nat,
                  raced: Option<Match>, commits: bool)
    requires s.phase.Paid? && s.phase.key in cases
    requires TransactCase(cases, scope, s, evidence, fate, newId, raced, commits).history != s.history
    ensures MayPublish(cases[s.phase.key], scope, s.phase.key, s.phase.previous, s.rows, s.backups, evidence, fate, raced, commits)
  {
    if s.phase.previous.Some? { AllowedIs(scope, s.phase.key, s.phase.previous.value.id); }
    hide AllowedReplacements;
  }

  lemma NoCommit(cases: map<Key, Frozen>, scope: Scope, s: State, evidence: bool, fate: Fate, newId: nat,
                 raced: Option<Match>, commits: bool)
    requires s.phase.Paid? && s.phase.key in cases
    requires TransactCase(cases, scope, s, evidence, fate, newId, raced, commits).history == s.history
    ensures
      var s' := TransactCase(cases, scope, s, evidence, fate, newId, raced, commits);
      && s'.phase == Idle
      && (s'.rows == s.rows || (raced.Some? && s.phase.key !in s.rows && s'.rows == s.rows[s.phase.key := raced.value]))
  {
    hide AllowedReplacements, Once;
  }

  /** One that misses any of them changes no row; at most the row of another writer is there. */
  lemma PublishRefuses(cases: map<Key, Frozen>, scope: Scope, s: State, evidence: bool, fate: Fate, newId: nat,
                       raced: Option<Match>, commits: bool)
    requires s.phase.Paid? && s.phase.key in cases
    requires !MayPublish(cases[s.phase.key], scope, s.phase.key, s.phase.previous, s.rows, s.backups, evidence, fate, raced, commits)
    ensures
      var s' := Apply(cases, scope, s, Transact(evidence, fate, newId, raced, commits));
      && s'.phase == Idle && s'.history == s.history
      && (s'.rows == s.rows || (raced.Some? && s.phase.key !in s.rows && s'.rows == s.rows[s.phase.key := raced.value]))
  {
    hide MayPublish, TransactCase;
    if TransactCase(cases, scope, s, evidence, fate, newId, raced, commits).history != s.history {
      CommitNeeds(cases, scope, s, evidence, fate, newId, raced, commits);
    } else {
      NoCommit(cases, scope, s, evidence, fate, newId, raced, commits);
    }
  }

  /** A committed match is in its result file unless that write dies or another is there. */
  lemma ResultRecorded(cases: map<Key, Frozen>, scope: Scope, s: State, fate: Fate)
    requires s.phase.Committed?
    ensures
      var key, s' := s.phase.key, Apply(cases, scope, s, Record(fate));
      && s'.phase == Idle && s'.rows == s.rows && s'.history == s.history && s'.backups == s.backups && s'.baselines == s.baselines
      && (forall k :: k in s.results && k != key ==> k in s'.results && s'.results[k] == s.results[k])
      && (Durable(s.results, key, s.phase.matchId, fate) ==> key in s'.results && s'.results[key] == Whole(s.phase.matchId))
      && (key in s.results && s.results[key] != Missing ==> s'.results[key] == s.results[key])
  {
  }

  lemma {:induction false} ExecKeepsInv(cases: map<Key, Frozen>, scope: Scope, s: State, run: seq<Action>)
    requires s.phase.Idle? && s.history == []
    ensures Inv(cases, scope, Exec(cases, scope, s, run))
  {
    if run != [] {
      ExecKeepsInv(cases, scope, s, run[..|run| - 1]);
      StepKeepsInv(cases, scope, Exec(cases, scope, s, run[..|run| - 1]), run[|run| - 1]);
    }
  }

  /** New-only scopes: whatever crashes and whoever else writes, every committed change is
      an insertion, and no case is ever inserted twice. */
  lemma NewOnlyInserts(cases: map<Key, Frozen>, s: State, run: seq<Action>)
    requires s.phase.Idle? && s.history == []
    ensures
      var h := Exec(cases, NewOnly, s, run).history;
      && (forall i :: 0 <= i < |h| ==> h[i].Inserted?)
      && (forall i, j :: 0 <= i < |h| && 0 <= j < |h| && KeyOf(h[i]) == KeyOf(h[j]) ==> i == j)
  {
    ExecKeepsInv(cases, NewOnly, s, run);
    var h := Exec(cases, NewOnly, s, run).history;
    assert forall i :: 0 <= i < |h| ==> Permitted(NewOnly, h[i]);
  }

  /** Three-dot scope: only the allowlisted rows are ever replaced, each keeping its id, and
      the exact row that was there is in the backup for good. */
  lemma ThreeDotReplaces(cases: map<Key, Frozen>, s: State, run: seq<Action>, i: nat)
    requires s.phase.Idle? && s.history == []
    requires i < |Exec(cases, ThreeDot, s, run).history| && Exec(cases, ThreeDot, s, run).history[i].Updated?
    ensures
      var s' := Exec(cases, ThreeDot, s, run);
      var c := s'.history[i];
      && (c.key.source, c.before.id) in ALLOWED && c.after.id == c.before.id
      && c.key in s'.backups && s'.backups[c.key].Whole? && s'.backups[c.key].value.previous == Some(c.before)
  {
    ExecKeepsInv(cases, ThreeDot, s, run);
    var s' := Exec(cases, ThreeDot, s, run);
    assert BackedUp(s', s'.history[i]) && Permitted(ThreeDot, s'.history[i]);
  }

  predicate NobodyElse(run: seq<Action>, key: Key) {
    forall i :: 0 <= i < |run| ==> !(run[i].Foreign? && run[i].key == key)
  }

  /** The new composition can be told from the frozen analysis. */
  predicate Distinguishable(c: Frozen) { c.existingMeta != Some(c.meta) }

  /** Once a change of `key` is committed, the row is no longer the frozen one. */
  ghost predicate Spent(cases: map<Key, Frozen>, s: State, key: Key) {
    && key in s.rows && key in cases && !AsFrozen(Some(s.rows[key]), cases[key])
    && !(s.phase.Paid? && s.phase.key == key)
  }

  lemma SpentStep(cases: map<Key, Frozen>, scope: Scope, s: State, a: Action, key: Key)
    requires Spent(cases, s, key) && !(a.Foreign? && a.key == key)
    ensures Spent(cases, Apply(cases, scope, s, a), key) && Apply(cases, scope, s, a).rows[key] == s.rows[key]
  {
    hide AsFrozen;
  }

  lemma {:induction false} SpentStays(cases: map<Key, Frozen>, scope: Scope, s: State, run: seq<Action>, key: Key)
    requires Spent(cases, s, key) && NobodyElse(run, key)
    ensures Spent(cases, Exec(cases, scope, s, run), key)
    ensures Exec(cases, scope, s, run).rows[key] == s.rows[key]
  {
    hide Apply, AsFrozen;
    if run != [] {
      SpentStays(cases, scope, s, run[..|run| - 1], key);
      SpentStep(cases, scope, Exec(cases, scope, s, run[..|run| - 1]), run[|run| - 1], key);
    }
  }

  /** A commit is final: after it no crash, rerun or other case changes the row, unless
      another writer does. */
  lemma CommitIsFinal(cases: map<Key, Frozen>, scope: Scope, s: State, a: Action, run: seq<Action>)
    requires Inv(cases, scope, s) && Apply(cases, scope, s, a).history != s.history
    requires Distinguishable(cases[s.phase.key]) && NobodyElse(run, s.phase.key)
    ensures
      var s' := Apply(cases, scope, s, a);
      var key := s.phase.key;
      && key in s'.rows
      && key in Exec(cases, scope, s', run).rows && Exec(cases, scope, s', run).rows[key] == s'.rows[key]
  {
    SpentStays(cases, scope, Apply(cases, scope, s, a), run, s.phase.key);
  }
}
