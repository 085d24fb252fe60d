/** How far each store's guarantee reaches: undisturbed calls do send, and without the
    stated conditions the protocol can pay twice. */
module ProtocolLimits {
  import opened Common
  import opened DispatchProtocol
  import opened Schedules
  import J = JournalSafety
  import L = LedgerSafety

  /** Only thread `t`, its folder, its ledger rows and the history may differ. */
  ghost predicate Beside(s: State, s': State, t: Tid) {
    && t in s.threads && t in s'.threads && s'.threads == s.threads[t := s'.threads[t]]
    && s'.threads[t].call == s.threads[t].call
    && s'.handed == s.handed
    && (forall p: Path :: p.key.folder != s.threads[t].call.key.folder ==>
          ((p in s.disk <==> p in s'.disk) && (p in s.disk ==> s.disk[p] == s'.disk[p])))
  }

  ghost predicate Leads(s: State, s': State, t: Tid) {
    Alone(s, s', t) && Beside(s, s', t)
  }

  lemma LeadsJoins(s: State, mid: State, s': State, t: Tid)
    requires Leads(s, mid, t) && Leads(mid, s', t)
    ensures Leads(s, s', t)
  {
    AloneJoins(s, mid, s', t);
  }

  /** What one undisturbed step of saving a file before the send changes. */
  ghost predicate SavedUpTo(s: State, s': State, t: Tid, part: Part) {
    && Leads(s, s', t) && s'.ledger == s.ledger && s'.posts == s.posts
    && (forall p: Path :: p in s'.disk <==> p in s.disk || p == PathOf(s.threads[t], part))
  }

  lemma SaveOne(s: State, t: Tid, part: Part, step: SaveStep) returns (s': State)
    requires t in s.threads && s.threads[t].pc == Save(part, step) && (part == RequestFile || part == StartedFile)
    requires PathOf(s.threads[t], part) in s.disk <==> step != Create
    ensures SavedUpTo(s, s', t, part) && s'.threads[t] == NextStep(s.threads[t], part, step)
  {
    s' := SaveTick(s, t, s.threads[t], part, step);
    OneTick(s, t, Refused);
  }

  lemma SaveNext(s: State, mid: State, t: Tid, part: Part, step: SaveStep) returns (s': State)
    requires t in s.threads && SavedUpTo(s, mid, t, part)
    requires mid.threads[t].pc == Save(part, step) && step != Create && (part == RequestFile || part == StartedFile)
    ensures SavedUpTo(s, s', t, part) && s'.threads[t] == NextStep(mid.threads[t], part, step)
  {
    s' := SaveOne(mid, t, part, step);
    LeadsJoins(s, mid, s', t);
  }

  /** Four undisturbed steps save one of the two files that precede a send. */
  lemma SaveFour(s: State, t: Tid, part: Part) returns (s': State)
    requires t in s.threads && s.threads[t].pc == Save(part, Create) && (part == RequestFile || part == StartedFile)
    requires PathOf(s.threads[t], part) !in s.disk
    ensures SavedUpTo(s, s', t, part) && s'.threads[t] == AfterSave(s.threads[t], part)
  {
    s' := SaveOne(s, t, part, Create);
    s' := SaveNext(s, s', t, part, Write);
    s' := SaveNext(s, s', t, part, SyncFile);
    s' := SaveNext(s, s', t, part, SyncDir);
  }

  predicate ReadyToSend(s: State, t: Tid) {
    t in s.threads && Authorized(s.threads[t].call) && Untouched(s.disk, s.threads[t].call.key)
  }

  /** With no evidence in the folder a reading step only moves on. */
  lemma LookOn(s: State, t: Tid, pc: PC) returns (s': State)
    requires ReadyToSend(s, t)
    requires (s.threads[t].pc, pc) in {(Validate, CheckResponse), (CheckResponse, CheckStarted), (CheckStarted, Save(RequestFile, Create))}
    ensures Leads(s, s', t) && s' == Put(s, t, s.threads[t].(pc := pc))
  {
    s' := Finish(s, t, Look(s, s.threads[t]));
    OneTick(s, t, Refused);
  }

  /** From the ledger insertion to the point of creating the request file. */
  lemma UndisturbedChecks(s: State, t: Tid) returns (s': State)
    requires ReadyToSend(s, t) && s.threads[t].pc.InsertRow?
    ensures Leads(s, s', t) && s'.disk == s.disk && s'.posts == s.posts
    ensures s'.ledger == s.ledger + [Row(s.threads[t].call.key.stage, s.threads[t].call.payload, RowStarted)]
    ensures s'.threads[t].pc == Save(RequestFile, Create)
  {
    var s1 := LedgerTick(s, t, s.threads[t]);
    OneTick(s, t, Refused);
    var s2 := LookOn(s1, t, CheckResponse); LeadsJoins(s, s1, s2, t);
    var s3 := LookOn(s2, t, CheckStarted); LeadsJoins(s, s2, s3, t);
    s' := LookOn(s3, t, Save(RequestFile, Create)); LeadsJoins(s, s3, s', t);
  }

  /** From there both files are saved. */
  lemma UndisturbedFiles(s: State, t: Tid) returns (s': State)
    requires ReadyToSend(s, t) && s.threads[t].pc == Save(RequestFile, Create)
    ensures Leads(s, s', t) && s'.posts == s.posts && s'.ledger == s.ledger && s'.threads[t].pc.Send?
  {
    var mid := SaveFour(s, t, RequestFile);
    s' := SaveFour(mid, t, StartedFile);
    LeadsJoins(s, mid, s', t);
  }

  /** A ledger call that found no earlier row and no files, left to run, sends. */
  lemma UndisturbedSends(s: State, t: Tid, reply: Reply) returns (s': State)
    requires ReadyToSend(s, t) && s.threads[t].pc.InsertRow? && reply.Http?
    ensures Leads(s, s', t)
    ensures s'.ledger == s.ledger + [Row(s.threads[t].call.key.stage, s.threads[t].call.payload, RowStarted)]
    ensures s'.posts == s.posts + [Post(s.threads[t].call.key, s.threads[t].call.payload, reply)]
  {
    var s1 := UndisturbedChecks(s, t);
    var s2 := UndisturbedFiles(s1, t); LeadsJoins(s, s1, s2, t);
    s' := SendTick(s2, t, s2.threads[t], reply);
    OneTick(s2, t, reply); LeadsJoins(s, s2, s', t);
  }

  // ----- The environments in which each guarantee holds ---------------------------------

  /** What the surroundings may do to a run. */
  datatype Surroundings = Surroundings(foldersKept: bool, ledgerKept: bool, coordinated: bool)

  predicate Allowed(e: Surroundings, boot: State, run: seq<Action>) {
    && Booted(boot)
    && (e.foldersKept ==> FoldersKept(run))
    && (e.ledgerKept ==> LedgerKept(run))
    && (e.coordinated ==> Coordinated(boot, run))
  }

  const EMPTY := State(map[], [], map[], [], [])

  function JevCall(folder: Folder, payload: Payload): Call {
    Call(true, Key(folder, Jev), payload, SystemOne, true, Authorization)
  }

  const OK_REPLY := Http(200, "{}")

  /** A call on a quiet machine, an untouched folder and an unknown request: one send. */
  lemma FreshCall(s: State, folder: Folder, payload: Payload) returns (s': State, ticks: seq<Action>)
    requires s.threads == map[] && Untouched(s.disk, Key(folder, Jev)) && !L.Recorded(s.ledger, Jev, payload)
    ensures OnlyTicks(ticks, 0) && s' == Exec(Apply(s, Start(0, JevCall(folder, payload))), ticks)
    ensures s'.threads.Keys == {0}
    ensures s'.posts == s.posts + [Post(Key(folder, Jev), payload, OK_REPLY)]
    ensures s'.ledger == s.ledger + [Row(Jev, payload, RowStarted)]
    ensures forall p: Path :: p.key.folder != folder ==> (p in s.disk <==> p in s'.disk)
  {
    var s1 := Apply(s, Start(0, JevCall(folder, payload)));
    var s2 := Finish(s1, 0, Look(s1, s1.threads[0]));
    OneTick(s1, 0, Refused);
    s' := UndisturbedSends(s2, 0, OK_REPLY);
    LeadsJoins(s1, s2, s', 0);
    ticks :| OnlyTicks(ticks, 0) && s' == Exec(s1, ticks);
  }

  lemma CoordinatedExtends(boot: State, before: seq<Action>, start: Action, after: seq<Action>)
    requires Coordinated(boot, before) && start.Start? && start.call.reserved
    requires Exec(boot, before).threads == map[]
    requires forall i :: 0 <= i < |after| ==> !after[i].Start?
    ensures Coordinated(boot, before + [start] + after)
  {
    var run := before + [start] + after;
    forall i | 0 <= i < |run| && run[i].Start?
      ensures run[i].call.reserved && Idle(Exec(boot, run[..i]), run[i].call.key.stage, run[i].call.payload)
    {
      if i < |before| { assert run[..i] == before[..i] && run[i] == before[i]; }
      else { assert i == |before| && run[..i] == before; }
    }
  }

  /** Such a call as a coordinated continuation of a run, its process killed afterwards. */
  lemma FreshCallSends(boot: State, before: seq<Action>, folder: Folder, payload: Payload) returns (run: seq<Action>)
    requires Exec(boot, before).threads == map[] && Untouched(Exec(boot, before).disk, Key(folder, Jev))
    requires !L.Recorded(Exec(boot, before).ledger, Jev, payload)
    requires Coordinated(boot, before)
    ensures Coordinated(boot, run) && before <= run
    ensures forall i :: |before| <= i < |run| ==> run[i].Start? || run[i].Tick? || run[i].Kill?
    ensures Exec(boot, run).threads == map[]
    ensures Exec(boot, run).posts == Exec(boot, before).posts + [Post(Key(folder, Jev), payload, OK_REPLY)]
    ensures Exec(boot, run).ledger == Exec(boot, before).ledger + [Row(Jev, payload, RowStarted)]
    ensures forall p: Path :: p.key.folder != folder ==> (p in Exec(boot, before).disk <==> p in Exec(boot, run).disk)
  {
    var s := Exec(boot, before);
    var start := Start(0, JevCall(folder, payload));
    var s', ticks := FreshCall(s, folder, payload);
    ExecOne(s, start); ExecConcat(boot, before, [start]);
    ExecConcat(boot, before + [start], ticks);
    ExecOne(s', Kill({0})); ExecConcat(boot, before + [start] + ticks, [Kill({0})]);
    var after := ticks + [Kill({0})];
    run := before + [start] + after;
    assert run == before + [start] + ticks + [Kill({0})];
    CoordinatedExtends(boot, before, start, after);
  }

  lemma Extend(boot: State, run: seq<Action>, a: Action)
    requires Coordinated(boot, run) && !a.Start?
    ensures Coordinated(boot, run + [a]) && Exec(boot, run + [a]) == Apply(Exec(boot, run), a)
  {
    ExecConcat(boot, run, [a]); ExecOne(Exec(boot, run), a);
    forall i | 0 <= i < |run + [a]| && (run + [a])[i].Start?
      ensures var c := (run + [a])[i].call; c.reserved && Idle(Exec(boot, (run + [a])[..i]), c.key.stage, c.payload)
    {
      assert (run + [a])[..i] == run[..i];
    }
  }

  /** Losing the ledger between two calls from different folders pays twice. */
  lemma LostLedgerRepays() returns (run: seq<Action>)
    ensures FoldersKept(run) && Coordinated(EMPTY, run)
    ensures !OnePostPerRequest(Exec(EMPTY, run))
  {
    var first := FreshCallSends(EMPTY, [], "a", Text("p"));
    Extend(EMPTY, first, LoseLedger);
    run := FreshCallSends(EMPTY, first + [LoseLedger], "b", Text("p"));
    assert SameRequest(Exec(EMPTY, run).posts[0], Exec(EMPTY, run).posts[1]);
  }

  /** Losing the folder between two different requests sends twice from it. */
  lemma LostFolderResends() returns (run: seq<Action>)
    ensures LedgerKept(run) && Coordinated(EMPTY, run)
    ensures !OnePostPerFolderStage(Exec(EMPTY, run))
  {
    var first := FreshCallSends(EMPTY, [], "a", Text("p"));
    Extend(EMPTY, first, LoseFolder("a"));
    run := FreshCallSends(EMPTY, first + [LoseFolder("a")], "a", Text("q"));
    assert Exec(EMPTY, run).posts[0].key == Exec(EMPTY, run).posts[1].key;
  }

  /** Losing both repays even the same request from the same folder. */
  lemma LostBothRepays() returns (run: seq<Action>)
    ensures Coordinated(EMPTY, run)
    ensures !OnePostPerFolderRequest(Exec(EMPTY, run))
  {
    var first := FreshCallSends(EMPTY, [], "a", Text("p"));
    Extend(EMPTY, first, LoseLedger);
    Extend(EMPTY, first + [LoseLedger], LoseFolder("a"));
    run := FreshCallSends(EMPTY, first + [LoseLedger] + [LoseFolder("a")], "a", Text("p"));
    assert SameFolderRequest(Exec(EMPTY, run).posts[0], Exec(EMPTY, run).posts[1]);
  }

  predicate SameFolderRequest(a: Post, b: Post) {
    a.key == b.key && a.payload == b.payload
  }

  predicate OnePostPerFolderRequest(s: State) {
    forall i, j :: 0 <= i < |s.posts| && 0 <= j < |s.posts| && SameFolderRequest(s.posts[i], s.posts[j]) ==> i == j
  }

  /** Two calls for one request from two folders, both past the SELECT. */
  lemma TwoPastSelect() returns (run: seq<Action>)
    ensures |run| == 4 && forall i :: 0 <= i < 4 ==> run[i].Start? || run[i].Tick?
    ensures
      var s := Exec(EMPTY, run);
      && s.disk == map[] && s.posts == [] && s.threads.Keys == {0, 1}
      && s.threads[0].pc.InsertRow? && s.threads[0].call == JevCall("a", Text("p"))
      && s.threads[1].pc.InsertRow? && s.threads[1].call == JevCall("b", Text("p"))
  {
    var r1 := [] + [Start(0, JevCall("a", Text("p")))];
    ExecSnoc(EMPTY, [], Start(0, JevCall("a", Text("p"))));
    var r2 := r1 + [Start(1, JevCall("b", Text("p")))];
    ExecSnoc(EMPTY, r1, Start(1, JevCall("b", Text("p"))));
    var r3 := r2 + [Tick(0, Refused)];
    ExecSnoc(EMPTY, r2, Tick(0, Refused));
    run := r3 + [Tick(1, Refused)];
    ExecSnoc(EMPTY, r3, Tick(1, Refused));
  }

  lemma ThenSends(run: seq<Action>, t: Tid) returns (run': seq<Action>)
    requires ReadyToSend(Exec(EMPTY, run), t) && Exec(EMPTY, run).threads[t].pc.InsertRow?
    requires FoldersKept(run) && LedgerKept(run)
    ensures FoldersKept(run') && LedgerKept(run')
    ensures
      var s, s' := Exec(EMPTY, run), Exec(EMPTY, run');
      && Beside(s, s', t)
      && s'.posts == s.posts + [Post(s.threads[t].call.key, s.threads[t].call.payload, OK_REPLY)]
  {
    var s := Exec(EMPTY, run);
    var s' := UndisturbedSends(s, t, OK_REPLY);
    var ticks :| OnlyTicks(ticks, t) && s' == Exec(s, ticks);
    ExecConcat(EMPTY, run, ticks);
    run' := run + ticks;
  }

  /** Overlapping calls both pass the ledger's separate SELECT and INSERT, and both send. */
  lemma OverlapRepays() returns (run: seq<Action>)
    ensures FoldersKept(run) && LedgerKept(run)
    ensures !OnePostPerRequest(Exec(EMPTY, run))
  {
    run := TwoPastSelect();
    var s := Exec(EMPTY, run);
    run := ThenSends(run, 0);
    assert Exec(EMPTY, run).threads[1] == s.threads[1];
    assert Untouched(Exec(EMPTY, run).disk, Key("b", Jev));
    run := ThenSends(run, 1);
    assert SameRequest(Exec(EMPTY, run).posts[0], Exec(EMPTY, run).posts[1]);
  }

  // ----- Which store protects what --------------------------------------------------------

  /** One send per request hash is guaranteed exactly where the ledger survives and calls
      are coordinated. */
  lemma PerRequestExactly(e: Surroundings)
    ensures (forall boot, run :: Allowed(e, boot, run) ==> OnePostPerRequest(Exec(boot, run)))
            <==> e.ledgerKept && e.coordinated
  {
    if e.ledgerKept && e.coordinated {
      forall boot, run | Allowed(e, boot, run) ensures OnePostPerRequest(Exec(boot, run)) { L.LedgerAtMostOnce(boot, run); }
    } else if !e.ledgerKept {
      var run := LostLedgerRepays();
      assert Allowed(e, EMPTY, run);
    } else {
      var run := OverlapRepays();
      assert Allowed(e, EMPTY, run);
    }
  }

  /** One send per (folder, stage) is guaranteed exactly where folders survive. */
  lemma PerFolderStageExactly(e: Surroundings)
    ensures (forall boot, run :: Allowed(e, boot, run) ==> OnePostPerFolderStage(Exec(boot, run))) <==> e.foldersKept
  {
    if e.foldersKept {
      forall boot, run | Allowed(e, boot, run) ensures OnePostPerFolderStage(Exec(boot, run)) { J.JournalAtMostOnce(boot, run); }
    } else {
      var run := LostFolderResends();
      assert Allowed(e, EMPTY, run);
    }
  }

  /** The same request is never sent twice from the same folder while either store
      survives; among coordinated runs that is also necessary. */
  lemma EitherStoreSuffices(e: Surroundings)
    requires e.coordinated
    ensures (forall boot, run :: Allowed(e, boot, run) ==> OnePostPerFolderRequest(Exec(boot, run)))
            <==> e.foldersKept || e.ledgerKept
  {
    if e.foldersKept || e.ledgerKept {
      forall boot, run | Allowed(e, boot, run) ensures OnePostPerFolderRequest(Exec(boot, run)) {
        if e.foldersKept { J.JournalAtMostOnce(boot, run); }
        else {
          L.LedgerAtMostOnce(boot, run);
          var s := Exec(boot, run);
          assert forall i, j :: 0 <= i < |s.posts| && 0 <= j < |s.posts| && SameFolderRequest(s.posts[i], s.posts[j])
                   ==> SameRequest(s.posts[i], s.posts[j]);
        }
      }
    } else {
      var run := LostBothRepays();
      assert Allowed(e, EMPTY, run);
    }
  }
}
