/** What the PostgreSQL stage ledger guarantees under the coordinator lock: at most one
    send per request hash over any sequence of restarts, whatever happens to the local
    folders between them. */
module LedgerSafety {
  import opened Common
  import opened DispatchProtocol

  predicate SameCall(a: Thread, b: Thread) {
    a.call.key.stage == b.call.key.stage && a.call.payload == b.call.payload
  }

  predicate Recorded(ledger: seq<Row>, stage: Stage, payload: Payload) {
    exists i :: 0 <= i < |ledger| && ledger[i].stage == stage && ledger[i].payload == payload
  }

  predicate Posted(posts: seq<Post>, stage: Stage, payload: Payload) {
    exists i :: 0 <= i < |posts| && posts[i].key.stage == stage && posts[i].payload == payload
  }

  predicate BeforeSend(pc: PC) {
    || pc.Validate? || pc.CheckResponse? || pc.CheckStarted? || pc.Send?
    || (pc.Save? && (pc.part == RequestFile || pc.part == StartedFile))
  }

  ghost predicate ThreadInv(s: State, th: Thread) {
    var stage, payload := th.call.key.stage, th.call.payload;
    && th.call.reserved
    && (th.pc.InsertRow? ==> !Recorded(s.ledger, stage, payload))
    && (th.inserted ==> Recorded(s.ledger, stage, payload) && !(th.pc in {SelectPrior, CheckPrior, InsertRow}))
    && (th.inserted && BeforeSend(th.pc) ==> !Posted(s.posts, stage, payload))
    && (!th.inserted ==> !th.pc.CheckStarted? && !th.pc.Send? && !th.pc.Save?)
    && (!th.inserted && (th.pc.Validate? || th.pc.CheckResponse?) ==> PathOf(th, ResponseFile) in s.disk)
  }

  ghost predicate Inv(s: State) {
    && OnePostPerRequest(s)
    && (forall i :: 0 <= i < |s.posts| ==> Recorded(s.ledger, s.posts[i].key.stage, s.posts[i].payload))
    && (forall t :: t in s.threads && !s.threads[t].pc.Finished? ==> ThreadInv(s, s.threads[t]))
    && (forall t, u :: t in s.threads && u in s.threads && Together(s.threads[t], s.threads[u]) ==> t == u)
  }

  predicate Together(a: Thread, b: Thread) {
    !a.pc.Finished? && !b.pc.Finished? && SameCall(a, b)
  }

  ghost predicate LedgerGrows(a: seq<Row>, b: seq<Row>) {
    |a| <= |b| && forall i :: 0 <= i < |a| ==> a[i].stage == b[i].stage && a[i].payload == b[i].payload
  }

  /** A row or a send added by thread `t` concerns only its own request. */
  ghost predicate OnlyOwn(s: State, s': State, th: Thread) {
    && (forall stage, payload :: Recorded(s'.ledger, stage, payload) && !Recorded(s.ledger, stage, payload)
          ==> stage == th.call.key.stage && payload == th.call.payload)
    && (forall stage, payload :: Posted(s'.posts, stage, payload) && !Posted(s.posts, stage, payload)
          ==> stage == th.call.key.stage && payload == th.call.payload)
  }

  lemma Frame(s: State, t: Tid, s': State)
    requires Inv(s) && t in s.threads && t in s'.threads
    requires s'.threads == s.threads[t := s'.threads[t]] && s'.threads[t].call == s.threads[t].call
    requires !s.threads[t].pc.Finished?
    requires forall p :: p in s.disk ==> p in s'.disk
    requires LedgerGrows(s.ledger, s'.ledger)
    requires OnlyOwn(s, s', s.threads[t])
    requires s'.posts == s.posts || (s.threads[t].pc.Send? && SentOne(s, s', s.threads[t].call))
    requires !s'.threads[t].pc.Finished? ==> ThreadInv(s', s'.threads[t])
    ensures Inv(s')
  {
  }

  lemma SaveKeepsInv(s: State, t: Tid, th: Thread, part: Part, step: SaveStep)
    requires Inv(s) && t in s.threads && th == s.threads[t] && th.pc == Save(part, step)
    ensures Inv(SaveTick(s, t, th, part, step))
  {
    assert ThreadInv(s, th);
    var s' := SaveTick(s, t, th, part, step);
    assert s'.posts == s.posts && s'.ledger == s.ledger;
    Frame(s, t, s');
  }

  lemma SendKeepsInv(s: State, t: Tid, th: Thread, reply: Reply)
    requires Inv(s) && t in s.threads && th == s.threads[t] && th.pc.Send?
    ensures Inv(SendTick(s, t, th, reply))
  {
  }

  lemma LedgerKeepsInv(s: State, t: Tid, th: Thread)
    requires Inv(s) && t in s.threads && th == s.threads[t] && (th.pc.InsertRow? || th.pc.UpdateRow?)
    ensures Inv(LedgerTick(s, t, th))
  {
    assert ThreadInv(s, th);
    var s' := LedgerTick(s, t, th);
    if th.pc.InsertRow? { assert s'.ledger[|s.ledger|] == Row(th.call.key.stage, th.call.payload, RowStarted); }
    Frame(s, t, s');
  }

  lemma LookKeepsInv(s: State, t: Tid, th: Thread)
    requires Inv(s) && t in s.threads && th == s.threads[t]
    requires th.pc in {SelectPrior, CheckPrior, Validate, CheckResponse, CheckStarted}
    ensures Inv(Finish(s, t, Look(s, th)))
  {
  }

  lemma ApplyKeepsInv(s: State, a: Action)
    requires Inv(s) && LedgerKept([a])
    requires a.Start? ==> a.call.reserved && Idle(s, a.call.key.stage, a.call.payload)
    ensures Inv(Apply(s, a))
  {
    assert [a][0] == a;
    match a
    case Tick(t, reply) =>
      if t in s.threads {
        var th := s.threads[t];
        match th.pc {
          case Save(part, step) => SaveKeepsInv(s, t, th, part, step);
          case Send => SendKeepsInv(s, t, th, reply);
          case InsertRow => LedgerKeepsInv(s, t, th);
          case UpdateRow(_) => LedgerKeepsInv(s, t, th);
          case Finished(_) =>
          case _ => LookKeepsInv(s, t, th);
        }
      }
    case Start(t, call) =>
    case Kill(_) =>
    case PowerLoss(_, _) =>
    case LoseFolder(_) =>
    case CopyFolder(_, _) =>
  }

  lemma {:induction false} ExecKeepsInv(s: State, run: seq<Action>)
    requires Inv(s) && LedgerKept(run) && Coordinated(s, run)
    ensures Inv(Exec(s, run))
  {
    if run != [] {
      var n := |run| - 1;
      assert forall i :: 0 <= i < n ==> run[..n][..i] == run[..i];
      ExecKeepsInv(s, run[..n]);
      ApplyKeepsInv(Exec(s, run[..n]), run[n]);
    }
  }

  /** Under the coordinator lock, over any restarts, power losses, lost and copied
      folders, each stage and request hash is sent at most once. */
  lemma {:induction false} LedgerAtMostOnce(boot: State, run: seq<Action>)
    requires Booted(boot) && LedgerKept(run) && Coordinated(boot, run)
    ensures OnePostPerRequest(Exec(boot, run))
  {
    ExecKeepsInv(boot, run);
  }
}
