/** What the file journal alone guarantees, for every schedule: at most one send per
    (folder, stage), and agreement on the receipt that comes back. */
module JournalSafety {
  import opened Common
  import opened DispatchProtocol

  /** A thread that created the request file of its key in this life of the machine. */
  predicate Owns(th: Thread) {
    th.pc.Send? || (th.pc.Save? && th.pc != Save(RequestFile, Create))
  }

  /** ... and has not sent yet. */
  predicate Unsent(th: Thread) {
    Owns(th) && (th.pc.Save? ==> th.pc.part == RequestFile || th.pc.part == StartedFile)
  }

  predicate Linked(disk: Disk, key: Key, part: Part) {
    Path(key, part) in disk && disk[Path(key, part)].linked
  }

  predicate SentFor(s: State, key: Key) {
    exists i :: 0 <= i < |s.posts| && s.posts[i].key == key
  }

  ghost predicate ThreadInv(s: State, th: Thread) {
    && (Owns(th) ==> PathOf(th, RequestFile) in s.disk)
    && (Unsent(th) ==> !SentFor(s, th.call.key))
    && (Owns(th) && !(th.pc.Save? && th.pc.part == RequestFile) ==> Linked(s.disk, th.call.key, RequestFile))
    && (th.pc.Save? && th.pc.part == StartedFile && th.pc.step != Create ==> PathOf(th, StartedFile) in s.disk)
    && (th.pc.Send? ==> Linked(s.disk, th.call.key, StartedFile))
  }

  predicate Rivals(a: Thread, b: Thread) {
    Owns(a) && Owns(b) && a.call.key == b.call.key
  }

  ghost predicate Inv(s: State) {
    && OnePostPerFolderStage(s)
    && (forall t :: t in s.threads ==> ThreadInv(s, s.threads[t]))
    && (forall t, u :: t in s.threads && u in s.threads && Rivals(s.threads[t], s.threads[u]) ==> t == u)
    && (forall i :: 0 <= i < |s.posts| ==>
          Linked(s.disk, s.posts[i].key, RequestFile) && Linked(s.disk, s.posts[i].key, StartedFile))
  }

  /** Files are neither removed nor unlinked while the machine stays up. */
  ghost predicate Grows(disk: Disk, disk': Disk) {
    forall p :: p in disk ==> p in disk' && (disk[p].linked ==> disk'[p].linked)
  }

  /** A step of thread `t` keeps the invariant when it leaves `t` itself consistent,
      takes ownership only by creating the request file, and sends only as owner. */
  lemma Frame(s: State, t: Tid, s': State)
    requires Inv(s) && t in s.threads && t in s'.threads
    requires s'.threads == s.threads[t := s'.threads[t]] && s'.threads[t].call == s.threads[t].call
    requires Grows(s.disk, s'.disk)
    requires
      || s'.posts == s.posts
      || (s.threads[t].pc.Send? && SentOne(s, s', s.threads[t].call))
    requires Owns(s'.threads[t]) ==> Owns(s.threads[t]) || PathOf(s.threads[t], RequestFile) !in s.disk
    requires ThreadInv(s', s'.threads[t])
    ensures Inv(s')
  {
  }

  lemma SaveKeepsInv(s: State, t: Tid, th: Thread, part: Part, step: SaveStep)
    requires Inv(s) && t in s.threads && th == s.threads[t] && th.pc == Save(part, step)
    ensures Inv(SaveTick(s, t, th, part, step))
  {
    assert ThreadInv(s, th);
    var s' := SaveTick(s, t, th, part, step);
    if step == Create && part == RequestFile && PathOf(th, part) !in s.disk {
      assert !SentFor(s, th.call.key) by {
        assert forall i :: 0 <= i < |s.posts| ==> Linked(s.disk, s.posts[i].key, RequestFile);
      }
    }
    assert s'.posts == s.posts;
    Frame(s, t, s');
  }

  lemma SendKeepsInv(s: State, t: Tid, th: Thread, reply: Reply)
    requires Inv(s) && t in s.threads && th == s.threads[t] && th.pc.Send?
    ensures Inv(SendTick(s, t, th, reply))
  {
  }

  /** Every other step leaves the disk and the history alone and cannot take ownership. */
  lemma PlainKeepsInv(s: State, t: Tid, th: Thread, reply: Reply)
    requires Inv(s) && t in s.threads && th == s.threads[t]
    requires !th.pc.Send? && !th.pc.Save?
    ensures Inv(TickThread(s, t, th, reply))
  {
    match th.pc
    case InsertRow =>
    case UpdateRow(_) =>
    case Finished(_) =>
    case _ =>
  }

  lemma TickKeepsInv(s: State, t: Tid, reply: Reply)
    requires Inv(s) && t in s.threads
    ensures Inv(Apply(s, Tick(t, reply)))
  {
    var th := s.threads[t];
    match th.pc
    case Save(part, step) => SaveKeepsInv(s, t, th, part, step);
    case Send => SendKeepsInv(s, t, th, reply);
    case _ => PlainKeepsInv(s, t, th, reply);
  }

  lemma ApplyKeepsInv(s: State, a: Action)
    requires Inv(s) && FoldersKept([a])
    ensures Inv(Apply(s, a))
  {
    assert [a][0] == a;
    match a
    case Tick(t, reply) => if t in s.threads { TickKeepsInv(s, t, reply); }
    case Start(t, call) =>
    case Kill(_) =>
    case PowerLoss(_, _) =>
    case LoseLedger =>
  }

  lemma {:induction false} ExecKeepsInv(s: State, run: seq<Action>)
    requires Inv(s) && FoldersKept(run)
    ensures Inv(Exec(s, run))
  {
    if run != [] {
      var init, last := run[..|run| - 1], run[|run| - 1];
      ExecKeepsInv(s, init);
      ApplyKeepsInv(Exec(s, init), last);
    }
  }

  /** Whatever evidence was on the disk, whatever happens to the ledger, and however
      threads interleave, die and lose power: one send per (folder, stage). */
  lemma {:induction false} JournalAtMostOnce(boot: State, run: seq<Action>)
    requires Booted(boot) && FoldersKept(run)
    ensures OnePostPerFolderStage(Exec(boot, run))
  {
    ExecKeepsInv(boot, run);
  }

  // ----- An unresolved attempt blocks its folder forever ------------------------------

  predicate Unresolved(s: State, key: Key) {
    && Linked(s.disk, key, RequestFile)
    && Path(key, ResponseFile) !in s.disk
    && (forall t :: t in s.threads && s.threads[t].call.key == key ==> Harmless(s.threads[t]))
  }

  /** A thread that neither owns its key nor carries a receipt. */
  predicate Harmless(th: Thread) {
    !Owns(th) && (th.pc.UpdateRow? ==> !th.pc.result.Returned?) && (th.pc.Finished? ==> !th.pc.outcome.Returned?)
  }

  predicate NothingNew(s: State, s': State, key: Key) {
    && s.posts <= s'.posts && s.handed <= s'.handed
    && (forall i :: |s.posts| <= i < |s'.posts| ==> s'.posts[i].key != key)
    && (forall i :: |s.handed| <= i < |s'.handed| ==> s'.handed[i].key != key)
  }

  /** All it can save is the request file, which is there. */
  lemma UnresolvedSave(s: State, t: Tid, th: Thread, part: Part, step: SaveStep)
    requires Unresolved(s, th.call.key) && t in s.threads && th == s.threads[t] && th.pc == Save(part, step)
    ensures SaveTick(s, t, th, part, step) == Finish(s, t, End(th, FileExists))
  {
  }

  /** A caller of the unresolved key gets nothing but an error. */
  lemma UnresolvedCaller(s: State, t: Tid, th: Thread, reply: Reply)
    requires Unresolved(s, th.call.key) && t in s.threads && th == s.threads[t]
    ensures
      var s' := TickThread(s, t, th, reply);
      Unresolved(s', th.call.key) && NothingNew(s, s', th.call.key)
  {
    hide SaveTick;
    match th.pc
    case Save(part, step) => UnresolvedSave(s, t, th, part, step);
    case Send =>
    case InsertRow =>
    case UpdateRow(_) =>
    case Finished(_) =>
    case _ =>
  }

  lemma UnresolvedOtherSave(s: State, key: Key, t: Tid, th: Thread, part: Part, step: SaveStep)
    requires Unresolved(s, key) && t in s.threads && th == s.threads[t] && th.call.key != key && th.pc == Save(part, step)
    ensures Unresolved(SaveTick(s, t, th, part, step), key) && NothingNew(s, SaveTick(s, t, th, part, step), key)
  {
  }

  lemma UnresolvedOther(s: State, key: Key, t: Tid, th: Thread, reply: Reply)
    requires Unresolved(s, key) && t in s.threads && th == s.threads[t] && th.call.key != key
    ensures
      var s' := TickThread(s, t, th, reply);
      Unresolved(s', key) && NothingNew(s, s', key)
  {
    match th.pc
    case Save(part, step) => UnresolvedOtherSave(s, key, t, th, part, step);
    case Send =>
    case InsertRow =>
    case UpdateRow(_) =>
    case Finished(_) =>
    case _ =>
  }

  lemma UnresolvedStays(s: State, key: Key, a: Action)
    requires Unresolved(s, key) && FoldersKept([a])
    ensures Unresolved(Apply(s, a), key) && NothingNew(s, Apply(s, a), key)
  {
    assert [a][0] == a;
    if a.Tick? && a.t in s.threads {
      if s.threads[a.t].call.key == key { UnresolvedCaller(s, a.t, s.threads[a.t], a.reply); }
      else { UnresolvedOther(s, key, a.t, s.threads[a.t], a.reply); }
    }
  }

  /** After a crash that leaves a request file without a response, no later schedule
      sends for that folder and stage or hands a receipt to any of its callers. */
  lemma {:induction false} UnresolvedNeverSends(s: State, key: Key, run: seq<Action>)
    requires Unresolved(s, key) && FoldersKept(run)
    ensures Unresolved(Exec(s, run), key) && NothingNew(s, Exec(s, run), key)
  {
    if run != [] {
      var init, last := run[..|run| - 1], run[|run| - 1];
      UnresolvedNeverSends(s, key, init);
      UnresolvedStays(Exec(s, init), key, last);
    }
  }

  // ----- Every caller gets the one recorded answer -------------------------------------

  predicate Answered(posts: seq<Post>, key: Key, r: Receipt) {
    exists i :: 0 <= i < |posts| && posts[i].key == key && posts[i].reply.Http?
                && r == Receipt(posts[i].payload, posts[i].reply.status, posts[i].reply.body)
  }

  predicate Usable(posts: seq<Post>, key: Key, payload: Payload, r: Receipt) {
    Answered(posts, key, r) && r.status == 200 && r.request == payload
  }

  predicate CarriesAnswer(posts: seq<Post>, th: Thread) {
    && (th.receipt.Some? ==> Answered(posts, th.call.key, th.receipt.value) && th.receipt.value.request == th.call.payload)
    && (th.pc.Save? && th.pc.part == ResponseFile ==> th.receipt.Some?)
    && (th.pc.UpdateRow? && th.pc.result.Returned? ==> Usable(posts, th.call.key, th.call.payload, th.pc.result.receipt))
    && (th.pc.Finished? && th.pc.outcome.Returned? ==> Usable(posts, th.call.key, th.call.payload, th.pc.outcome.receipt))
  }

  predicate StoredAnswer(posts: seq<Post>, p: Path, f: File) {
    p.part == ResponseFile && f.content.Some? ==> f.content.value.Saved? && Answered(posts, p.key, f.content.value.receipt)
  }

  ghost predicate AnswerInv(s: State) {
    && (forall p :: p in s.disk ==> StoredAnswer(s.posts, p, s.disk[p]))
    && (forall t :: t in s.threads ==> CarriesAnswer(s.posts, s.threads[t]))
    && (forall i :: 0 <= i < |s.handed| ==>
          Usable(s.posts, s.handed[i].key, s.handed[i].payload, s.handed[i].receipt))
  }

  lemma AnsweredStays(posts: seq<Post>, more: seq<Post>)
    ensures forall key, r :: Answered(posts, key, r) ==> Answered(posts + more, key, r)
  {
    forall key, r | Answered(posts, key, r) ensures Answered(posts + more, key, r) {
      var i :| 0 <= i < |posts| && posts[i].key == key && posts[i].reply.Http?
               && r == Receipt(posts[i].payload, posts[i].reply.status, posts[i].reply.body);
      assert (posts + more)[i] == posts[i];
    }
  }

  lemma SaveKeepsAnswers(s: State, t: Tid, th: Thread, part: Part, step: SaveStep)
    requires AnswerInv(s) && t in s.threads && th == s.threads[t] && th.pc == Save(part, step)
    ensures AnswerInv(SaveTick(s, t, th, part, step))
  {
  }

  lemma SendKeepsAnswers(s: State, t: Tid, th: Thread, reply: Reply)
    requires AnswerInv(s) && t in s.threads && th == s.threads[t] && th.pc.Send?
    ensures AnswerInv(SendTick(s, t, th, reply))
  {
    assert CarriesAnswer(s.posts, th);
    if !reply.Refused? {
      var post := Post(th.call.key, th.call.payload, reply);
      AnsweredStays(s.posts, [post]);
      assert (s.posts + [post])[|s.posts|] == post;
    }
  }

  lemma LookKeepsAnswers(s: State, t: Tid, th: Thread)
    requires AnswerInv(s) && t in s.threads && th == s.threads[t]
    requires th.pc in {SelectPrior, CheckPrior, Validate, CheckResponse, CheckStarted}
    ensures AnswerInv(Finish(s, t, Look(s, th)))
  {
  }

  lemma LedgerKeepsAnswers(s: State, t: Tid, th: Thread)
    requires AnswerInv(s) && t in s.threads && th == s.threads[t] && (th.pc.InsertRow? || th.pc.UpdateRow?)
    ensures AnswerInv(LedgerTick(s, t, th))
  {
  }

  lemma {:induction false} ExecKeepsAnswers(s: State, run: seq<Action>)
    requires AnswerInv(s) && FoldersKept(run)
    ensures AnswerInv(Exec(s, run))
  {
    if run != [] {
      var init, last := run[..|run| - 1], run[|run| - 1];
      ExecKeepsAnswers(s, init);
      var mid := Exec(s, init);
      if last.Tick? && last.t in mid.threads {
        var th := mid.threads[last.t];
        match th.pc {
          case Save(part, step) => SaveKeepsAnswers(mid, last.t, th, part, step);
          case Send => SendKeepsAnswers(mid, last.t, th, last.reply);
          case InsertRow => LedgerKeepsAnswers(mid, last.t, th);
          case UpdateRow(_) => LedgerKeepsAnswers(mid, last.t, th);
          case Finished(_) =>
          case _ => LookKeepsAnswers(mid, last.t, th);
        }
      }
    }
  }

  /** From an empty disk: every receipt ever handed out is a 200 answer to the caller's
      own payload, recorded from a send, and all callers of one (folder, stage) get the
      same receipt. */
  lemma {:induction false} CallersAgree(boot: State, run: seq<Action>, i: nat, j: nat)
    requires Booted(boot) && boot.disk == map[] && FoldersKept(run)
    requires i < |Exec(boot, run).handed| && j < |Exec(boot, run).handed|
    ensures
      var s := Exec(boot, run);
      && Usable(s.posts, s.handed[i].key, s.handed[i].payload, s.handed[i].receipt)
      && (s.handed[i].key == s.handed[j].key ==> s.handed[i] == s.handed[j])
  {
    ExecKeepsAnswers(boot, run);
    JournalAtMostOnce(boot, run);
  }
}
