/** The dispatch machine meets the contract the transport relies on: however far one call
    of the journal gets, and whether its process ends normally, is killed or loses power,
    what it leaves in its folder is a `JournalAttempt`. */
module JournalCalls {
  import opened Common
  import opened DispatchProtocol
  import opened Schedules
  import JevTransport

  function View(disk: Disk, key: Key): JevTransport.Files {
    map part: Part | Path(key, part) in disk :: disk[Path(key, part)].content
  }

  /** Everything on the disk survives a power loss. */
  predicate Settled(disk: Disk) {
    forall p :: p in disk ==> disk[p].synced && disk[p].linked
  }

  predicate Solid(disk: Disk, p: Path, value: Content) {
    p in disk && disk[p] == File(Some(value), true, true)
  }

  /** How much of one file an exclusive private_json has written. */
  predicate Written(disk: Disk, p: Path, value: Content, step: SaveStep) {
    match step
    case Create => p !in disk
    case Write => p in disk && disk[p].content == None && !disk[p].synced
    case SyncFile => p in disk && disk[p].content == Some(value)
    case SyncDir => p in disk && disk[p].content == Some(value) && disk[p].synced
  }

  predicate NewSend(s: State, s': State, call: Call) {
    |s'.posts| == |s.posts| + 1 && s'.posts[|s.posts|].key == call.key && s'.posts[|s.posts|].payload == call.payload
  }

  predicate Old(disk: Disk, key: Key, part: Part) { Path(key, part) in disk }

  /** What the caller's progress says about its three files and its send. */
  ghost predicate Progress(s: State, s': State, th: Thread) {
    var key, call := th.call.key, th.call;
    var request, started, response := Path(key, RequestFile), Path(key, StartedFile), Path(key, ResponseFile);
    var clean := !Old(s.disk, key, RequestFile) && !Old(s.disk, key, StartedFile) && !Old(s.disk, key, ResponseFile);
    match th.pc
    case Save(RequestFile, step) =>
      && s'.posts == s.posts
      && started !in s'.disk && response !in s'.disk
      && (step == Create ==> Same(s.disk, s'.disk, key))
      && (step != Create ==> clean && Written(s'.disk, request, PayloadText(call.payload), step))
    case Save(StartedFile, step) =>
      && s'.posts == s.posts && clean && Solid(s'.disk, request, PayloadText(call.payload)) && response !in s'.disk
      && Written(s'.disk, started, StartedMark(call.payload), step)
    case Send => s'.posts == s.posts && clean && BothSolid(s'.disk, call) && response !in s'.disk
    case Save(ResponseFile, step) =>
      && NewSend(s, s', call) && clean && BothSolid(s'.disk, call) && s'.posts[|s.posts|].reply.Http?
      && th.receipt == Some(Receipt(call.payload, s'.posts[|s.posts|].reply.status, s'.posts[|s.posts|].reply.body))
      && Written(s'.disk, response, Saved(th.receipt.value), step)
    case Save(ErrorFile, _) => NewSend(s, s', call) && clean && BothSolid(s'.disk, call) && response !in s'.disk
    case UpdateRow(out) => Over(s, s', call, out)
    case Finished(out) => Over(s, s', call, out)
    case CheckStarted => s'.posts == s.posts && Same(s.disk, s'.disk, key) && !Old(s.disk, key, ResponseFile)
    case _ => s'.posts == s.posts && Same(s.disk, s'.disk, key)
  }

  predicate Same(disk: Disk, disk': Disk, key: Key) {
    forall part :: (Path(key, part) in disk <==> Path(key, part) in disk')
  }

  predicate BothSolid(disk: Disk, call: Call) {
    Solid(disk, Path(call.key, RequestFile), PayloadText(call.payload)) && Solid(disk, Path(call.key, StartedFile), StartedMark(call.payload))
  }

  predicate Recorded(disk: Disk, call: Call, reply: Reply) {
    reply.Http? && Solid(disk, Path(call.key, ResponseFile), Saved(Receipt(call.payload, reply.status, reply.body)))
  }

  /** The state in which a call has ended. */
  ghost predicate Over(s: State, s': State, call: Call, out: Outcome) {
    var request, started, response := Path(call.key, RequestFile), Path(call.key, StartedFile), Path(call.key, ResponseFile);
    var clean := !Old(s.disk, call.key, RequestFile) && !Old(s.disk, call.key, StartedFile) && !Old(s.disk, call.key, ResponseFile);
    && (s'.posts == s.posts || (NewSend(s, s', call) && clean))
    && (s'.posts == s.posts ==> Same(s.disk, s'.disk, call.key) || (clean && BothSolid(s'.disk, call) && response !in s'.disk))
    && (s'.posts != s.posts ==> BothSolid(s'.disk, call) && (response in s'.disk ==> Recorded(s'.disk, call, s'.posts[|s.posts|].reply)))
    && (out.Returned? ==> Solid(s'.disk, response, Saved(out.receipt)) && out.receipt.request == call.payload && out.receipt.status == 200)
  }

  /** Nothing that was in the folder is touched, except that the error note is replaced. */
  predicate Kept(disk: Disk, disk': Disk, key: Key) {
    forall part :: Path(key, part) in disk ==>
                     Path(key, part) in disk'
                     && (if part == ErrorFile then disk'[Path(key, part)].linked else disk'[Path(key, part)] == disk[Path(key, part)])
  }

  ghost predicate Inv(s: State, s': State, t: Tid) {
    && t in s.threads && t in s'.threads && s'.threads[t].call == s.threads[t].call
    && Kept(s.disk, s'.disk, s'.threads[t].call.key)
    && Progress(s, s', s'.threads[t])
  }

  /** No save step touches what was in the folder. */
  lemma SaveKeepsDisk(s: State, s': State, t: Tid, part: Part, step: SaveStep)
    requires Settled(s.disk) && Inv(s, s', t) && s'.threads[t].pc == Save(part, step)
    ensures
      var s'' := SaveTick(s', t, s'.threads[t], part, step);
      t in s''.threads && s''.threads[t].call == s.threads[t].call && Kept(s.disk, s''.disk, s.threads[t].call.key)
  {
  }

  /** A file that is created, or found and refused. */
  lemma CreateKeeps(s: State, s': State, t: Tid, part: Part, step: SaveStep)
    requires Settled(s.disk) && Inv(s, s', t) && s'.threads[t].pc == Save(part, step) && step == Create
    ensures
      var s'' := SaveTick(s', t, s'.threads[t], part, step);
      t in s''.threads && Progress(s, s'', s''.threads[t])
  {
  }

  /** A file that gets its bytes and its fsync. */
  lemma WriteKeeps(s: State, s': State, t: Tid, part: Part, step: SaveStep)
    requires Settled(s.disk) && Inv(s, s', t) && s'.threads[t].pc == Save(part, step) && (step == Write || step == SyncFile)
    ensures
      var s'' := SaveTick(s', t, s'.threads[t], part, step);
      t in s''.threads && Progress(s, s'', s''.threads[t])
  {
  }

  /** The folder is synced and the thread moves on. */
  lemma SyncDirKeeps(s: State, s': State, t: Tid, part: Part, step: SaveStep)
    requires Settled(s.disk) && Inv(s, s', t) && s'.threads[t].pc == Save(part, step) && step == SyncDir
    ensures
      var s'' := SaveTick(s', t, s'.threads[t], part, step);
      t in s''.threads && Progress(s, s'', s''.threads[t])
  {
  }

  lemma SaveKeeps(s: State, s': State, t: Tid, part: Part, step: SaveStep)
    requires Settled(s.disk) && Inv(s, s', t) && s'.threads[t].pc == Save(part, step)
    ensures Inv(s, SaveTick(s', t, s'.threads[t], part, step), t)
  {
    SaveKeepsDisk(s, s', t, part, step);
    hide SaveTick, Kept, Progress;
    match step
    case Create => CreateKeeps(s, s', t, part, step);
    case SyncDir => SyncDirKeeps(s, s', t, part, step);
    case _ => WriteKeeps(s, s', t, part, step);
  }

  lemma LookKeeps(s: State, s': State, t: Tid)
    requires Settled(s.disk) && Inv(s, s', t)
    requires s'.threads[t].pc in {SelectPrior, CheckPrior, Validate, CheckResponse, CheckStarted}
    ensures Inv(s, Finish(s', t, Look(s', s'.threads[t])), t)
  {
  }

  lemma TickKeeps(s: State, s': State, t: Tid, reply: Reply)
    requires Settled(s.disk) && Inv(s, s', t)
    ensures Inv(s, TickThread(s', t, s'.threads[t], reply), t)
  {
    match s'.threads[t].pc
    case Save(part, step) => SaveKeeps(s, s', t, part, step);
    case Send =>
    case InsertRow =>
    case UpdateRow(_) =>
    case Finished(_) =>
    case _ => LookKeeps(s, s', t);
  }

  /** The thread has just been started, with or without the ledger in front. */
  predicate AtStart(s: State, t: Tid) {
    t in s.threads && (s.threads[t].pc.SelectPrior? || s.threads[t].pc.Validate?)
  }

  lemma {:induction false} TicksKeep(s: State, t: Tid, run: seq<Action>)
    requires Settled(s.disk) && AtStart(s, t) && OnlyTicks(run, t)
    ensures Inv(s, Exec(s, run), t)
  {
    if run != [] {
      var n := |run| - 1;
      TicksKeep(s, t, run[..n]);
      TickKeeps(s, Exec(s, run[..n]), t, run[n].reply);
    }
  }

  datatype Ending = Lived | Killed | LostPower(lost: set<Path>, torn: set<Path>)

  function DiskAfter(s': State, e: Ending): Disk {
    if e.LostPower? then Reboot(s'.disk, e.lost, e.torn) else s'.disk
  }

  /** What the caller and the folder are left with. */
  function AttemptOf(s: State, s': State, t: Tid, e: Ending): JevTransport.Attempt
    requires t in s'.threads
  {
    var th := s'.threads[t];
    JevTransport.Attempt(
      View(DiskAfter(s', e), th.call.key),
      if |s'.posts| > |s.posts| then Some(s'.posts[|s.posts|].reply) else None,
      if !e.Lived? then None
      else if th.pc.UpdateRow? then Some(th.pc.result)
      else if th.pc.Finished? then Some(th.pc.outcome)
      else None)
  }

  /** What a finished, killed or powered-off call still has of the files it found. */
  lemma OldFilesStay(s: State, s': State, t: Tid, e: Ending)
    requires Settled(s.disk) && Inv(s, s', t)
    ensures
      var key := s.threads[t].call.key;
      forall part :: Path(key, part) in s.disk ==>
        Path(key, part) in DiskAfter(s', e)
        && (part != ErrorFile ==> DiskAfter(s', e)[Path(key, part)].content == s.disk[Path(key, part)].content)
  {
  }

  /** What the call leaves when the machine stays up. */
  lemma LivingWrites(s: State, s': State, t: Tid, e: Ending)
    requires Settled(s.disk) && Inv(s, s', t) && !e.LostPower?
    ensures JevTransport.WritesOwnFiles(View(s.disk, s.threads[t].call.key), s.threads[t].call.payload, AttemptOf(s, s', t, e))
  {
    hide Settled, Kept, Reboot;
  }

  /** What the power loss leaves of it. */
  lemma DarkWrites(s: State, s': State, t: Tid, e: Ending)
    requires Settled(s.disk) && Inv(s, s', t) && e.LostPower?
    ensures JevTransport.WritesOwnFiles(View(s.disk, s.threads[t].call.key), s.threads[t].call.payload, AttemptOf(s, s', t, e))
  {
    hide Settled, Kept;
  }

  lemma EndingWrites(s: State, s': State, t: Tid, e: Ending)
    requires Settled(s.disk) && Inv(s, s', t)
    ensures JevTransport.WritesOwnFiles(View(s.disk, s.threads[t].call.key), s.threads[t].call.payload, AttemptOf(s, s', t, e))
  {
    if e.LostPower? { DarkWrites(s, s', t, e); } else { LivingWrites(s, s', t, e); }
  }

  lemma EndingSends(s: State, s': State, t: Tid, e: Ending)
    requires Settled(s.disk) && Inv(s, s', t)
    ensures JevTransport.SendsOnce(View(s.disk, s.threads[t].call.key), s.threads[t].call.payload, AttemptOf(s, s', t, e))
  {
  }

  lemma EndingIsAttempt(s: State, s': State, t: Tid, e: Ending)
    requires Settled(s.disk) && Inv(s, s', t)
    ensures JevTransport.JournalAttempt(View(s.disk, s.threads[t].call.key), s.threads[t].call.payload, AttemptOf(s, s', t, e))
  {
    hide Settled, Progress, JevTransport.WritesOwnFiles, JevTransport.SendsOnce;
    EndingWrites(s, s', t, e);
    EndingSends(s, s', t, e);
    OldFilesStay(s, s', t, e);
  }

  /** One thread's call, of the journal alone or through the ledger, run any number of steps on
      a settled disk and ended in any way. */
  lemma CallIsAttempt(s: State, t: Tid, run: seq<Action>, e: Ending)
    requires Settled(s.disk) && AtStart(s, t) && OnlyTicks(run, t)
    ensures t in Exec(s, run).threads
    ensures JevTransport.JournalAttempt(View(s.disk, s.threads[t].call.key), s.threads[t].call.payload,
                                        AttemptOf(s, Exec(s, run), t, e))
    ensures
      var th, a := Exec(s, run).threads[t], AttemptOf(s, Exec(s, run), t, e);
      && (e == Lived && th.pc.Finished? ==> a.out == Some(th.pc.outcome))
      && (e == Lived && th.pc.UpdateRow? ==> a.out == Some(th.pc.result))
      && (e != Lived ==> a.out == None)
      && (a.sent.Some? <==> |Exec(s, run).posts| > |s.posts|)
  {
    TicksKeep(s, t, run);
    EndingIsAttempt(s, Exec(s, run), t, e);
  }
}
