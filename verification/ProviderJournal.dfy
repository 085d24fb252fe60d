/** The journal and the ledger call as the program runs them: statements over a file
    system, a ledger table and the network.  Each method carries a ghost copy of the
    dispatch machine and is proved to be one thread's schedule of it, so everything
    proved about schedules holds of these methods. */
module ProviderJournal {
  import opened Common
  import opened DispatchProtocol
  import opened Schedules

  class Host {
    var disk: Disk
    var ledger: seq<Row>
    var posts: seq<Post>
    ghost var world: State

    ghost predicate Valid()
      reads this
    {
      world.disk == disk && world.ledger == ledger && world.posts == posts
    }

    /** Advances the ghost machine by one step of thread `t`. */
    ghost method Step(t: Tid, reply: Reply, before: State)
      requires t in world.threads && Alone(before, world, t)
      modifies this`world
      ensures world == TickThread(old(world), t, old(world).threads[t], reply)
      ensures Alone(before, world, t)
    {
      OneTick(world, t, reply);
      AloneJoins(before, world, TickThread(world, t, world.threads[t], reply), t);
      world := TickThread(world, t, world.threads[t], reply);
    }

    /** One system call of an exclusive private_json whose path is not `ErrorFile`. */
    ghost method StepSave(t: Tid, part: Part, step: SaveStep, before: State)
      requires t in world.threads && world.threads[t].pc == Save(part, step) && part != ErrorFile
      requires PathOf(world.threads[t], part) in world.disk <==> step != Create
      requires Alone(before, world, t)
      modifies this`world
      ensures Alone(before, world, t)
      ensures world.ledger == old(world.ledger) && world.posts == old(world.posts) && t in world.threads
      ensures world.threads[t] == NextStep(old(world).threads[t], part, step)
      ensures world.disk == Saving(old(world).disk, old(world).threads[t], part, step)
    {
      Step(t, Refused, before);
    }

    /** Exclusive creation of a file that is already there raises. */
    ghost method StepExists(t: Tid, part: Part, before: State)
      requires t in world.threads && world.threads[t].pc == Save(part, Create) && part != ErrorFile
      requires PathOf(world.threads[t], part) in world.disk
      requires Alone(before, world, t)
      modifies this`world
      ensures Alone(before, world, t) && t in world.threads
      ensures world.ledger == old(world.ledger) && world.posts == old(world.posts) && world.disk == old(world.disk)
      ensures world.threads[t] == End(old(world).threads[t], FileExists)
    {
      Step(t, Refused, before);
    }

    /** The four system calls of a private_json that creates its file. */
    ghost method StepFour(t: Tid, part: Part, value: Content, before: State)
      requires t in world.threads && world.threads[t].pc == Save(part, Create) && part != ErrorFile
      requires PathOf(world.threads[t], part) !in world.disk && ValueOf(world.threads[t], part) == Some(value)
      requires Alone(before, world, t)
      modifies this`world
      ensures Alone(before, world, t) && t in world.threads
      ensures world.ledger == old(world.ledger) && world.posts == old(world.posts)
      ensures world.threads[t] == AfterSave(old(world).threads[t].(pc := Save(part, SyncDir)), part)
      ensures
        var p := PathOf(old(world).threads[t], part);
        world.disk == SyncFolder(old(world).disk[p := File(Some(value), true, false)], p.key.folder)
    {
      hide Exec, Alone, SyncFolder, AfterSave;
      var p := PathOf(world.threads[t], part);
      StepSave(t, part, Create, before);
      StepSave(t, part, Write, before);
      StepSave(t, part, SyncFile, before);
      assert world.disk == old(world).disk[p := File(Some(value), true, false)];
      StepSave(t, part, SyncDir, before);
    }

    /** private_json with exclusive creation; false when the file already exists. */
    method PrivateJson(path: Path, value: Content, ghost t: Tid, ghost before: State) returns (created: bool)
      requires Valid() && path.part != ErrorFile
      requires t in world.threads && world.threads[t].pc == Save(path.part, Create) && path.key == world.threads[t].call.key
      requires ValueOf(world.threads[t], path.part) == Some(value) && Alone(before, world, t)
      modifies this`disk, this`world
      ensures Valid() && Alone(before, world, t) && t in world.threads
      ensures created <==> path !in old(disk)
      ensures !created ==> disk == old(disk) && world.threads[t] == End(old(world).threads[t], FileExists)
      ensures created ==> disk == SyncFolder(old(disk)[path := File(Some(value), true, false)], path.key.folder)
      ensures created ==> world.threads[t] == AfterSave(old(world).threads[t].(pc := Save(path.part, SyncDir)), path.part)
    {
      hide Exec, Alone, End, SyncFolder, AfterSave;
      if path in disk {
        StepExists(t, path.part, before);
        return false;
      }
      ghost var start := disk;
      disk := disk[path := File(None, false, false)];
      disk := disk[path := disk[path].(content := Some(value))];
      disk := disk[path := disk[path].(synced := true)];
      assert disk == start[path := File(Some(value), true, false)];
      disk := SyncFolder(disk, path.key.folder);
      StepFour(t, path.part, value, before);
      created := true;
    }

    /** Any other step of the thread, which leaves the disk and the network alone. */
    ghost method StepLook(t: Tid, before: State)
      requires t in world.threads && Alone(before, world, t)
      requires world.threads[t].pc in {SelectPrior, CheckPrior, Validate, CheckResponse, CheckStarted}
      modifies this`world
      ensures Alone(before, world, t) && t in world.threads
      ensures world.ledger == old(world.ledger) && world.posts == old(world.posts) && world.disk == old(world.disk)
      ensures world.threads[t] == Look(old(world), old(world).threads[t])
    {
      Step(t, Refused, before);
    }

    ghost method StepSend(t: Tid, reply: Reply, before: State)
      requires t in world.threads && Alone(before, world, t) && world.threads[t].pc.Send?
      modifies this`world
      ensures Alone(before, world, t) && t in world.threads
      ensures world.ledger == old(world.ledger) && world.disk == old(world.disk)
      ensures world.posts == old(world.posts) + Sent(old(world).threads[t], reply)
      ensures world.threads[t] == AfterSend(old(world).threads[t], reply)
    {
      Step(t, reply, before);
    }

    ghost method StepNote(t: Tid, step: SaveStep, before: State)
      requires t in world.threads && world.threads[t].pc == Save(ErrorFile, step) && step != SyncFile
      requires Alone(before, world, t)
      modifies this`world
      ensures Alone(before, world, t) && t in world.threads
      ensures world.ledger == old(world.ledger) && world.posts == old(world.posts)
      ensures
        var th := old(world).threads[t];
        var p := PathOf(th, ErrorFile);
        match step
        case Create => world.disk == old(world.disk) && world.threads[t] == th.(pc := Save(ErrorFile, Write))
        case Write =>
          && world.threads[t] == th.(pc := Save(ErrorFile, SyncDir))
          && world.disk == old(world.disk)[p := File(Some(ErrorNote(th.call.payload)), true,
                                                     p in old(world.disk) && old(world.disk)[p].linked)]
        case _ => world.disk == SyncFolder(old(world.disk), th.call.key.folder) && world.threads[t] == End(th, Blocked)
    {
      Step(t, Refused, before);
    }

    /** The error note is replaced atomically from a synced temporary. */
    method ReplaceErrorNote(path: Path, request: Payload, ghost t: Tid, ghost before: State)
      requires Valid() && t in world.threads && world.threads[t].pc == Save(ErrorFile, Create)
      requires path == PathOf(world.threads[t], ErrorFile) && request == world.threads[t].call.payload
      requires Alone(before, world, t)
      modifies this`disk, this`world
      ensures Valid() && Alone(before, world, t) && t in world.threads
      ensures disk == SyncFolder(old(disk)[path := File(Some(ErrorNote(request)), true, path in old(disk) && old(disk)[path].linked)],
                                 path.key.folder)
      ensures world.threads[t] == End(old(world).threads[t].(pc := Save(ErrorFile, SyncDir)), Blocked)
    {
      hide Exec;
      StepNote(t, Create, before);
      disk := disk[path := File(Some(ErrorNote(request)), true, path in disk && disk[path].linked)];
      StepNote(t, Write, before);
      disk := SyncFolder(disk, path.key.folder);
      StepNote(t, SyncDir, before);
    }

    /** The checks of dispatch_once before it writes anything: Some when it is over. */
    method EarlierOutcome(call: Call, ghost t: Tid, ghost before: State) returns (out: Option<Outcome>)
      requires Valid() && t in world.threads && world.threads[t].call == call
      requires world.threads[t].pc.Validate? && Alone(before, world, t)
      modifies this`world
      ensures Valid() && Alone(before, world, t) && t in world.threads
      ensures out.None? <==> Authorized(call) && Path(call.key, ResponseFile) !in disk && Path(call.key, StartedFile) !in disk
      ensures out.None? ==> world.threads[t] == old(world).threads[t].(pc := Save(RequestFile, Create))
      ensures out.Some? ==> world.threads[t] == End(old(world).threads[t], out.value)
      ensures out.Some? && out.value.Returned? ==>
                && Path(call.key, ResponseFile) in disk
                && disk[Path(call.key, ResponseFile)].content == Some(Saved(out.value.receipt))
                && out.value.receipt.request == call.payload && out.value.receipt.status == 200
      ensures
        var rightly := call.hasApiKey && if call.key.stage == Jev then call.endpoint == SystemOne && call.header == Authorization
                                         else call.endpoint in {GemmaGenerate, FlashGenerate} && call.header == GoogleApiKey;
        var response, started := Path(call.key, ResponseFile), Path(call.key, StartedFile);
        && (!rightly ==> out == Some(BadArguments))
        && (rightly && response in disk ==> out == Some(Stored(disk[response].content, call.payload)))
        && (rightly && response !in disk && started in disk ==> out == Some(Blocked))
        && (rightly && response !in disk && started !in disk ==> out == None)
    {
      hide Exec;
      var response := Path(call.key, ResponseFile);
      StepLook(t, before);
      if !Authorized(call) { return Some(BadArguments); }
      StepLook(t, before);
      if response in disk {
        match disk[response].content {
          case Some(Saved(saved)) =>
            return Some(if saved.request != call.payload || saved.status != 200 then Blocked else Returned(saved));
          case _ => return Some(Corrupt);
        }
      }
      StepLook(t, before);
      return if Path(call.key, StartedFile) in disk then Some(Blocked) else None;
    }

    /** The send itself and the durable record of its outcome. */
    method SendAndRecord(call: Call, reply: Reply, ghost t: Tid, ghost before: State) returns (out: Outcome)
      requires Valid() && t in world.threads && world.threads[t].call == call
      requires world.threads[t].pc.Send? && Alone(before, world, t)
      requires Path(call.key, ResponseFile) !in disk
      modifies this`disk, this`posts, this`world
      ensures Valid() && Alone(before, world, t) && t in world.threads && world.threads[t].call == call
      ensures world.threads[t].event == old(world).threads[t].event
      ensures world.threads[t].pc == if call.reserved then UpdateRow(out) else Finished(out)
      ensures posts == old(posts) + if reply.Refused? then [] else [Post(call.key, call.payload, reply)]
      ensures out == if reply.Http? && reply.status == 200 then Returned(Receipt(call.payload, 200, reply.body)) else Blocked
      ensures reply.Http? ==>
                && Path(call.key, ResponseFile) in disk
                && disk[Path(call.key, ResponseFile)] == File(Some(Saved(Receipt(call.payload, reply.status, reply.body))), true, true)
    {
      hide Exec;
      StepSend(t, reply, before);
      match reply {
        case Refused => return Blocked;
        case TransportFailure =>
          posts := posts + [Post(call.key, call.payload, reply)];
          ReplaceErrorNote(Path(call.key, ErrorFile), call.payload, t, before);
          return Blocked;
        case Http(status, body) =>
          posts := posts + [Post(call.key, call.payload, reply)];
          var saved := Receipt(call.payload, status, body);
          var created := PrivateJson(Path(call.key, ResponseFile), Saved(saved), t, before);
          return if status != 200 then Blocked else Returned(saved);
      }
    }

    /** dispatch_once.  `reply` is what the network would answer if asked. */
    method DispatchOnce(call: Call, reply: Reply, ghost t: Tid) returns (out: Outcome)
      requires Valid() && t in world.threads && world.threads[t].call == call && world.threads[t].pc.Validate?
      modifies this`disk, this`posts, this`world
      ensures Valid() && Alone(old(world), world, t) && t in world.threads && world.threads[t].call == call
      ensures world.threads[t].event == old(world).threads[t].event
      ensures world.threads[t].pc == if call.reserved then UpdateRow(out) else Finished(out)
      ensures posts == old(posts) + if Authorized(call) && Untouched(old(disk), call.key) && !reply.Refused?
                                    then [Post(call.key, call.payload, reply)] else []
      ensures out.Returned? ==>
                && Path(call.key, ResponseFile) in disk
                && disk[Path(call.key, ResponseFile)].content == Some(Saved(out.receipt))
                && out.receipt.request == call.payload && out.receipt.status == 200
      ensures
        var rightly := call.hasApiKey && if call.key.stage == Jev then call.endpoint == SystemOne && call.header == Authorization
                                         else call.endpoint in {GemmaGenerate, FlashGenerate} && call.header == GoogleApiKey;
        var request, started, response := Path(call.key, RequestFile), Path(call.key, StartedFile), Path(call.key, ResponseFile);
        && (!rightly ==> out == BadArguments && posts == old(posts) && disk == old(disk))
        && (rightly && response in old(disk) ==>
              out == Stored(old(disk)[response].content, call.payload) && posts == old(posts) && disk == old(disk))
        && (rightly && response !in old(disk) && started in old(disk) ==> out == Blocked && posts == old(posts) && disk == old(disk))
        && (rightly && response !in old(disk) && started !in old(disk) && request in old(disk) ==>
              out == FileExists && posts == old(posts) && disk == old(disk))
        && (rightly && response !in old(disk) && started !in old(disk) && request !in old(disk) ==>
              && posts == old(posts) + (if reply.Refused? then [] else [Post(call.key, call.payload, reply)])
              && out == if reply.Http? && reply.status == 200 then Returned(Receipt(call.payload, 200, reply.body)) else Blocked)
      ensures out.Returned? && posts == old(posts) ==> disk == old(disk)
      ensures Authorized(call) && Untouched(old(disk), call.key) && reply.Http? && reply.status == 200 ==>
                out == Returned(Receipt(call.payload, 200, reply.body))
    {
      hide Exec;
      ghost var before := world;
      NoTick(world, t);
      var earlier := EarlierOutcome(call, t, before);
      if earlier.Some? { return earlier.value; }
      var created := PrivateJson(Path(call.key, RequestFile), PayloadText(call.payload), t, before);
      if !created { return FileExists; }
      created := PrivateJson(Path(call.key, StartedFile), StartedMark(call.payload), t, before);
      out := SendAndRecord(call, reply, t, before);
    }

    ghost method StepLedger(t: Tid, before: State)
      requires t in world.threads && Alone(before, world, t)
      requires world.threads[t].pc.InsertRow? || world.threads[t].pc.UpdateRow?
      modifies this`world
      ensures Alone(before, world, t) && t in world.threads
      ensures world.posts == old(world.posts) && world.disk == old(world.disk)
      ensures world == LedgerTick(old(world), t, old(world).threads[t])
    {
      Step(t, Refused, before);
    }

    /** The SELECT, the replay check and the INSERT that precede the journal. */
    method ClaimRow(call: Call, ghost t: Tid, ghost before: State) returns (event: Option<nat>)
      requires Valid() && t in world.threads && world.threads[t] == Thread(call, SelectPrior, None, None, false)
      requires Alone(before, world, t)
      modifies this`ledger, this`world
      ensures Valid() && Alone(before, world, t) && t in world.threads && world.threads[t].call == call
      ensures event.None? <==> LatestRow(old(ledger), call.key.stage, call.payload).Some? && Path(call.key, ResponseFile) !in disk
      ensures event.None? ==> ledger == old(ledger) && world.threads[t].pc == Finished(Blocked)
      ensures event.Some? ==> world.threads[t].pc.Validate? && world.threads[t].event == event && event.value < |ledger|
      ensures event.Some? ==>
                if LatestRow(old(ledger), call.key.stage, call.payload).Some? then ledger == old(ledger)
                else ledger == old(ledger) + [Row(call.key.stage, call.payload, RowStarted)] && event.value == |old(ledger)|
    {
      hide Exec;
      var prior := LatestRow(ledger, call.key.stage, call.payload);
      StepLook(t, before);
      if prior.Some? {
        StepLook(t, before);
        return if Path(call.key, ResponseFile) in disk then prior else None;
      }
      ledger := ledger + [Row(call.key.stage, call.payload, RowStarted)];
      StepLedger(t, before);
      return Some(|ledger| - 1);
    }

    /** reserved_dispatch. */
    method ReservedDispatch(call: Call, reply: Reply, ghost t: Tid) returns (out: Outcome)
      requires Valid() && call.reserved && t in world.threads
      requires world.threads[t] == Thread(call, SelectPrior, None, None, false)
      modifies this`disk, this`ledger, this`posts, this`world
      ensures Valid() && Alone(old(world), world, t)
      ensures t in world.threads && world.threads[t].pc == Finished(out)
      ensures
        var known := LatestRow(old(ledger), call.key.stage, call.payload).Some?;
        && posts == old(posts) + (if !known && Authorized(call) && Untouched(old(disk), call.key) && !reply.Refused?
                                  then [Post(call.key, call.payload, reply)] else [])
        && (known ==> |ledger| == |old(ledger)|)
        && (!known ==> |ledger| == |old(ledger)| + 1
                       && ledger == old(ledger) + [Row(call.key.stage, call.payload, if out.Returned? then RowOk else RowFailed)])
      ensures out.Returned? ==>
                && Path(call.key, ResponseFile) in disk
                && disk[Path(call.key, ResponseFile)].content == Some(Saved(out.receipt))
                && out.receipt.request == call.payload && out.receipt.status == 200
      ensures
        var rightly := call.hasApiKey && if call.key.stage == Jev then call.endpoint == SystemOne && call.header == Authorization
                                         else call.endpoint in {GemmaGenerate, FlashGenerate} && call.header == GoogleApiKey;
        var known := LatestRow(old(ledger), call.key.stage, call.payload).Some?;
        var request, started, response := Path(call.key, RequestFile), Path(call.key, StartedFile), Path(call.key, ResponseFile);
        && (known && response !in old(disk) ==> out == Blocked && posts == old(posts))
        && (!rightly && !(known && response !in old(disk)) ==> out == BadArguments && posts == old(posts))
        && (rightly && response in old(disk) ==> out == Stored(old(disk)[response].content, call.payload) && posts == old(posts))
        && (rightly && !known && response !in old(disk) && started in old(disk) ==> out == Blocked && posts == old(posts))
        && (rightly && !known && response !in old(disk) && started !in old(disk) && request in old(disk) ==>
              out == FileExists && posts == old(posts))
        && (rightly && !known && response !in old(disk) && started !in old(disk) && request !in old(disk) ==>
              && posts == old(posts) + (if reply.Refused? then [] else [Post(call.key, call.payload, reply)])
              && out == if reply.Http? && reply.status == 200 then Returned(Receipt(call.payload, 200, reply.body)) else Blocked)
    {
      hide Exec;
      ghost var before := world;
      NoTick(world, t);
      var event := ClaimRow(call, t, before);
      if event.None? { return Blocked; }
      ghost var mid := world;
      out := DispatchOnce(call, reply, t);
      AloneJoins(before, mid, world, t);
      ledger := ledger[event.value := ledger[event.value].(status := if out.Returned? then RowOk else RowFailed)];
      StepLedger(t, before);
    }
  }

  /** What a stored response answers to a request. */
  function Stored(content: Option<Content>, payload: Payload): (out: Outcome)
    ensures out.Returned? <==> content.Some? && content.value.Saved?
                               && content.value.receipt == Receipt(payload, 200, content.value.receipt.body)
    ensures out.Returned? ==> content == Some(Saved(out.receipt))
    ensures out == Corrupt <==> content.None? || !content.value.Saved?
    ensures out.Returned? || out == Corrupt || out == Blocked
  {
    if content.None? || !content.value.Saved? then Corrupt
    else if content.value.receipt.request != payload || content.value.receipt.status != 200 then Blocked
    else Returned(content.value.receipt)
  }

  function Sent(th: Thread, reply: Reply): seq<Post> {
    if reply.Refused? then [] else [Post(th.call.key, th.call.payload, reply)]
  }

  function AfterSend(th: Thread, reply: Reply): Thread {
    match reply
    case Refused => End(th, Blocked)
    case Http(status, body) => th.(pc := Save(ResponseFile, Create), receipt := Some(Receipt(th.call.payload, status, body)))
    case TransportFailure => th.(pc := Save(ErrorFile, Create))
  }

  function Saving(disk: Disk, th: Thread, part: Part, step: SaveStep): Disk
    requires step == Write || step == SyncFile ==> PathOf(th, part) in disk
  {
    var p := PathOf(th, part);
    match step
    case Create => disk[p := File(None, false, false)]
    case Write => disk[p := disk[p].(content := ValueOf(th, part))]
    case SyncFile => disk[p := disk[p].(synced := true)]
    case SyncDir => SyncFolder(disk, th.call.key.folder)
  }
}
