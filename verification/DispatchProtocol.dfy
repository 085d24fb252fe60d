/** The paid-request protocol: the one-shot file journal of
    scripts/match_provider_journal.py under the PostgreSQL stage ledger of
    scripts/run_dinaut_three_dot_matches.py, as a machine whose actions are
    single system calls of any number of threads, process deaths, power losses
    and operator damage to either store.

    SHA-256 of a canonical JSON text is injective on payloads and receipts, so a stored
    digest is modelled by the value it digests. */
module DispatchProtocol {
  import opened Common

  // ----- Calls and evidence -----------------------------------------------------

  datatype Stage = Jev | Gemma

  type Folder = string

  /** A provider request.  The scoring requests carry a model, a state and questions;
      the state is a JSON object or, in the compact form, that object's text. */
  datatype Payload =
    | ObjectState(model: string, state: string, questions: string)
    | TextState(model: string, state: string, questions: string)
    | Text(canonical: string)

  datatype Key = Key(folder: Folder, stage: Stage)

  /** The three provider endpoints the journal knows, and any other text. */
  datatype Endpoint =
    | SystemOne        // https://api.typesafe.ai/v1/systemone
    | GemmaGenerate    // .../v1beta/models/gemma-4-31b-it:generateContent
    | FlashGenerate    // .../v1beta/models/gemini-3.1-flash-lite:generateContent
    | Elsewhere(url: string)

  datatype Header = Authorization | GoogleApiKey | OtherHeader(name: string)

  /** `reserved` calls go through the ledger; others call the journal directly. */
  datatype Call = Call(reserved: bool, key: Key, payload: Payload,
                       endpoint: Endpoint, hasApiKey: bool, header: Header)

  datatype Reply =
    | Http(status: int, body: string)
    | TransportFailure     // requests.RequestException: perhaps sent
    | Refused              // the post wrapper raised before sending

  datatype Receipt = Receipt(request: Payload, status: int, body: string)

  datatype Outcome =
    | Returned(receipt: Receipt)
    | Blocked
    | FileExists
    | Corrupt
    | BadArguments

  predicate Authorized(c: Call) {
    && c.hasApiKey
    && match c.key.stage
       case Jev => c.endpoint == SystemOne && c.header == Authorization
       case Gemma => (c.endpoint == GemmaGenerate || c.endpoint == FlashGenerate) && c.header == GoogleApiKey
  }

  // ----- Durable state -----------------------------------------------------------

  datatype Part = RequestFile | StartedFile | ResponseFile | ErrorFile

  datatype Path = Path(key: Key, part: Part)

  datatype Content =
    | PayloadText(payload: Payload)
    | StartedMark(request: Payload)
    | Saved(receipt: Receipt)
    | ErrorNote(request: Payload)

  /** `content` is None while the file is empty or torn; `synced` says its bytes
      reached the disk, `linked` that its directory entry did. */
  datatype File = File(content: Option<Content>, synced: bool, linked: bool)

  type Disk = map<Path, File>

  datatype RowStatus = RowStarted | RowOk | RowFailed

  datatype Row = Row(stage: Stage, payload: Payload, status: RowStatus)

  // ----- Threads -----------------------------------------------------------------

  datatype SaveStep = Create | Write | SyncFile | SyncDir

  datatype PC =
    | SelectPrior
    | CheckPrior
    | InsertRow
    | Validate
    | CheckResponse
    | CheckStarted
    | Save(part: Part, step: SaveStep)
    | Send
    | UpdateRow(result: Outcome)
    | Finished(outcome: Outcome)

  datatype Thread = Thread(call: Call, pc: PC, receipt: Option<Receipt>, event: Option<nat>, inserted: bool)

  type Tid = nat

  /** `posts` and `handed` are histories: every HTTP send and every receipt
      handed back to a caller. */
  datatype Post = Post(key: Key, payload: Payload, reply: Reply)

  datatype Return = Return(key: Key, payload: Payload, receipt: Receipt)

  datatype State = State(
    disk: Disk,
    ledger: seq<Row>,
    threads: map<Tid, Thread>,
    posts: seq<Post>,
    handed: seq<Return>)

  datatype Action =
    | Start(t: Tid, call: Call)
    | Tick(t: Tid, reply: Reply)
    | Kill(dead: set<Tid>)
    | PowerLoss(lost: set<Path>, torn: set<Path>)
    | LoseFolder(folder: Folder)
    | CopyFolder(source: Folder, target: Folder)
    | LoseLedger

  // ----- One step ----------------------------------------------------------------

  function PathOf(th: Thread, part: Part): Path { Path(th.call.key, part) }

  /** The newest ledger row of a stage and request hash. */
  function LatestRow(ledger: seq<Row>, stage: Stage, payload: Payload): (r: Option<nat>)
    ensures r.Some? ==> r.value < |ledger| && ledger[r.value].stage == stage && ledger[r.value].payload == payload
    ensures r.None? ==> forall i :: 0 <= i < |ledger| ==> !(ledger[i].stage == stage && ledger[i].payload == payload)
  {
    if ledger == [] then None
    else
      var last := |ledger| - 1;
      if ledger[last].stage == stage && ledger[last].payload == payload then Some(last)
      else LatestRow(ledger[..last], stage, payload)
  }

  function End(th: Thread, out: Outcome): Thread {
    th.(pc := if th.call.reserved then UpdateRow(out) else Finished(out))
  }

  function Put(s: State, t: Tid, th: Thread): State {
    s.(threads := s.threads[t := th])
  }

  function Handed(th: Thread): seq<Return> {
    if th.pc.Finished? && th.pc.outcome.Returned?
    then [Return(th.call.key, th.call.payload, th.pc.outcome.receipt)] else []
  }

  /** Leaves the call, recording the receipt if one is handed back. */
  function Finish(s: State, t: Tid, th: Thread): (r: State)
    ensures r.disk == s.disk && r.ledger == s.ledger && r.posts == s.posts
    ensures r.threads == s.threads[t := th]
    ensures r.handed == s.handed + Handed(th)
  {
    Put(s, t, th).(handed := s.handed + Handed(th))
  }

  function ReadResponse(disk: Disk, th: Thread): (r: Outcome)
    requires PathOf(th, ResponseFile) in disk
    ensures r.Returned? <==>
              && disk[PathOf(th, ResponseFile)].content.Some?
              && disk[PathOf(th, ResponseFile)].content.value.Saved?
              && disk[PathOf(th, ResponseFile)].content.value.receipt.request == th.call.payload
              && disk[PathOf(th, ResponseFile)].content.value.receipt.status == 200
    ensures r.Returned? ==> disk[PathOf(th, ResponseFile)].content.value.receipt == r.receipt
  {
    match disk[PathOf(th, ResponseFile)].content
    case Some(Saved(r)) =>
      if r.request != th.call.payload || r.status != 200 then Blocked else Returned(r)
    case _ => Corrupt
  }

  /** No evidence of a dispatch under this key. */
  predicate Untouched(disk: Disk, key: Key) {
    Path(key, RequestFile) !in disk && Path(key, StartedFile) !in disk && Path(key, ResponseFile) !in disk
  }

  function ValueOf(th: Thread, part: Part): Option<Content> {
    match part
    case RequestFile => Some(PayloadText(th.call.payload))
    case StartedFile => Some(StartedMark(th.call.payload))
    case ResponseFile => if th.receipt.Some? then Some(Saved(th.receipt.value)) else None
    case ErrorFile => Some(ErrorNote(th.call.payload))
  }

  function SyncFolder(disk: Disk, folder: Folder): Disk {
    map p | p in disk :: if p.key.folder == folder then disk[p].(linked := true) else disk[p]
  }

  function AfterSave(th: Thread, part: Part): Thread {
    match part
    case RequestFile => th.(pc := Save(StartedFile, Create))
    case StartedFile => th.(pc := Send)
    case ResponseFile =>
      if th.receipt.Some? && th.receipt.value.status == 200 then End(th, Returned(th.receipt.value))
      else End(th, Blocked)
    case ErrorFile => End(th, Blocked)
  }

  /** Where a thread stands after a save step that did not find a file in its way. */
  function NextStep(th: Thread, part: Part, step: SaveStep): Thread {
    match step
    case Create => th.(pc := Save(part, Write))
    case Write => th.(pc := Save(part, SyncFile))
    case SyncFile => th.(pc := Save(part, SyncDir))
    case SyncDir => AfterSave(th, part)
  }

  /** private_json: exclusive creation of an empty file, its bytes, fsync of the
      file, fsync of the directory.  The error note is the one file replaced
      atomically from an already synced temporary. */
  function SaveTick(s: State, t: Tid, th: Thread, part: Part, step: SaveStep): State {
    var p := PathOf(th, part);
    match step
    case Create =>
      if part == ErrorFile then Put(s, t, th.(pc := Save(part, Write)))
      else if p in s.disk then Finish(s, t, End(th, FileExists))
      else Put(s.(disk := s.disk[p := File(None, false, false)]), t, th.(pc := Save(part, Write)))
    case Write =>
      if part == ErrorFile then
        Put(s.(disk := s.disk[p := File(ValueOf(th, part), true, p in s.disk && s.disk[p].linked)]), t, th.(pc := Save(part, SyncDir)))
      else if p in s.disk then
        Put(s.(disk := s.disk[p := s.disk[p].(content := ValueOf(th, part))]), t, th.(pc := Save(part, SyncFile)))
      else s
    case SyncFile =>
      if p in s.disk then
        Put(s.(disk := s.disk[p := s.disk[p].(synced := true)]), t, th.(pc := Save(part, SyncDir)))
      else s
    case SyncDir =>
      Finish(s.(disk := SyncFolder(s.disk, th.call.key.folder)), t, AfterSave(th, part))
  }

  function SendTick(s: State, t: Tid, th: Thread, reply: Reply): State {
    var post := Post(th.call.key, th.call.payload, reply);
    match reply
    case Refused => Finish(s, t, End(th, Blocked))
    case Http(status, body) =>
      Put(s.(posts := s.posts + [post]), t,
          th.(pc := Save(ResponseFile, Create), receipt := Some(Receipt(th.call.payload, status, body))))
    case TransportFailure =>
      Put(s.(posts := s.posts + [post]), t, th.(pc := Save(ErrorFile, Create)))
  }

  /** The history grew by one post of this call. */
  ghost predicate SentOne(s: State, s': State, call: Call) {
    exists reply :: s'.posts == s.posts + [Post(call.key, call.payload, reply)]
  }

  /** A step that only reads: where the thread goes next. */
  function Look(s: State, th: Thread): (r: Thread)
    requires th.pc in {SelectPrior, CheckPrior, Validate, CheckResponse, CheckStarted}
    ensures r.call == th.call && r.inserted == th.inserted && r.receipt == th.receipt
    ensures r.pc.Save? ==> r.pc == Save(RequestFile, Create) && th.pc.CheckStarted?
    ensures !r.pc.Send?
  {
    match th.pc
    case SelectPrior =>
      var prior := LatestRow(s.ledger, th.call.key.stage, th.call.payload);
      th.(event := prior, pc := if prior.Some? then CheckPrior else InsertRow)
    case CheckPrior => th.(pc := if PathOf(th, ResponseFile) in s.disk then Validate else Finished(Blocked))
    case Validate => if Authorized(th.call) then th.(pc := CheckResponse) else End(th, BadArguments)
    case CheckResponse =>
      if PathOf(th, ResponseFile) in s.disk then End(th, ReadResponse(s.disk, th)) else th.(pc := CheckStarted)
    case CheckStarted =>
      if PathOf(th, StartedFile) in s.disk then End(th, Blocked) else th.(pc := Save(RequestFile, Create))
  }

  function LedgerTick(s: State, t: Tid, th: Thread): State
    requires th.pc.InsertRow? || th.pc.UpdateRow?
  {
    match th.pc
    case InsertRow =>
      Put(s.(ledger := s.ledger + [Row(th.call.key.stage, th.call.payload, RowStarted)]), t,
          th.(event := Some(|s.ledger|), inserted := true, pc := Validate))
    case UpdateRow(out) =>
      var ledger' :=
        if th.event.Some? && th.event.value < |s.ledger|
        then s.ledger[th.event.value := s.ledger[th.event.value].(status := if out.Returned? then RowOk else RowFailed)]
        else s.ledger;
      Finish(s.(ledger := ledger'), t, th.(pc := Finished(out)))
  }

  function TickThread(s: State, t: Tid, th: Thread, reply: Reply): State {
    match th.pc
    case Save(part, step) => SaveTick(s, t, th, part, step)
    case Send => SendTick(s, t, th, reply)
    case InsertRow => LedgerTick(s, t, th)
    case UpdateRow(_) => LedgerTick(s, t, th)
    case Finished(_) => s
    case _ => Finish(s, t, Look(s, th))
  }

  /** No process is running: every thread has finished or died. */
  predicate Quiet(s: State) {
    forall t :: t in s.threads ==> s.threads[t].pc.Finished?
  }

  /** A power loss drops entries that were never synced, may tear files whose bytes
      were not, and kills every thread; what is left afterwards is on the disk. */
  function Reboot(disk: Disk, lost: set<Path>, torn: set<Path>): Disk {
    map p | p in disk && (disk[p].linked || p !in lost) ::
      File(if !disk[p].synced && p in torn then None else disk[p].content, true, true)
  }

  function WithoutFolder(disk: Disk, folder: Folder): Disk {
    map p | p in disk && p.key.folder != folder :: disk[p]
  }

  function InFolder(p: Path, folder: Folder): Path { Path(Key(folder, p.key.stage), p.part) }

  function Copied(disk: Disk, source: Folder, target: Folder): Disk {
    WithoutFolder(disk, target)
    + map p | p in disk && p.key.folder == source :: InFolder(p, target) := disk[p].(synced := true, linked := true)
  }

  function Apply(s: State, a: Action): State {
    match a
    case Start(t, call) =>
      if t in s.threads then s
      else Put(s, t, Thread(call, if call.reserved then SelectPrior else Validate, None, None, false))
    case Tick(t, reply) => if t in s.threads then TickThread(s, t, s.threads[t], reply) else s
    case Kill(dead) => s.(threads := map t | t in s.threads && t !in dead :: s.threads[t])
    case PowerLoss(lost, torn) => s.(threads := map[], disk := Reboot(s.disk, lost, torn))
    case LoseFolder(f) => if Quiet(s) then s.(disk := WithoutFolder(s.disk, f)) else s
    case CopyFolder(f, g) => if Quiet(s) then s.(disk := Copied(s.disk, f, g)) else s
    case LoseLedger => if Quiet(s) then s.(ledger := []) else s
  }

  /** The state after a schedule of actions. */
  function Exec(s: State, run: seq<Action>): State {
    if run == [] then s
    else Apply(Exec(s, run[..|run| - 1]), run[|run| - 1])
  }

  // ----- Environment assumptions, as conditions on schedules -----------------------

  predicate FoldersKept(run: seq<Action>) {
    forall i :: 0 <= i < |run| ==> !run[i].LoseFolder? && !run[i].CopyFolder?
  }

  predicate LedgerKept(run: seq<Action>) {
    forall i :: 0 <= i < |run| ==> !run[i].LoseLedger?
  }

  /** No live thread is dispatching this stage and request. */
  predicate Idle(s: State, stage: Stage, payload: Payload) {
    forall t :: t in s.threads && !s.threads[t].pc.Finished? ==>
                  !(s.threads[t].call.key.stage == stage && s.threads[t].call.payload == payload)
  }

  /** Every call goes through the ledger, and no two calls for one stage and request
      hash are in flight together: what the coordinator lock provides. */
  predicate Coordinated(s: State, run: seq<Action>) {
    forall i :: 0 <= i < |run| && run[i].Start? ==>
                  run[i].call.reserved && Idle(Exec(s, run[..i]), run[i].call.key.stage, run[i].call.payload)
  }

  /** A machine that has just booted: any evidence, no running thread, no history. */
  predicate Booted(s: State) {
    s.threads == map[] && s.posts == [] && s.handed == []
  }

  predicate OnePostPerFolderStage(s: State) {
    forall i, j :: 0 <= i < |s.posts| && 0 <= j < |s.posts| && s.posts[i].key == s.posts[j].key ==> i == j
  }

  predicate SameRequest(a: Post, b: Post) {
    a.key.stage == b.key.stage && a.payload == b.payload
  }

  predicate OnePostPerRequest(s: State) {
    forall i, j :: 0 <= i < |s.posts| && 0 <= j < |s.posts| && SameRequest(s.posts[i], s.posts[j]) ==> i == j
  }
}
