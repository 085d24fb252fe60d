/** scripts/dinaut_jev_transport.py: one alternate representation of a scoring request,
    sent from a child folder when the root folder was never sent or was rejected for its
    length.  Provider calls go through a callback; all the transport knows of it is what
    one call of the journal may do to its folder, dead processes included. */
module JevTransport {
  import opened Common
  import opened DispatchProtocol

  // ----- The callback's contract ----------------------------------------------------

  /** The journal files of one folder and stage after a restart; None is a torn file. */
  type Files = map<Part, Option<Content>>

  /** `out` is None when the process died before the call ended. */
  datatype Attempt = Attempt(files: Files, sent: Option<Reply>, out: Option<Outcome>)

  predicate Absent(files: Files, part: Part) { part !in files }

  predicate TornOr(files: Files, part: Part, value: Content) {
    part in files && (files[part] == None || files[part] == Some(value))
  }

  ghost predicate KeepsFiles(files: Files, a: Attempt) {
    && (forall part :: part in files && part != ErrorFile ==> part in a.files && a.files[part] == files[part])
    && (ErrorFile in files ==> ErrorFile in a.files)
  }

  /** A file that is new was written by this call, or torn while it was. */
  ghost predicate WritesOwnFiles(files: Files, payload: Payload, a: Attempt) {
    && (RequestFile in a.files && Absent(files, RequestFile) ==> TornOr(a.files, RequestFile, PayloadText(payload)))
    && (StartedFile in a.files && Absent(files, StartedFile) ==>
          Absent(files, RequestFile) && a.files.Keys >= {RequestFile}
          && TornOr(a.files, StartedFile, StartedMark(payload)))
    && (ResponseFile in a.files && Absent(files, ResponseFile) ==>
          a.sent.Some? && a.sent.value.Http?
          && TornOr(a.files, ResponseFile, Saved(Receipt(payload, a.sent.value.status, a.sent.value.body))))
  }

  ghost predicate SendsOnce(files: Files, payload: Payload, a: Attempt) {
    && (a.sent.Some? ==>
          && Absent(files, RequestFile) && Absent(files, StartedFile) && Absent(files, ResponseFile)
          && RequestFile in a.files && a.files[RequestFile] == Some(PayloadText(payload))
          && StartedFile in a.files && a.files[StartedFile] == Some(StartedMark(payload)))
    && (a.out.Some? && a.out.value.Returned? ==>
          && ResponseFile in a.files && a.files[ResponseFile] == Some(Saved(a.out.value.receipt))
          && a.out.value.receipt.request == payload && a.out.value.receipt.status == 200)
  }

  /** Everything one journal call for `payload` may do to its folder. */
  ghost predicate JournalAttempt(files: Files, payload: Payload, a: Attempt) {
    KeepsFiles(files, a) && WritesOwnFiles(files, payload, a) && SendsOnce(files, payload, a)
  }

  // ----- Evidence of one case ---------------------------------------------------------

  datatype Disposition = RootSuccess | ContextLimitRejection | Unsent

  datatype Manifest = Manifest(source: Payload, wire: Payload, disposition: Disposition, rejection: Option<Receipt>)

  datatype Slot<T> = Missing | Torn | Whole(value: T)

  datatype Child = Child(journal: Files, source: Slot<Payload>, wire: Slot<Payload>, manifest: Slot<Manifest>)

  datatype Place = Root | Compact

  datatype Dispatch = Dispatch(place: Place, payload: Payload, reply: Reply)

  datatype Case = Case(root: Files, child: Child, sends: seq<Dispatch>)

  datatype Refusal = ProviderBlocked

  const MAX_TOKENS_BODY := "{\"detail\":{\"error_type\":\"max_tokens_exceeded\"}}"

  /** The same model and questions around the state's canonical text. */
  function CompactPayload(source: Payload): Result<Payload, Refusal> {
    match source
    case ObjectState(model, state, questions) => Ok(TextState(model, state, questions))
    case _ => Err(ProviderBlocked)
  }

  function LoadRequest(files: Files): Result<Option<Payload>, Refusal> {
    if RequestFile !in files then Ok(None)
    else match files[RequestFile]
      case Some(PayloadText(p)) => Ok(Some(p))
      case _ => Err(ProviderBlocked)
  }

  predicate StartedBinds(files: Files, request: Payload)
    requires StartedFile in files
  {
    files[StartedFile] == Some(StartedMark(request))
  }

  function LoadReceipt(files: Files): Result<Receipt, Refusal>
    requires ResponseFile in files
  {
    match files[ResponseFile]
    case Some(Saved(r)) => Ok(r)
    case _ => Err(ProviderBlocked)
  }

  /** _root_state: what the root folder's evidence allows. */
  function RootState(root: Files, source: Option<Payload>): Result<(Disposition, Option<Receipt>), Refusal> {
    match LoadRequest(root)
    case Err(_) => Err(ProviderBlocked)
    case Ok(request) =>
      if request.Some? && source.Some? && request != source then Err(ProviderBlocked)
      else if StartedFile in root && (request.None? || !StartedBinds(root, request.value)) then Err(ProviderBlocked)
      else if ResponseFile in root then
        match LoadReceipt(root)
        case Err(_) => Err(ProviderBlocked)
        case Ok(receipt) =>
          if request != Some(receipt.request) then Err(ProviderBlocked)
          else if receipt.status == 200 then Ok((RootSuccess, Some(receipt)))
          else if receipt.status == 400 && receipt.body == MAX_TOKENS_BODY then Ok((ContextLimitRejection, Some(receipt)))
          else Err(ProviderBlocked)
      else if StartedFile in root || ErrorFile in root then Err(ProviderBlocked)
      else Ok((Unsent, None))
  }

  /** _verified_child: the child's receipt, None while it may still be sent. */
  function VerifiedChild(child: Child, source: Option<Payload>, disposition: Disposition, rejection: Option<Receipt>)
    : Result<Option<Receipt>, Refusal>
  {
    var journal := child.journal;
    if child.manifest.Missing? then
      if StartedFile in journal || ResponseFile in journal || RequestFile in journal then Err(ProviderBlocked) else Ok(None)
    else if !child.source.Whole? || (source.Some? && source.value != child.source.value) then Err(ProviderBlocked)
    else
      match CompactPayload(child.source.value)
      case Err(_) => Err(ProviderBlocked)
      case Ok(wire) =>
        if child.wire != Whole(wire) || child.manifest != Whole(Manifest(child.source.value, wire, disposition, rejection)) then Err(ProviderBlocked)
        else if RequestFile in journal && journal[RequestFile] != Some(PayloadText(wire)) then Err(ProviderBlocked)
        else if StartedFile in journal && !StartedBinds(journal, wire) then Err(ProviderBlocked)
        else if ResponseFile in journal then
          match LoadReceipt(journal)
          case Err(_) => Err(ProviderBlocked)
          case Ok(receipt) =>
            if RequestFile !in journal || receipt.request != wire || receipt.status != 200 then Err(ProviderBlocked)
            else Ok(Some(receipt))
        else if StartedFile in journal || RequestFile in journal || ErrorFile in journal then Err(ProviderBlocked)
        else Ok(None)
  }

  /** get_cached_jev_receipt. */
  function GetCachedReceipt(root: Files, child: Child, expected: Option<Payload>): Result<Option<Receipt>, Refusal> {
    match if expected.None? then LoadRequest(root) else Ok(expected)
    case Err(_) => Err(ProviderBlocked)
    case Ok(source) =>
      if source.Some? && CompactPayload(source.value).Err? then Err(ProviderBlocked)
      else match RootState(root, source)
        case Err(_) => Err(ProviderBlocked)
        case Ok((disposition, receipt)) =>
          if disposition == RootSuccess then
            if StartedFile in child.journal || ResponseFile in child.journal then Err(ProviderBlocked) else Ok(receipt)
          else VerifiedChild(child, source, disposition, receipt)
  }

  // ----- The transport ------------------------------------------------------------------

  /** What becomes of one durable write: done, or the process dies leaving the file
      absent, torn or whole. */
  datatype Fate = Survives | DiesAbsent | DiesTorn | DiesWhole

  datatype Answer = Answered(receipt: Receipt) | Raised | Died

  datatype Prepared = Ready(wire: Payload) | Cached(receipt: Receipt) | Stopped(answer: Answer)

  predicate NeverSent(files: Files) {
    RequestFile !in files && StartedFile !in files && ResponseFile !in files
  }

  // ----- The evidence in the source's own words ------------------------------------------------------

  /** Nothing of the root was ever sent; a request file at most, with this source. */
  predicate RootUntouched(root: Files, source: Payload) {
    && StartedFile !in root && ResponseFile !in root && ErrorFile !in root
    && (RequestFile in root ==> root[RequestFile] == Some(PayloadText(source)))
  }

  /** The root was sent with this source and the saved answer is `status` with `body`. */
  predicate RootSaved(root: Files, source: Payload, status: int, body: string) {
    && RequestFile in root && root[RequestFile] == Some(PayloadText(source))
    && (StartedFile in root ==> root[StartedFile] == Some(StartedMark(source)))
    && ResponseFile in root && root[ResponseFile] == Some(Saved(Receipt(source, status, body)))
  }

  predicate RootTooLong(root: Files, source: Payload) {
    RootSaved(root, source, 400, "{\"detail\":{\"error_type\":\"max_tokens_exceeded\"}}")
  }

  predicate RootAnswered(root: Files, source: Payload) {
    && ResponseFile in root && root[ResponseFile].Some? && root[ResponseFile].value.Saved?
    && RootSaved(root, source, 200, root[ResponseFile].value.receipt.body)
  }

  /** The binding that prepare_jev_transport stores for this source on this root. */
  function BindingOf(root: Files, source: Payload): Manifest
    requires source.ObjectState?
  {
    var wire := TextState(source.model, source.state, source.questions);
    if RootTooLong(root, source)
    then Manifest(source, wire, ContextLimitRejection, Some(Receipt(source, 400, "{\"detail\":{\"error_type\":\"max_tokens_exceeded\"}}")))
    else Manifest(source, wire, Unsent, None)
  }

  /** The child holds no attempt, and its binding is this one or is still to be written. */
  predicate ChildOpen(child: Child, source: Payload, binding: Manifest)
    requires source.ObjectState?
  {
    var wire := TextState(source.model, source.state, source.questions);
    && RequestFile !in child.journal && StartedFile !in child.journal && ResponseFile !in child.journal
    && (if child.manifest.Missing? then child.source in {Missing, Whole(source)} && child.wire in {Missing, Whole(wire)}
        else child.source == Whole(source) && child.wire == Whole(wire) && child.manifest == Whole(binding) && ErrorFile !in child.journal)
  }

  /** The child is bound to this source and its own attempt was answered with 200. */
  predicate ChildAnswered(child: Child, source: Payload, binding: Manifest)
    requires source.ObjectState?
  {
    var wire := TextState(source.model, source.state, source.questions);
    && child.source == Whole(source) && child.wire == Whole(wire) && child.manifest == Whole(binding)
    && RequestFile in child.journal && child.journal[RequestFile] == Some(PayloadText(wire))
    && (StartedFile in child.journal ==> child.journal[StartedFile] == Some(StartedMark(wire)))
    && ResponseFile in child.journal && child.journal[ResponseFile].Some? && child.journal[ResponseFile].value.Saved?
    && child.journal[ResponseFile].value.receipt == Receipt(wire, 200, child.journal[ResponseFile].value.receipt.body)
  }

  /** What the transport may do with a case, by its files: send it, replay a stored answer, or
      neither. */
  predicate MaySend(c: Case, source: Payload) {
    && source.ObjectState? && (RootUntouched(c.root, source) || RootTooLong(c.root, source))
    && ChildOpen(c.child, source, BindingOf(c.root, source))
  }

  predicate MayReplay(c: Case, source: Payload) {
    && source.ObjectState?
    && if RootAnswered(c.root, source) then StartedFile !in c.child.journal && ResponseFile !in c.child.journal
       else (RootUntouched(c.root, source) || RootTooLong(c.root, source)) && ChildAnswered(c.child, source, BindingOf(c.root, source))
  }

  /** The stored answer of a case that can be replayed. */
  function StoredAnswer(c: Case, source: Payload): Receipt
    requires MayReplay(c, source)
  {
    if RootAnswered(c.root, source) then c.root[ResponseFile].value.receipt else c.child.journal[ResponseFile].value.receipt
  }

  /** The root was never sent, or was rejected exactly for its length. */
  predicate MayUseChild(root: Files, source: Payload) {
    RootState(root, Some(source)).Ok? && RootState(root, Some(source)).value.0 != RootSuccess
  }

  class CaseFolder {
    var root: Files
    var child: Child
    var sends: seq<Dispatch>

    function Now(): Case
      reads this
    {
      Case(root, child, sends)
    }

    /** prepare_jev_transport; `fates` decides each of its three writes. */
    method Prepare(source: Payload, fates: nat -> Fate) returns (p: Prepared)
      modifies this`child
      ensures child.journal == old(child.journal)
      ensures p.Ready? ==>
                && CompactPayload(source) == Ok(p.wire)
                && NeverSent(child.journal)
                && MayUseChild(root, source)
                && child.source == Whole(source) && child.wire == Whole(p.wire)
                && child.manifest == Whole(Manifest(source, p.wire, RootState(root, Some(source)).value.0,
                                                    RootState(root, Some(source)).value.1))
      ensures p.Cached? ==> GetCachedReceipt(root, child, Some(source)) == Ok(Some(p.receipt)) && child == old(child)
      ensures p.Stopped? ==> !p.answer.Answered?
      ensures (forall i :: fates(i) == Survives) && UsableNow(old(Now()), source) ==> p.Ready?
      ensures (forall i :: fates(i) == Survives) ==>
                && (p.Ready? <==> MaySend(old(Now()), source))
                && (MayReplay(old(Now()), source) ==> p == Cached(StoredAnswer(old(Now()), source)))
                && (!MaySend(old(Now()), source) && !MayReplay(old(Now()), source) ==> p == Stopped(Raised))
      ensures source.ObjectState? && !RootUntouched(root, source) && !RootTooLong(root, source) && !RootAnswered(root, source) ==>
                p == Stopped(Raised) && child == old(child)
      ensures !source.ObjectState? ==> p == Stopped(Raised) && child == old(child)
      ensures !old(child).manifest.Missing? ==> child.manifest == old(child).manifest
    {
      var compact := CompactPayload(source);
      if compact.Err? { return Stopped(Raised); }
      var state := RootState(root, Some(source));
      if state.Err? { return Stopped(Raised); }
      var cached := GetCachedReceipt(root, child, Some(source));
      if cached.Err? { return Stopped(Raised); }
      if state.value.0 == RootSuccess { return Cached(cached.value.value); }
      var step := Once(child.source, source, fates(0));
      child := child.(source := step.0);
      if step.1.Some? { return Stopped(step.1.value); }
      var step' := Once(child.wire, compact.value, fates(1));
      child := child.(wire := step'.0);
      if step'.1.Some? { return Stopped(step'.1.value); }
      var step'' := Once(child.manifest, Manifest(source, compact.value, state.value.0, state.value.1), fates(2));
      child := child.(manifest := step''.0);
      if step''.1.Some? { return Stopped(step''.1.value); }
      return if cached.value.Some? then Cached(cached.value.value) else Ready(compact.value);
    }

    /** dispatch_jev_transport, with the journal call as a parameter. */
    method DispatchTransport(source: Payload, fates: nat -> Fate, callback: (Files, Payload) -> Attempt) returns (answer: Answer)
      requires forall files, payload :: JournalAttempt(files, payload, callback(files, payload))
      modifies this`child, this`sends
      ensures TransportCall(old(Now()), source, Now(), answer)
      ensures answer.Answered? ==> GetCachedReceipt(root, child, Some(source)) == Ok(Some(answer.receipt))
      ensures
        (forall i :: fates(i) == Survives) && UsableNow(old(Now()), source)
        && Delivers(callback(old(child.journal), TextState(source.model, source.state, source.questions)), source)
        ==> answer.Answered? && Now().sends != old(Now()).sends
      ensures
        (forall i :: fates(i) == Survives) ==>
          && (MaySend(old(Now()), source) ==>
                var attempt := callback(old(child.journal), TextState(source.model, source.state, source.questions));
                && |sends| == |old(sends)| + (if attempt.sent.Some? then 1 else 0)
                && (answer == Died <==> attempt.out.None?)
                && (answer.Answered? <==> attempt.out.Some? && attempt.out.value.Returned?)
                && (answer.Answered? ==> answer.receipt == attempt.out.value.receipt))
          && (MayReplay(old(Now()), source) ==> answer == Answered(StoredAnswer(old(Now()), source)) && sends == old(sends))
          && (!MaySend(old(Now()), source) && !MayReplay(old(Now()), source) ==> answer == Raised && sends == old(sends))
    {
      ghost var before := Now();
      UsableMaySend(before, source);
      assert MaySend(before, source) ==> source.ObjectState?;
      hide TransportCall, GetCachedReceipt, RootState, JournalAttempt, CompactPayload, MaySend, MayReplay, StoredAnswer, UsableNow,
           RootUntouched, RootTooLong, RootAnswered, MayUseChild;
      var p := Prepare(source, fates);
      match p {
        case Stopped(a) =>
          QuietCall(before, source, Now(), a);
          return a;
        case Cached(receipt) =>
          CachedIsHeld(root, child, sends, source, receipt);
          QuietCall(before, source, Now(), Answered(receipt));
          return Answered(receipt);
        case Ready(wire) =>
          CompactIs(source, wire);
          var attempt := callback(child.journal, wire);
          child := child.(journal := attempt.files);
          if attempt.sent.Some? { sends := sends + [Dispatch(Compact, wire, attempt.sent.value)]; }
          answer := Raised;
          if attempt.out.None? {
            answer := Died;
          } else if attempt.out.value.Returned? {
            var saved := GetCachedReceipt(root, child, Some(source));
            ReturnedWasSent(before.child.journal, wire, attempt);
            if Delivers(attempt, source) && source.ObjectState? { DeliveredIsSaved(before.child.journal, Now(), source, wire, attempt); }
            if saved == Ok(Some(attempt.out.value.receipt)) {
              CachedIsHeld(root, child, sends, source, attempt.out.value.receipt);
              answer := Answered(attempt.out.value.receipt);
            }
          }
          AttemptCall(before, source, wire, attempt, Now(), answer);
      }
    }
  }

  /** No earlier attempt at a well-formed request stands in the way. */
  predicate UsableNow(c: Case, source: Payload) {
    && source.ObjectState? && (RootUntouched(c.root, source) || RootTooLong(c.root, source))
    && c.child.journal == map[] && c.child.source.Missing? && c.child.wire.Missing? && c.child.manifest.Missing?
  }

  /** The journal call sent the request, got a 200 answer and lived to return it. */
  predicate Delivers(a: Attempt, source: Payload) {
    a.sent.Some? && a.out.Some? && a.out.value.Returned?
  }

  // ----- What one call may do, whatever happens in it ------------------------------------

  /** Evidence already on disk stays as it is. */
  ghost predicate Keeps(c: Case, c': Case) {
    && c'.root == c.root
    && (forall part :: part in c.child.journal && part != ErrorFile ==>
          part in c'.child.journal && c'.child.journal[part] == c.child.journal[part])
    && (!c.child.manifest.Missing? ==> c'.child.manifest == c.child.manifest)
    && c.sends <= c'.sends
  }

  /** The stored 200 receipt an answer can only be. */
  predicate Holds(c: Case, r: Receipt) {
    && r.status == 200
    && if ResponseFile in c.root && c.root[ResponseFile].Some? && c.root[ResponseFile].value.Saved?
          && c.root[ResponseFile].value.receipt.status == 200
       then c.root[ResponseFile] == Some(Saved(r)) && ResponseFile !in c.child.journal
       else ResponseFile in c.child.journal && c.child.journal[ResponseFile] == Some(Saved(r))
  }

  ghost predicate TransportCall(c: Case, source: Payload, c': Case, answer: Answer) {
    && Keeps(c, c')
    && (answer.Answered? ==> Holds(c', answer.receipt))
    && (c'.sends == c.sends ==>
          exists a :: JournalStep(c, source, a) && a.sent.None? && c'.child.journal == a.files)
    && (c'.sends != c.sends ==>
          && MayUseChild(c.root, source) && NeverSent(c.child.journal)
          && exists a :: JournalStep(c, source, a) && a.sent.Some? && c'.child.journal == a.files
                         && c'.sends == c.sends + [Dispatch(Compact, CompactPayload(source).value, a.sent.value)])
  }

  /** A journal attempt on the child with the compact payload, or no attempt at all. */
  ghost predicate JournalStep(c: Case, source: Payload, a: Attempt) {
    || a == Attempt(c.child.journal, None, None)
    || (CompactPayload(source).Ok? && JournalAttempt(c.child.journal, CompactPayload(source).value, a))
  }

  /** A call that never reached the journal. */
  lemma QuietCall(c: Case, source: Payload, c': Case, answer: Answer)
    requires c'.root == c.root && c'.sends == c.sends && c'.child.journal == c.child.journal
    requires !c.child.manifest.Missing? ==> c'.child.manifest == c.child.manifest
    requires answer.Answered? ==> Holds(c', answer.receipt)
    ensures TransportCall(c, source, c', answer)
  {
    assert JournalStep(c, source, Attempt(c.child.journal, None, None));
  }

  /** A call whose journal made `attempt`. */
  lemma AttemptCall(c: Case, source: Payload, wire: Payload, attempt: Attempt, c': Case, answer: Answer)
    requires MayUseChild(c.root, source) && NeverSent(c.child.journal) && CompactPayload(source) == Ok(wire)
    requires JournalAttempt(c.child.journal, wire, attempt)
    requires c'.root == c.root && c'.child.journal == attempt.files
    requires c'.sends == c.sends + if attempt.sent.Some? then [Dispatch(Compact, wire, attempt.sent.value)] else []
    requires !c.child.manifest.Missing? ==> c'.child.manifest == c.child.manifest
    requires answer.Answered? ==> Holds(c', answer.receipt)
    ensures TransportCall(c, source, c', answer)
  {
    assert JournalStep(c, source, attempt);
    hide CompactPayload, MayUseChild, Holds, WritesOwnFiles;
  }

  lemma CachedIsHeld(root: Files, child: Child, sends: seq<Dispatch>, source: Payload, receipt: Receipt)
    requires GetCachedReceipt(root, child, Some(source)) == Ok(Some(receipt))
    ensures Holds(Case(root, child, sends), receipt)
  {
  }

  lemma UsableMaySend(c: Case, source: Payload)
    ensures UsableNow(c, source) ==> MaySend(c, source)
  {
  }

  /** What get_cached_jev_receipt finds: the stored answer of a case that can be replayed,
      nothing while neither folder holds an attempt, and otherwise it raises. */
  lemma CachedExactly(c: Case, source: Payload)
    ensures MayReplay(c, source) ==> GetCachedReceipt(c.root, c.child, Some(source)) == Ok(Some(StoredAnswer(c, source)))
    ensures GetCachedReceipt(c.root, c.child, Some(source)) == Ok(None) <==>
              && source.ObjectState? && (RootUntouched(c.root, source) || RootTooLong(c.root, source))
              && RequestFile !in c.child.journal && StartedFile !in c.child.journal && ResponseFile !in c.child.journal
              && (c.child.manifest != Missing ==>
                    && c.child.source == Whole(source) && c.child.wire == Whole(TextState(source.model, source.state, source.questions))
                    && c.child.manifest == Whole(BindingOf(c.root, source)) && ErrorFile !in c.child.journal)
    ensures !MayReplay(c, source) ==> GetCachedReceipt(c.root, c.child, Some(source)) in {Ok(None), Err(ProviderBlocked)}
  {
  }

  /** Without a source of the caller's, the source is the root's own request. */
  lemma CachedWithoutSource(root: Files, child: Child, source: Payload)
    requires RequestFile in root && root[RequestFile] == Some(PayloadText(source))
    ensures GetCachedReceipt(root, child, None) == GetCachedReceipt(root, child, Some(source))
  {
  }

  lemma CompactIs(source: Payload, wire: Payload)
    requires CompactPayload(source) == Ok(wire)
    ensures source.ObjectState? && wire == TextState(source.model, source.state, source.questions)
  {
  }

  lemma ReturnedWasSent(journal: Files, wire: Payload, attempt: Attempt)
    requires JournalAttempt(journal, wire, attempt) && NeverSent(journal) && attempt.out.Some? && attempt.out.value.Returned?
    ensures attempt.sent.Some?
  {
  }

  /** A delivered answer can be read back from the child folder. */
  lemma DeliveredIsSaved(journal: Files, c': Case, source: Payload, wire: Payload, attempt: Attempt)
    requires source.ObjectState? && MayUseChild(c'.root, source) && CompactPayload(source) == Ok(wire)
    requires JournalAttempt(journal, wire, attempt) && Delivers(attempt, source) && c'.child.journal == attempt.files
    requires c'.child.source == Whole(source) && c'.child.wire == Whole(wire)
    requires
      var state := RootState(c'.root, Some(source)).value;
      c'.child.manifest == Whole(Manifest(source, wire, state.0, state.1))
    ensures GetCachedReceipt(c'.root, c'.child, Some(source)) == Ok(Some(attempt.out.value.receipt))
  {
  }

  /** _once: an immutable file, and the answer that ends the call if it does. */
  function Once<T(==)>(slot: Slot<T>, value: T, fate: Fate): (r: (Slot<T>, Option<Answer>))
    ensures r.1.None? <==> r.0 == Whole(value) && (slot == Whole(value) || (slot.Missing? && fate.Survives?))
    ensures r.1.Some? ==> !r.1.value.Answered?
    ensures !slot.Missing? ==> r.0 == slot
    ensures r.0.Whole? ==> slot == r.0 || r.0.value == value
  {
    if !slot.Missing? then (slot, if slot == Whole(value) then None else Some(Raised))
    else match fate
      case Survives => (Whole(value), None)
      case DiesAbsent => (Missing, Some(Died))
      case DiesTorn => (Torn, Some(Died))
      case DiesWhole => (Whole(value), Some(Died))
  }

  // ----- Whole histories --------------------------------------------------------------------

  predicate SentFrom(d: Dispatch, files: Files) {
    && RequestFile in files && files[RequestFile] == Some(PayloadText(d.payload))
    && StartedFile in files && files[StartedFile] == Some(StartedMark(d.payload))
  }

  predicate Explains(d: Dispatch, files: Files)
    requires ResponseFile in files
  {
    d.reply.Http? && TornOr(files, ResponseFile, Saved(Receipt(d.payload, d.reply.status, d.reply.body)))
  }

  predicate RejectedForLength(files: Files) {
    && ResponseFile in files && files[ResponseFile].Some? && files[ResponseFile].value.Saved?
    && files[ResponseFile].value.receipt.status == 400 && files[ResponseFile].value.receipt.body == MAX_TOKENS_BODY
  }

  ghost predicate Explained(files: Files, sends: seq<Dispatch>, place: Place)
    requires ResponseFile in files
  {
    exists i :: 0 <= i < |sends| && sends[i].place == place && Explains(sends[i], files)
  }

  /** The files of one folder are those its recorded sends left. */
  ghost predicate PlaceInv(files: Files, sends: seq<Dispatch>, place: Place) {
    && (forall i :: 0 <= i < |sends| && sends[i].place == place ==> SentFrom(sends[i], files))
    && (ResponseFile in files ==> Explained(files, sends, place))
  }

  predicate OncePerPlace(sends: seq<Dispatch>) {
    forall i, j :: 0 <= i < |sends| && 0 <= j < |sends| && sends[i].place == sends[j].place ==> i == j
  }

  predicate ChildAfterRejection(root: Files, sends: seq<Dispatch>) {
    forall i, j :: 0 <= i < |sends| && 0 <= j < |sends| && sends[i].place == Root && sends[j].place == Compact
      ==> i < j && RejectedForLength(root)
  }

  ghost predicate Inv(c: Case) {
    && OncePerPlace(c.sends)
    && PlaceInv(c.root, c.sends, Root)
    && PlaceInv(c.child.journal, c.sends, Compact)
    && ChildAfterRejection(c.root, c.sends)
  }

  function SendOf(place: Place, payload: Payload, a: Attempt): seq<Dispatch> {
    if a.sent.Some? then [Dispatch(place, payload, a.sent.value)] else []
  }

  /** A journal call keeps its folder consistent and cannot send from it again. */
  lemma AttemptKeepsPlace(files: Files, sends: seq<Dispatch>, place: Place, payload: Payload, a: Attempt)
    requires PlaceInv(files, sends, place) && JournalAttempt(files, payload, a)
    ensures PlaceInv(a.files, sends + SendOf(place, payload, a), place)
    ensures a.sent.Some? ==> forall i :: 0 <= i < |sends| ==> sends[i].place != place
  {
    var sends' := sends + SendOf(place, payload, a);
    if ResponseFile in files {
      var i :| 0 <= i < |sends| && sends[i].place == place && Explains(sends[i], files);
      assert Explains(sends'[i], a.files);
    } else if ResponseFile in a.files {
      assert Explains(sends'[|sends|], a.files);
    }
  }

  lemma SendElsewhereKeepsPlace(files: Files, sends: seq<Dispatch>, place: Place, d: Dispatch)
    requires PlaceInv(files, sends, place) && d.place != place
    ensures PlaceInv(files, sends + [d], place)
  {
    if ResponseFile in files {
      var i :| 0 <= i < |sends| && sends[i].place == place && Explains(sends[i], files);
      assert Explains((sends + [d])[i], files);
    }
  }

  lemma CallKeepsInv(c: Case, source: Payload, c': Case, answer: Answer)
    requires Inv(c) && TransportCall(c, source, c', answer)
    ensures Inv(c')
  {
    if c'.sends == c.sends {
      var a :| JournalStep(c, source, a) && a.sent.None? && c'.child.journal == a.files;
      if a != Attempt(c.child.journal, None, None) {
        var payload := CompactPayload(source).value;
        AttemptKeepsPlace(c.child.journal, c.sends, Compact, payload, a);
        assert c.sends + SendOf(Compact, payload, a) == c.sends;
      }
    } else {
      var payload := CompactPayload(source).value;
      var a :| JournalStep(c, source, a) && a.sent.Some? && c'.child.journal == a.files
               && c'.sends == c.sends + [Dispatch(Compact, payload, a.sent.value)];
      AttemptKeepsPlace(c.child.journal, c.sends, Compact, payload, a);
      SendElsewhereKeepsPlace(c.root, c.sends, Root, Dispatch(Compact, payload, a.sent.value));
      NewChildSend(c, source, Dispatch(Compact, payload, a.sent.value));
    }
  }

  lemma NewChildSend(c: Case, source: Payload, d: Dispatch)
    requires Inv(c) && MayUseChild(c.root, source) && d.place == Compact
    requires forall i :: 0 <= i < |c.sends| ==> c.sends[i].place != Compact
    ensures OncePerPlace(c.sends + [d]) && ChildAfterRejection(c.root, c.sends + [d])
  {
    forall i | 0 <= i < |c.sends| && c.sends[i].place == Root ensures RejectedForLength(c.root) {
      assert SentFrom(c.sends[i], c.root);
    }
  }

  /** One journal call on the root folder, from before the transport was used. */
  datatype RootCall = RootCall(payload: Payload, attempt: Attempt)

  ghost predicate RootHistory(calls: seq<RootCall>, c: Case) {
    if calls == [] then c == Case(map[], Child(map[], Missing, Missing, Missing), [])
    else
      var last := calls[|calls| - 1];
      exists before: Case ::
        && RootHistory(calls[..|calls| - 1], before)
        && JournalAttempt(before.root, last.payload, last.attempt)
        && c == before.(root := last.attempt.files, sends := before.sends + RootSend(last))
  }

  function RootSend(call: RootCall): seq<Dispatch> {
    SendOf(Root, call.payload, call.attempt)
  }

  lemma {:induction false} RootHistoryInv(calls: seq<RootCall>, c: Case)
    requires RootHistory(calls, c)
    ensures Inv(c) && c.child == Child(map[], Missing, Missing, Missing)
    ensures forall i :: 0 <= i < |c.sends| ==> c.sends[i].place == Root
  {
    if calls != [] {
      var last := calls[|calls| - 1];
      var before :| RootHistory(calls[..|calls| - 1], before)
                    && JournalAttempt(before.root, last.payload, last.attempt)
                    && c == before.(root := last.attempt.files, sends := before.sends + RootSend(last));
      RootHistoryInv(calls[..|calls| - 1], before);
      AttemptKeepsPlace(before.root, before.sends, Root, last.payload, last.attempt);
      if last.attempt.sent.Some? {
        SendElsewhereKeepsPlace(before.child.journal, before.sends, Compact, RootSend(last)[0]);
      }
    }
  }

  /** One call of the transport, the case after it and what it answered. */
  datatype Episode = Episode(source: Payload, after: Case, answer: Answer)

  function CaseBefore(start: Case, run: seq<Episode>, i: nat): Case
    requires i <= |run|
  {
    if i == 0 then start else run[i - 1].after
  }

  ghost predicate EpisodeAt(start: Case, run: seq<Episode>, i: nat)
    requires i < |run|
  {
    TransportCall(CaseBefore(start, run, i), run[i].source, run[i].after, run[i].answer)
  }

  ghost predicate TransportRun(start: Case, run: seq<Episode>) {
    forall i :: 0 <= i < |run| ==> EpisodeAt(start, run, i)
  }

  ghost predicate PaidSafely(c: Case) {
    && |c.sends| <= 2
    && (|c.sends| == 2 ==> c.sends[0].place == Root && c.sends[1].place == Compact && RejectedForLength(c.root))
    && (forall i, j :: 0 <= i < |c.sends| && 0 <= j < |c.sends| && Succeeded(c.sends[i]) && Succeeded(c.sends[j]) ==> i == j)
  }

  predicate Succeeded(d: Dispatch) {
    d.reply.Http? && d.reply.status == 200
  }

  lemma TwoPlaces(a: Place, b: Place, c: Place)
    ensures a == b || a == c || b == c
  {
  }

  lemma InvPaysSafely(c: Case)
    requires Inv(c)
    ensures PaidSafely(c)
  {
    if |c.sends| == 2 { assert c.sends[0].place != c.sends[1].place; }
    if |c.sends| > 2 { TwoPlaces(c.sends[0].place, c.sends[1].place, c.sends[2].place); }
  }

  lemma {:induction false} RunKeepsInv(start: Case, run: seq<Episode>, i: nat)
    requires Inv(start) && TransportRun(start, run) && i <= |run|
    ensures Inv(CaseBefore(start, run, i))
  {
    if i > 0 {
      RunKeepsInv(start, run, i - 1);
      assert EpisodeAt(start, run, i - 1);
      CallKeepsInv(CaseBefore(start, run, i - 1), run[i - 1].source, run[i - 1].after, run[i - 1].answer);
    }
  }

  /** Over every root history and every later use of the transport, crashes included:
      at most two sends; the second only from the child and only after the root's stored
      length rejection; at most one of them answered 200. */
  lemma TransportPaysSafely(history: seq<RootCall>, start: Case, run: seq<Episode>, i: nat)
    requires RootHistory(history, start) && TransportRun(start, run) && i <= |run|
    ensures PaidSafely(CaseBefore(start, run, i))
  {
    RootHistoryInv(history, start);
    RunKeepsInv(start, run, i);
    InvPaysSafely(CaseBefore(start, run, i));
  }

  /** A call on a case that holds a receipt. */
  lemma HeldBlocksSending(c: Case, r: Receipt, source: Payload, c': Case, answer: Answer)
    requires Holds(c, r) && TransportCall(c, source, c', answer)
    ensures c'.sends == c.sends && Holds(c', r)
    ensures answer.Answered? ==> answer.receipt == r
  {
    if c'.sends == c.sends {
      var a :| JournalStep(c, source, a) && a.sent.None? && c'.child.journal == a.files;
    }
  }

  lemma {:induction false} HeldToTheEnd(start: Case, run: seq<Episode>, i: nat, j: nat, r: Receipt)
    requires TransportRun(start, run) && i <= j < |run| && Holds(run[i].after, r)
    ensures Holds(run[j].after, r) && run[j].after.sends == run[i].after.sends
    ensures i < j && run[j].answer.Answered? ==> run[j].answer.receipt == r
    decreases j
  {
    hide TransportCall, Holds;
    if i < j {
      HeldToTheEnd(start, run, i, j - 1, r);
      assert EpisodeAt(start, run, j);
      HeldBlocksSending(run[j - 1].after, r, run[j].source, run[j].after, run[j].answer);
    }
  }

  /** Once a receipt has been answered, nothing is ever sent again, and every later call
      answers that same receipt or fails. */
  lemma AnswersAreFinal(start: Case, run: seq<Episode>, i: nat, j: nat)
    requires TransportRun(start, run) && i < j < |run| && run[i].answer.Answered?
    ensures run[j].after.sends == run[i].after.sends
    ensures run[j].answer.Answered? ==> run[j].answer.receipt == run[i].answer.receipt
  {
    assert EpisodeAt(start, run, i);
    HeldToTheEnd(start, run, i, j, run[i].answer.receipt);
  }
}
