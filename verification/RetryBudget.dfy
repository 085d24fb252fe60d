/** The second counter over paid generations: `budget` of scripts/retry_prod2_llm1.py, and the
    one-shot retry it guards. */
module RetryBudget {
  import opened Common
  import opened AttemptAudit

  /** A receipt tree and whether it holds a retry permit. */
  datatype Root = Root(files: seq<File>, permit: bool)

  type Roots = map<string, Root>

  const PREFIX := "gemini-selected-"

  predicate HexChar(c: char) { '0' <= c <= '9' || 'a' <= c <= 'f' }

  predicate GeminiId(id: string) {
    |id| == 48 && PREFIX <= id && forall i :: 16 <= i < 48 ==> HexChar(id[i])
  }

  /** A receipt that shows a generation began. */
  predicate Evidence(f: File) {
    PREFIX <= f.stem && (f.part != Outcome || f.receipt.modelStarted)
  }

  predicate IdOk(f: File) { GeminiId(f.receipt.id) && f.stem == f.receipt.id }

  predicate LocalOk(files: seq<File>) {
    forall i :: 0 <= i < |files| && Evidence(files[i]) ==> IdOk(files[i])
  }

  function Local(files: seq<File>): (r: set<string>)
    ensures forall id :: id in r <==> exists i :: 0 <= i < |files| && Evidence(files[i]) && files[i].receipt.id == id
  {
    set i | 0 <= i < |files| && Evidence(files[i]) :: files[i].receipt.id
  }

  ghost predicate NoCopies(roots: Roots) {
    forall a, b :: a in roots && b in roots && a != b ==> Local(roots[a].files) !! Local(roots[b].files)
  }

  ghost function Ids(roots: Roots, names: set<string>): set<string>
    requires names <= roots.Keys
  {
    set r, id | r in names && id in Local(roots[r].files) :: id
  }

  /** Permits published without an attempt: a kill in between still consumes them. */
  function Unstarted(roots: Roots, source: string, names: set<string>): set<string>
    requires names <= roots.Keys
  {
    set r | r in names && r != source && roots[r].permit && Local(roots[r].files) == {}
  }

  ghost predicate Countable(roots: Roots) {
    NoCopies(roots) && forall r :: r in roots ==> LocalOk(roots[r].files)
  }

  ghost function Budget(roots: Roots, source: string): Option<nat> {
    if Countable(roots) then Some(|Ids(roots, roots.Keys)| + |Unstarted(roots, source, roots.Keys)|) else None
  }

  /** A receipt of the one model that shows a generation began, and an id it could have given. */
  ghost predicate Shown(f: File) {
    |f.stem| >= 16 && f.stem[..16] == "gemini-selected-" && (f.part == Outcome ==> f.receipt.modelStarted)
  }

  ghost predicate Canonical(id: string) {
    |id| == 48 && id[..16] == "gemini-selected-" && forall i :: 16 <= i < 48 ==> id[i] in "0123456789abcdef"
  }

  lemma HexIs(c: char)
    ensures HexChar(c) <==> c in "0123456789abcdef"
  {
    assert "0123456789abcdef"[..10] + "0123456789abcdef"[10..] == "0123456789abcdef";
  }

  lemma ShownIs(f: File)
    ensures Shown(f) <==> Evidence(f)
  {
  }

  lemma CanonicalIs(id: string)
    ensures Canonical(id) <==> GeminiId(id)
  {
    forall c ensures HexChar(c) <==> c in "0123456789abcdef" { HexIs(c); }
    hide HexChar;
  }

  ghost predicate ShownIn(files: seq<File>, id: string) {
    exists i :: 0 <= i < |files| && Shown(files[i]) && files[i].receipt.id == id
  }

  /** A shown generation whose id is not canonical, or not its file's name. */
  ghost predicate Misnamed(files: seq<File>) {
    exists i :: 0 <= i < |files| && Shown(files[i]) && !(Canonical(files[i].receipt.id) && files[i].stem == files[i].receipt.id)
  }

  lemma LocalIs(files: seq<File>)
    ensures forall id :: id in Local(files) <==> ShownIn(files, id)
    ensures LocalOk(files) <==> !Misnamed(files)
  {
    forall f: File ensures Shown(f) <==> Evidence(f) { ShownIs(f); }
    forall id ensures Canonical(id) <==> GeminiId(id) { CanonicalIs(id); }
    hide Shown, Evidence, Canonical, GeminiId;
  }

  ghost predicate ShownTwice(roots: Roots) {
    exists a, b, id :: a in roots && b in roots && a != b && ShownIn(roots[a].files, id) && ShownIn(roots[b].files, id)
  }

  lemma CopiesAre(roots: Roots)
    ensures NoCopies(roots) <==> !ShownTwice(roots)
  {
    forall r | r in roots ensures forall id :: id in Local(roots[r].files) <==> ShownIn(roots[r].files, id) { LocalIs(roots[r].files); }
    hide ShownIn, Local;
    if a, b :| a in roots && b in roots && a != b && !(Local(roots[a].files) !! Local(roots[b].files)) {
      var id :| id in Local(roots[a].files) && id in Local(roots[b].files);
    }
  }

  /** The number is refused exactly for a misnamed generation, and for one shown in two roots. */
  lemma RefusedExactly(roots: Roots, source: string)
    ensures Budget(roots, source).None? <==> (exists r :: r in roots && Misnamed(roots[r].files)) || ShownTwice(roots)
  {
    CopiesAre(roots);
    forall r | r in roots ensures LocalOk(roots[r].files) <==> !Misnamed(roots[r].files) { LocalIs(roots[r].files); }
    hide ShownTwice, NoCopies, LocalOk, Local, Misnamed, Ids, Unstarted;
  }

  method LocalIds(files: seq<File>) returns (r: Option<set<string>>)
    ensures r == if LocalOk(files) then Some(Local(files)) else None
  {
    hide IdOk, Evidence;
    var local: set<string> := {};
    for i := 0 to |files|
      invariant forall j :: 0 <= j < i && Evidence(files[j]) ==> IdOk(files[j])
      invariant forall id :: id in local <==> exists j :: 0 <= j < i && Evidence(files[j]) && files[j].receipt.id == id
    {
      if Evidence(files[i]) {
        if !IdOk(files[i]) { return None; }
        local := local + {files[i].receipt.id};
      }
    }
    assert local == Local(files);
    return Some(local);
  }

  /** budget over the accepted roots, in any order. */
  method CountBudget(roots: Roots, source: string) returns (r: Option<nat>)
    ensures r == Budget(roots, source)
  {
    hide LocalOk, Local, Ids, Unstarted;
    var attempts: set<string>, unstarted: nat := {}, 0;
    var done: set<string> := {};
    NothingCounted(roots, source);
    while done != roots.Keys
      invariant done <= roots.Keys && attempts == Ids(roots, done) && unstarted == |Unstarted(roots, source, done)|
      invariant forall a :: a in done ==> LocalOk(roots[a].files)
      invariant CopyFree(roots, done)
      decreases roots.Keys - done
    {
      assert roots.Keys - done != {};
      var name :| name in roots.Keys - done;
      var local := LocalIds(roots[name].files);
      if local.None? { assert !LocalOk(roots[name].files); return None; }
      if attempts * local.value != {} {
        CopyFound(roots, done, name);
        return None;
      }
      StepSets(roots, source, done, name);
      if name != source && roots[name].permit && local.value == {} { unstarted := unstarted + 1; }
      attempts := attempts + local.value;
      done := done + {name};
    }
    return Some(|attempts| + unstarted);
  }

  lemma NothingCounted(roots: Roots, source: string)
    ensures Ids(roots, {}) == {} && Unstarted(roots, source, {}) == {}
  {
  }

  ghost predicate CopyFree(roots: Roots, done: set<string>)
    requires done <= roots.Keys
  {
    forall a, b :: a in done && b in done && a != b ==> Local(roots[a].files) !! Local(roots[b].files)
  }

  lemma CopyFound(roots: Roots, done: set<string>, name: string)
    requires done <= roots.Keys && name in roots.Keys - done && Ids(roots, done) * Local(roots[name].files) != {}
    ensures !NoCopies(roots)
  {
  }

  lemma StepSets(roots: Roots, source: string, done: set<string>, name: string)
    requires done <= roots.Keys && name in roots.Keys - done
    ensures Ids(roots, done + {name}) == Ids(roots, done) + Local(roots[name].files)
    ensures Unstarted(roots, source, done + {name})
            == Unstarted(roots, source, done)
               + if name != source && roots[name].permit && Local(roots[name].files) == {} then {name} else {}
    ensures name !in Unstarted(roots, source, done)
    ensures Ids(roots, done) !! Local(roots[name].files) <==>
              forall a :: a in done ==> Local(roots[a].files) !! Local(roots[name].files)
  {
  }

  // ----- The two counters agree ---------------------------------------------------------------

  predicate GeminiOnly(roots: Roots) {
    forall r :: r in roots ==> forall i :: 0 <= i < |roots[r].files| ==>
      roots[r].files[i].kind == ModelFile && PREFIX <= roots[r].files[i].stem && roots[r].files[i].stem == roots[r].files[i].receipt.id
  }

  function TreesOf(roots: Roots): Trees { map r | r in roots :: roots[r].files }

  ghost predicate Lists(names: seq<string>, roots: Roots) { forall r :: r in names <==> r in roots }

  function Called(m: Ledger, s: set<Attempt>): set<Attempt> { set a | a in s && ModelCalled(m, a) }

  lemma NothingTotal(m: Ledger)
    ensures Total(m, {}) == NOTHING && Called(m, {}) == {}
  {
  }

  lemma CalledStep(m: Ledger, s: set<Attempt>, a: Attempt)
    requires a in s
    ensures |Called(m, s)| == |Called(m, s - {a})| + if ModelCalled(m, a) then 1 else 0
  {
    hide ModelCalled;
    assert Called(m, s) == Called(m, s - {a}) + if ModelCalled(m, a) then {a} else {};
  }

  lemma {:induction false} CallsCounted(m: Ledger, s: set<Attempt>)
    requires forall a :: a in s ==> a.kind == ModelFile
    ensures Total(m, s).llm1Calls == |Called(m, s)|
    decreases |s|
  {
    hide Total, ModelCalled, Called, Tally;
    NothingTotal(m);
    if s != {} {
      var a :| a in s;
      CallTally(m, a);
      TotalPick(m, s, a);
      CallsCounted(m, s - {a});
      CalledStep(m, s, a);
    }
  }

  lemma CallTally(m: Ledger, a: Attempt)
    requires a.kind == ModelFile
    ensures Tally(m, a).llm1Calls == if ModelCalled(m, a) then 1 else 0
  {
  }

  function AsAttempts(ids: set<string>): set<Attempt> { set id | id in ids :: Attempt(ModelFile, id) }

  lemma {:induction false} SameCount(ids: set<string>)
    ensures |AsAttempts(ids)| == |ids|
    decreases |ids|
  {
    if ids != {} {
      var id :| id in ids;
      SameCount(ids - {id});
      assert AsAttempts(ids) == AsAttempts(ids - {id}) + {Attempt(ModelFile, id)};
      assert Attempt(ModelFile, id) !in AsAttempts(ids - {id});
    }
  }

  lemma EvidenceIsCall(m: Ledger, files: seq<File>, f: File)
    requires Represents(m, files) && f in files && f.kind == ModelFile && Evidence(f)
    ensures ModelCalled(m, Attempt(ModelFile, f.receipt.id))
  {
  }

  lemma CallHasEvidence(m: Ledger, files: seq<File>, a: Attempt) returns (f: File)
    requires Represents(m, files) && a.kind == ModelFile && ModelCalled(m, a)
    requires forall g :: g in files ==> PREFIX <= g.stem
    ensures f in files && Evidence(f) && KeyOf(f).attempt == a
  {
    var part := if PartOf(m, a, Started).Some? then Started else if PartOf(m, a, Response).Some? then Response else Outcome;
    assert Key(a, part) in m;
    f :| f in files && Counts(f) && KeyOf(f) == Key(a, part);
    assert m[KeyOf(f)] == f.receipt;
  }

  lemma FileInRoot(roots: Roots, names: seq<string>, f: File) returns (r: string)
    requires Lists(names, roots) && f in AllFiles(TreesOf(roots), Deduplicated(names))
    ensures r in roots && f in roots[r].files
  {
    FilesOf(TreesOf(roots), Deduplicated(names), f);
    DeduplicatedHas(names);
    r :| r in Deduplicated(names) && f in Tree(TreesOf(roots), r);
  }

  lemma RootFileListed(roots: Roots, names: seq<string>, r: string, f: File)
    requires Lists(names, roots) && r in roots && f in roots[r].files
    ensures f in AllFiles(TreesOf(roots), Deduplicated(names))
  {
    FilesOf(TreesOf(roots), Deduplicated(names), f);
    DeduplicatedHas(names);
    assert f in Tree(TreesOf(roots), r);
  }

  lemma GeminiFile(roots: Roots, names: seq<string>, f: File)
    requires GeminiOnly(roots) && Lists(names, roots) && f in AllFiles(TreesOf(roots), Deduplicated(names))
    ensures f.kind == ModelFile && PREFIX <= f.stem && f.stem == f.receipt.id
  {
    var r := FileInRoot(roots, names, f);
    var i :| 0 <= i < |roots[r].files| && roots[r].files[i] == f;
  }

  lemma CalledIsIds(roots: Roots, names: seq<string>, m: Ledger)
    requires GeminiOnly(roots) && Lists(names, roots)
    requires Represents(m, AllFiles(TreesOf(roots), Deduplicated(names)))
    ensures (forall a :: a in Attempts(m) ==> a.kind == ModelFile)
    ensures Called(m, Attempts(m)) == AsAttempts(Ids(roots, roots.Keys))
  {
    var files := AllFiles(TreesOf(roots), Deduplicated(names));
    forall f | f in files ensures f.kind == ModelFile && PREFIX <= f.stem && f.stem == f.receipt.id { GeminiFile(roots, names, f); }
    hide Evidence, ModelCalled, GeminiOnly, Represents, Attempts;
    forall a | a in Attempts(m) ensures a.kind == ModelFile { AttemptKind(m, files, a); }
    forall a | a in Called(m, Attempts(m)) ensures a in AsAttempts(Ids(roots, roots.Keys)) {
      var f := CallHasEvidence(m, files, a);
      var r := FileInRoot(roots, names, f);
      var i :| 0 <= i < |roots[r].files| && roots[r].files[i] == f;
      assert a.id in Local(roots[r].files);
    }
    forall id | id in Ids(roots, roots.Keys) ensures Attempt(ModelFile, id) in Called(m, Attempts(m)) {
      var r :| r in roots && id in Local(roots[r].files);
      var i :| 0 <= i < |roots[r].files| && Evidence(roots[r].files[i]) && roots[r].files[i].receipt.id == id;
      var f := roots[r].files[i];
      RootFileListed(roots, names, r, f);
      EvidenceIsCall(m, files, f);
      CallIsAttempt(m, Attempt(ModelFile, id));
    }
  }

  lemma AttemptKind(m: Ledger, files: seq<File>, a: Attempt)
    requires Represents(m, files) && a in Attempts(m) && forall f :: f in files ==> f.kind == ModelFile
    ensures a.kind == ModelFile
  {
  }

  lemma CallIsAttempt(m: Ledger, a: Attempt)
    requires ModelCalled(m, a)
    ensures a in Attempts(m)
  {
  }

  /** For histories of the one model, over roots that `budget` accepts: it is the audit's
      generation calls plus the permits issued without a start. */
  lemma BudgetIsAuditPlusPermits(roots: Roots, source: string, names: seq<string>)
    requires GeminiOnly(roots) && Lists(names, roots) && Budget(roots, source).Some?
    requires Audit(AllFiles(TreesOf(roots), Deduplicated(names))).Some?
    ensures Budget(roots, source).value
            == Audit(AllFiles(TreesOf(roots), Deduplicated(names))).value.llm1Calls + |Unstarted(roots, source, roots.Keys)|
  {
    var files := AllFiles(TreesOf(roots), Deduplicated(names));
    CollectIs(files);
    var m := Collect(files).value;
    hide Collect, Attempts, Represents, Called, AsAttempts;
    CalledIsIds(roots, names, m);
    CallsCounted(m, Attempts(m));
    SameCount(Ids(roots, roots.Keys));
  }

  // ----- The one-shot retry ---------------------------------------------------------------------

  /** `worker` is the retry root of the process that has just published its permit. */
  datatype State = State(roots: Roots, source: string, maxCalls: nat, worker: Option<string>)

  datatype Action =
    | Authorize(root: string, recovery: Option<(string, Root)>)
    | Permit(root: string)               // before_request
    | Start(id: string)                  // the SDK call begins
    | Answer(id: string, part: Part, receipt: Receipt)
    | Crash

  /** The frozen global maximum never exceeds ninety. */
  function GlobalMaximum(maxCalls: nat): nat { if maxCalls < 90 then maxCalls else 90 }

  function StartedFile(id: string): File {
    File(ModelFile, id, Started, Receipt(id, "gemini", true, None, None, None, None))
  }

  function WithFile(s: State, root: string, f: File): State
    requires root in s.roots
  {
    s.(roots := s.roots[root := s.roots[root].(files := s.roots[root].files + [f])])
  }

  ghost function Apply(s: State, a: Action): State {
    match a
    case Authorize(root, recovery) =>
      var added := if root in s.roots then s.roots else s.roots[root := Root([], false)];
      if recovery.None? || recovery.value.0 in added then s.(roots := added)
      else s.(roots := added[recovery.value.0 := recovery.value.1])
    case Permit(root) =>
      if root !in s.roots || root == s.source || s.roots[root].permit || s.roots[root].files != [] then s
      else if Budget(s.roots, s.source).None? || Budget(s.roots, s.source).value >= GlobalMaximum(s.maxCalls) then s
      else s.(roots := s.roots[root := s.roots[root].(permit := true)], worker := Some(root))
    case Start(id) =>
      if s.worker.None? || s.worker.value !in s.roots || s.roots[s.worker.value].files != [] then s
      else if !GeminiId(id) || id in Ids(s.roots, s.roots.Keys) then s
      else WithFile(s, s.worker.value, StartedFile(id))
    case Answer(id, part, receipt) =>
      if s.worker.None? || s.worker.value !in s.roots || id !in Local(s.roots[s.worker.value].files) || receipt.id != id then s
      else WithFile(s, s.worker.value, File(ModelFile, id, part, receipt))
    case Crash => s.(worker := None)
  }

  ghost function Exec(s: State, run: seq<Action>): State {
    if run == [] then s else Apply(Exec(s, run[..|run| - 1]), run[|run| - 1])
  }

  ghost predicate Inv(s: State) {
    && s.source in s.roots
    && (s.worker.Some? ==> s.worker.value in s.roots && s.worker.value != s.source && s.roots[s.worker.value].permit)
  }

  /** The authorization names a recovery folder that was not a root before. */
  predicate NewRecovery(s: State, a: Action) {
    a.Authorize? && a.recovery.Some? && a.recovery.value.0 !in s.roots && a.recovery.value.0 != a.root
  }

  /** Its receipts are well named and none of them is counted already. */
  ghost predicate Acceptable(s: State, a: Action) {
    NewRecovery(s, a) ==>
      LocalOk(a.recovery.value.1.files) && Local(a.recovery.value.1.files) !! Ids(s.roots, s.roots.Keys)
  }

  /** What it adds to the number. */
  function Brings(s: State, a: Action): nat {
    if !NewRecovery(s, a) then 0
    else
      var local := Local(a.recovery.value.1.files);
      |local| + if a.recovery.value.1.permit && local == {} then 1 else 0
  }

  lemma LocalOfMore(files: seq<File>, f: File)
    ensures Local(files + [f]) == Local(files) + if Evidence(f) then {f.receipt.id} else {}
  {
    var more := files + [f];
    forall id | id in Local(files) ensures id in Local(more) {
      var i :| 0 <= i < |files| && Evidence(files[i]) && files[i].receipt.id == id;
      assert more[i] == files[i];
    }
    if Evidence(f) { assert more[|files|] == f; }
  }

  function LocalAt(roots: Roots, root: string): set<string> {
    if root in roots then Local(roots[root].files) else {}
  }

  /** Only `root` differs, it only gains evidence, and none that another root holds. */
  ghost predicate Grows(roots: Roots, roots': Roots, root: string) {
    && root in roots' && roots' == roots[root := roots'[root]]
    && LocalAt(roots, root) <= LocalAt(roots', root)
    && forall id :: id in LocalAt(roots', root) && id in Ids(roots, roots.Keys) ==> id in LocalAt(roots, root)
  }

  lemma IdsAt(roots: Roots, id: string)
    ensures id in Ids(roots, roots.Keys) <==> exists r :: r in roots && id in LocalAt(roots, r)
  {
  }

  lemma GrownIds(roots: Roots, roots': Roots, root: string)
    requires Grows(roots, roots', root)
    ensures Ids(roots', roots'.Keys) == Ids(roots, roots.Keys) + LocalAt(roots', root)
  {
    hide Ids, Local;
    forall id ensures id in Ids(roots', roots'.Keys) <==> id in Ids(roots, roots.Keys) || id in LocalAt(roots', root) {
      IdsAt(roots, id);
      IdsAt(roots', id);
      if id in Ids(roots, roots.Keys) {
        var r :| r in roots && id in LocalAt(roots, r);
        assert r in roots' && (r != root ==> LocalAt(roots', r) == LocalAt(roots, r));
      }
      if id in Ids(roots', roots'.Keys) {
        var r :| r in roots' && id in LocalAt(roots', r);
        assert r != root ==> r in roots && LocalAt(roots', r) == LocalAt(roots, r);
      }
    }
  }

  lemma GrownCount(roots: Roots, roots': Roots, root: string)
    requires Grows(roots, roots', root)
    ensures |Ids(roots', roots'.Keys)| == |Ids(roots, roots.Keys)| + |LocalAt(roots', root)| - |LocalAt(roots, root)|
  {
    GrownIds(roots, roots', root);
    GrownOverlap(roots, roots', root);
    var all, after := Ids(roots, roots.Keys), LocalAt(roots', root);
    hide Ids, Grows, LocalAt;
    assert |all + after| == |all| + |after| - |all * after|;
  }

  lemma GrownOverlap(roots: Roots, roots': Roots, root: string)
    requires Grows(roots, roots', root)
    ensures Ids(roots, roots.Keys) * LocalAt(roots', root) == LocalAt(roots, root)
  {
  }

  lemma GrownCountable(roots: Roots, roots': Roots, root: string)
    requires Grows(roots, roots', root) && Countable(roots) && LocalOk(roots'[root].files)
    ensures Countable(roots')
  {
  }

  predicate IsUnstarted(roots: Roots, source: string, r: string) {
    r in roots && r != source && roots[r].permit && LocalAt(roots, r) == {}
  }

  lemma UnstartedMembers(roots: Roots, source: string)
    ensures forall r :: r in Unstarted(roots, source, roots.Keys) <==> IsUnstarted(roots, source, r)
  {
  }

  /** What changing one root does to the permits without a start. */
  lemma UnstartedWith(roots: Roots, roots': Roots, source: string, root: string)
    requires root in roots' && roots' == roots[root := roots'[root]]
    ensures |Unstarted(roots', source, roots'.Keys)|
            == |Unstarted(roots, source, roots.Keys)| - (if IsUnstarted(roots, source, root) then 1 else 0)
               + (if IsUnstarted(roots', source, root) then 1 else 0)
  {
    hide Unstarted, IsUnstarted;
    var u, u' := Unstarted(roots, source, roots.Keys), Unstarted(roots', source, roots'.Keys);
    forall r | r != root ensures r in u <==> r in u' {
      UnstartedMembers(roots, source);
      UnstartedMembers(roots', source);
      SameRoot(roots, roots', source, root, r);
    }
    assert root in u <==> IsUnstarted(roots, source, root) by { UnstartedMembers(roots, source); }
    assert root in u' <==> IsUnstarted(roots', source, root) by { UnstartedMembers(roots', source); }
    OneMember(u, u', root);
  }

  lemma SameRoot(roots: Roots, roots': Roots, source: string, root: string, r: string)
    requires root in roots' && roots' == roots[root := roots'[root]] && r != root
    ensures IsUnstarted(roots, source, r) == IsUnstarted(roots', source, r)
  {
  }

  lemma OneMember(u: set<string>, u': set<string>, x: string)
    requires forall r :: r != x ==> (r in u <==> r in u')
    ensures |u'| == |u| - (if x in u then 1 else 0) + (if x in u' then 1 else 0)
  {
    var rest := u - {x};
    assert u == rest || u == rest + {x};
    assert u' == rest || u' == rest + {x};
  }

  /** What growing one root does to the number. */
  lemma GrowthCounts(roots: Roots, roots': Roots, source: string, root: string)
    requires Grows(roots, roots', root) && Countable(roots) && LocalOk(roots'[root].files)
    ensures Countable(roots')
    ensures Budget(roots', source).value
            == Budget(roots, source).value + |LocalAt(roots', root)| - |LocalAt(roots, root)|
               + (if IsUnstarted(roots', source, root) then 1 else 0) - (if IsUnstarted(roots, source, root) then 1 else 0)
  {
    GrownCountable(roots, roots', root);
    GrownCount(roots, roots', root);
    UnstartedWith(roots, roots', source, root);
    hide Countable, Grows, LocalAt, LocalOk, Ids, Unstarted, IsUnstarted;
  }

  /** What a step does to the number: a permit adds one and only below the maximum, an
      authorization what its recovery folder brings, everything else nothing; and only an
      unacceptable recovery folder makes the number refuse to be computed. */
  lemma StepCounts(s: State, a: Action)
    requires Inv(s) && Countable(s.roots)
    ensures Countable(Apply(s, a).roots) <==> Acceptable(s, a)
    ensures
      var s' := Apply(s, a);
      var permits := if a.Permit? && s' != s then 1 else 0;
      && (permits == 1 ==> Budget(s.roots, s.source).value < GlobalMaximum(s.maxCalls))
      && (Acceptable(s, a) ==> Budget(s'.roots, s'.source) == Some(Budget(s.roots, s.source).value + Brings(s, a) + permits))
  {
    hide GeminiId, Countable, Local, LocalOk, Ids, Unstarted;
    match a
    case Authorize(root, _) =>
      if root !in s.roots { AuthorizeCounts(s, root); }
      if NewRecovery(s, a) { RecoveryCounts(s, a); }
    case Permit(root) => if Apply(s, a) != s { PermitCounts(s, root); }
    case Start(id) => if Apply(s, a) != s { StartCounts(s, id); }
    case Answer(id, part, receipt) => if Apply(s, a) != s { AnswerCounts(s, File(ModelFile, id, part, receipt)); }
    case Crash =>
  }

  function Added(s: State, root: string): Roots {
    if root in s.roots then s.roots else s.roots[root := Root([], false)]
  }

  lemma RecoveryApplied(s: State, a: Action)
    requires NewRecovery(s, a)
    ensures a.recovery.value.0 !in Added(s, a.root)
    ensures Apply(s, a).roots == Added(s, a.root)[a.recovery.value.0 := a.recovery.value.1]
  {
  }

  lemma RecoveryCounts(s: State, a: Action)
    requires Inv(s) && Countable(s.roots) && NewRecovery(s, a)
    requires Countable(Added(s, a.root)) && Budget(Added(s, a.root), s.source) == Budget(s.roots, s.source)
    ensures Countable(Apply(s, a).roots) <==> Acceptable(s, a)
    ensures Acceptable(s, a) ==> Budget(Apply(s, a).roots, s.source) == Some(Budget(s.roots, s.source).value + Brings(s, a))
  {
    var name, root := a.recovery.value.0, a.recovery.value.1;
    RecoveryApplied(s, a);
    hide Local, LocalOk, Ids, Countable, Budget, Apply, Added;
    if Acceptable(s, a) { RecoveryAdds(s, a.root, name, root); }
    else { RecoveryRefused(s, a.root, name, root); }
  }

  lemma RecoveryAdds(s: State, retry: string, name: string, root: Root)
    requires Inv(s) && Countable(Added(s, retry)) && name !in Added(s, retry)
    requires LocalOk(root.files) && Local(root.files) !! Ids(s.roots, s.roots.Keys)
    ensures Countable(Added(s, retry)[name := root])
    ensures Budget(Added(s, retry)[name := root], s.source)
            == Some(Budget(Added(s, retry), s.source).value + |Local(root.files)| + if root.permit && Local(root.files) == {} then 1 else 0)
  {
    var mid := Added(s, retry);
    var roots' := mid[name := root];
    assert s.source in mid;
    RecoveryGrows(s, retry, name, root);
    hide Local, LocalOk, Ids, Unstarted, Added, Countable, Budget, Grows;
    GrowthCounts(mid, roots', s.source, name);
  }

  lemma RecoveryGrows(s: State, retry: string, name: string, root: Root)
    requires name !in Added(s, retry) && Local(root.files) !! Ids(s.roots, s.roots.Keys)
    ensures Grows(Added(s, retry), Added(s, retry)[name := root], name)
  {
    AddedIds(s, retry);
    hide Local, Ids, Added;
  }

  lemma RecoveryRefused(s: State, retry: string, name: string, root: Root)
    requires name !in Added(s, retry) && !(LocalOk(root.files) && Local(root.files) !! Ids(s.roots, s.roots.Keys))
    ensures !Countable(Added(s, retry)[name := root])
  {
    var roots' := Added(s, retry)[name := root];
    assert name in roots' && roots'[name] == root;
    hide Local, LocalOk, Ids;
    if LocalOk(root.files) {
      var id :| id in Local(root.files) && id in Ids(s.roots, s.roots.Keys);
      IdsAt(s.roots, id);
      var r :| r in s.roots && id in LocalAt(s.roots, r);
      assert r in roots' && roots'[r] == s.roots[r] && r != name;
      assert !(Local(roots'[r].files) !! Local(roots'[name].files));
    }
  }

  lemma AddedIds(s: State, root: string)
    ensures Ids(Added(s, root), Added(s, root).Keys) == Ids(s.roots, s.roots.Keys)
  {
    var roots' := Added(s, root);
    assert Local([]) == {};
    hide Local, Ids;
    forall id ensures id in Ids(roots', roots'.Keys) <==> id in Ids(s.roots, s.roots.Keys) {
      IdsAt(roots', id);
      IdsAt(s.roots, id);
      assert forall r :: r in s.roots ==> r in roots' && LocalAt(roots', r) == LocalAt(s.roots, r);
      assert forall r :: r in roots' && id in LocalAt(roots', r) ==> r in s.roots;
    }
  }

  lemma AuthorizeCounts(s: State, root: string)
    requires Countable(s.roots) && root !in s.roots
    ensures
      var roots' := s.roots[root := Root([], false)];
      Countable(roots') && Budget(roots', s.source) == Budget(s.roots, s.source)
  {
    var roots' := s.roots[root := Root([], false)];
    EmptyRoot(roots', root);
    hide Local, LocalOk, Ids, Unstarted;
    GrowthCounts(s.roots, roots', s.source, root);
  }

  lemma EmptyRoot(roots: Roots, root: string)
    requires root in roots && roots[root].files == []
    ensures LocalAt(roots, root) == {} && LocalOk(roots[root].files)
  {
  }

  lemma PermitCounts(s: State, root: string)
    requires Countable(s.roots) && root in s.roots && root != s.source && !s.roots[root].permit && s.roots[root].files == []
    ensures
      var roots' := s.roots[root := s.roots[root].(permit := true)];
      Countable(roots') && Budget(roots', s.source) == Some(Budget(s.roots, s.source).value + 1)
  {
    var roots' := s.roots[root := s.roots[root].(permit := true)];
    EmptyRoot(s.roots, root);
    EmptyRoot(roots', root);
    hide Local, LocalOk, Ids, Unstarted;
    GrowthCounts(s.roots, roots', s.source, root);
  }

  lemma StartedRoot(id: string)
    requires GeminiId(id)
    ensures Local([StartedFile(id)]) == {id} && LocalOk([StartedFile(id)])
  {
    LocalOfMore([], StartedFile(id));
    assert [] + [StartedFile(id)] == [StartedFile(id)];
    assert Local([]) == {};
  }

  lemma StartCounts(s: State, id: string)
    requires Inv(s) && Countable(s.roots) && s.worker.Some? && s.roots[s.worker.value].files == [] && GeminiId(id) && id !in Ids(s.roots, s.roots.Keys)
    ensures
      var roots' := WithFile(s, s.worker.value, StartedFile(id)).roots;
      Countable(roots') && Budget(roots', s.source) == Budget(s.roots, s.source)
  {
    var root := s.worker.value;
    var roots' := WithFile(s, root, StartedFile(id)).roots;
    assert roots'[root].files == [StartedFile(id)];
    StartedRoot(id);
    EmptyRoot(s.roots, root);
    hide Local, LocalOk, Ids, Unstarted, GeminiId, StartedFile;
    GrowthCounts(s.roots, roots', s.source, root);
  }

  lemma AnsweredRoot(files: seq<File>, f: File)
    requires LocalOk(files) && f.receipt.id in Local(files) && f.stem == f.receipt.id
    ensures Local(files + [f]) == Local(files) && LocalOk(files + [f])
  {
    var i :| 0 <= i < |files| && Evidence(files[i]) && files[i].receipt.id == f.receipt.id;
    assert IdOk(files[i]);
    assert IdOk(f);
    LocalOfMore(files, f);
  }

  lemma AnswerCounts(s: State, f: File)
    requires Inv(s) && Countable(s.roots) && s.worker.Some? && f.stem == f.receipt.id
    requires f.receipt.id in Local(s.roots[s.worker.value].files)
    ensures
      var roots' := WithFile(s, s.worker.value, f).roots;
      Countable(roots') && Budget(roots', s.source) == Budget(s.roots, s.source)
  {
    var root := s.worker.value;
    var roots' := WithFile(s, root, f).roots;
    AnsweredRoot(s.roots[root].files, f);
    hide Local, LocalOk, Ids, Unstarted;
    GrowthCounts(s.roots, roots', s.source, root);
  }

  // ----- Once receipts are copied or misnamed ----------------------------------------------------

  ghost predicate Extends(roots: Roots, roots': Roots) {
    forall r :: r in roots ==> r in roots' && roots[r].files <= roots'[r].files
  }

  lemma ApplyExtends(s: State, a: Action)
    ensures Extends(s.roots, Apply(s, a).roots)
  {
    hide Local, Countable, Budget, Ids;
  }

  lemma LocalExtends(files: seq<File>, more: seq<File>)
    requires files <= more
    ensures Local(files) <= Local(more) && (LocalOk(more) ==> LocalOk(files))
  {
    forall id | id in Local(files) ensures id in Local(more) {
      var i :| 0 <= i < |files| && Evidence(files[i]) && files[i].receipt.id == id;
      assert more[i] == files[i];
    }
    forall i | 0 <= i < |files| ensures files[i] == more[i] { }
  }

  /** A history the number refuses stays refused, and no permit is ever given on it. */
  lemma UncountableStays(s: State, a: Action)
    requires !Countable(s.roots)
    ensures !Countable(Apply(s, a).roots) && (a.Permit? ==> Apply(s, a) == s)
  {
    var roots' := Apply(s, a).roots;
    ApplyExtends(s, a);
    hide Local, LocalOk, Apply;
    if Countable(roots') {
      forall r | r in s.roots ensures LocalOk(s.roots[r].files) { LocalExtends(s.roots[r].files, roots'[r].files); }
      forall p, q | p in s.roots && q in s.roots && p != q ensures Local(s.roots[p].files) !! Local(s.roots[q].files) {
        LocalExtends(s.roots[p].files, roots'[p].files);
        LocalExtends(s.roots[q].files, roots'[q].files);
      }
    }
    assert a.Permit? ==> Apply(s, a) == s by { RefusedPermit(s, a); }
  }

  lemma RefusedPermit(s: State, a: Action)
    requires !Countable(s.roots)
    ensures a.Permit? ==> Apply(s, a) == s
  {
  }

  // ----- Whole runs ------------------------------------------------------------------------------

  ghost predicate Within(s: State) {
    Budget(s.roots, s.source).Some? ==> Budget(s.roots, s.source).value <= GlobalMaximum(s.maxCalls)
  }

  /** A countable authorization leaves room for what it brings. */
  ghost predicate Fits(s: State, a: Action) {
    a.Authorize? && Countable(s.roots) && Acceptable(s, a) ==>
      Budget(s.roots, s.source).value + Brings(s, a) <= GlobalMaximum(s.maxCalls)
  }

  lemma ApplyKeepsInv(s: State, a: Action)
    requires Inv(s)
    ensures Inv(Apply(s, a)) && Apply(s, a).maxCalls == s.maxCalls && Apply(s, a).source == s.source
  {
    hide Local, Countable, Budget, Ids;
  }

  lemma StepWithin(s: State, a: Action)
    requires Inv(s) && Within(s)
    ensures Within(Apply(s, a)) <==> Fits(s, a)
  {
    ApplyKeepsInv(s, a);
    hide Apply, Acceptable, Countable;
    if Countable(s.roots) { StepCounts(s, a); } else { UncountableStays(s, a); }
    assert !a.Authorize? ==> Acceptable(s, a) && Brings(s, a) == 0 by { OthersBringNothing(s, a); }
  }

  lemma OthersBringNothing(s: State, a: Action)
    ensures !a.Authorize? ==> Acceptable(s, a) && Brings(s, a) == 0
  {
  }

  lemma ExecStep(s: State, run: seq<Action>, i: nat)
    requires i < |run|
    ensures Exec(s, run[..i + 1]) == Apply(Exec(s, run[..i]), run[i])
  {
    assert run[..i + 1][..i] == run[..i];
  }

  lemma {:induction false} ExecKeepsInv(s: State, run: seq<Action>)
    requires Inv(s)
    ensures Inv(Exec(s, run)) && Exec(s, run).maxCalls == s.maxCalls && Exec(s, run).source == s.source
  {
    hide Apply;
    if run != [] {
      ExecKeepsInv(s, run[..|run| - 1]);
      ApplyKeepsInv(Exec(s, run[..|run| - 1]), run[|run| - 1]);
    }
  }

  lemma {:induction false} FitsKeepWithin(s: State, run: seq<Action>, k: nat)
    requires Inv(s) && Within(s) && k <= |run| && forall i :: 0 <= i < |run| ==> Fits(Exec(s, run[..i]), run[i])
    ensures Within(Exec(s, run[..k]))
  {
    hide Apply, Within, Fits;
    if k > 0 {
      FitsKeepWithin(s, run, k - 1);
      ExecKeepsInv(s, run[..k - 1]);
      ExecStep(s, run, k - 1);
      StepWithin(Exec(s, run[..k - 1]), run[k - 1]);
    }
  }

  /** However many retries are authorized, interrupted and repeated: the counted generations
      stay within the frozen maximum throughout exactly when they did at the start and every
      authorization left room for what its recovery folder brings.  One that brings nothing
      always does. */
  lemma RetriesRespectMaximum(s: State, run: seq<Action>)
    requires Inv(s)
    ensures (forall k :: 0 <= k <= |run| ==> Within(Exec(s, run[..k])))
            <==> Within(s) && forall i :: 0 <= i < |run| ==> Fits(Exec(s, run[..i]), run[i])
    ensures GlobalMaximum(s.maxCalls) <= 90
  {
    assert run[..0] == [] && Exec(s, []) == s;
    hide Apply, Within, Fits, Exec;
    if forall k :: 0 <= k <= |run| ==> Within(Exec(s, run[..k])) {
      forall i | 0 <= i < |run| ensures Fits(Exec(s, run[..i]), run[i]) {
        ExecKeepsInv(s, run[..i]);
        ExecStep(s, run, i);
        assert Within(Exec(s, run[..i])) && Within(Exec(s, run[..i + 1]));
        StepWithin(Exec(s, run[..i]), run[i]);
      }
    }
    if Within(s) && forall i :: 0 <= i < |run| ==> Fits(Exec(s, run[..i]), run[i]) {
      forall k | 0 <= k <= |run| ensures Within(Exec(s, run[..k])) { FitsKeepWithin(s, run, k); }
    }
  }

  // ----- One shot --------------------------------------------------------------------------------

  lemma ShotStep(s: State, root: string, a: Action)
    requires root in s.roots && s.roots[root].permit && s.worker != Some(root)
    ensures root in Apply(s, a).roots && Apply(s, a).roots[root] == s.roots[root] && Apply(s, a).worker != Some(root)
  {
    hide Local, Countable, Budget, Ids;
  }

  /** A folder whose permit was published by a process now gone never changes again: no run
      permits it, starts in it or answers into it. */
  lemma {:induction false} OneShot(s: State, root: string, run: seq<Action>)
    requires root in s.roots && s.roots[root].permit && s.worker != Some(root)
    ensures root in Exec(s, run).roots && Exec(s, run).roots[root] == s.roots[root] && Exec(s, run).worker != Some(root)
  {
    hide Apply;
    if run != [] {
      OneShot(s, root, run[..|run| - 1]);
      ShotStep(Exec(s, run[..|run| - 1]), root, run[|run| - 1]);
    }
  }

  predicate AtMostOne(s: State, root: string) { |LocalAt(s.roots, root)| <= 1 }

  /** The folder is a retry folder and not brought in as somebody's recovery. */
  predicate NeverBrought(run: seq<Action>, root: string) {
    forall i :: 0 <= i < |run| && run[i].Authorize? && run[i].recovery.Some? ==> run[i].recovery.value.0 != root
  }

  lemma StartedOnce(s: State, root: string, id: string)
    requires AtMostOne(s, root)
    ensures AtMostOne(Apply(s, Start(id)), root)
  {
    hide Ids, GeminiId, Local, Evidence;
    assert [] + [StartedFile(id)] == [StartedFile(id)];
    LocalOfMore([], StartedFile(id));
    NothingLocal();
  }

  lemma NothingLocal()
    ensures Local([]) == {}
  {
  }

  lemma AnsweredOnce(s: State, root: string, id: string, part: Part, receipt: Receipt)
    requires AtMostOne(s, root)
    ensures AtMostOne(Apply(s, Answer(id, part, receipt)), root)
  {
    hide Local, Evidence;
    if s.worker.Some? && s.worker.value in s.roots {
      var files := s.roots[s.worker.value].files;
      LocalOfMore(files, File(ModelFile, id, part, receipt));
      if id in Local(files) { OneAgain(Local(files), id); }
    }
  }

  lemma GenerationStep(s: State, root: string, a: Action)
    requires AtMostOne(s, root) && (a.Authorize? && a.recovery.Some? ==> a.recovery.value.0 != root)
    ensures AtMostOne(Apply(s, a), root)
  {
    hide Countable, Budget, Ids, GeminiId, Local;
    NothingLocal();
    match a
    case Start(id) => StartedOnce(s, root, id);
    case Answer(id, part, receipt) => AnsweredOnce(s, root, id, part, receipt);
    case _ =>
  }

  lemma OneAgain(ids: set<string>, id: string)
    requires id in ids
    ensures ids + {id} == ids
  {
  }

  /** At most one generation ever starts in a retry folder, whatever happens to its process. */
  lemma {:induction false} OneGeneration(s: State, root: string, run: seq<Action>)
    requires AtMostOne(s, root) && NeverBrought(run, root)
    ensures AtMostOne(Exec(s, run), root)
  {
    hide Apply, AtMostOne;
    if run != [] {
      OneGeneration(s, root, run[..|run| - 1]);
      GenerationStep(Exec(s, run[..|run| - 1]), root, run[|run| - 1]);
    }
  }

  const ORIGINAL := "gemini-selected-00000000000000000000000000000000"
  const OTHER := "gemini-selected-11111111111111111111111111111111"

  lemma IdsFormed()
    ensures GeminiId(ORIGINAL) && GeminiId(OTHER) && ORIGINAL != OTHER
  {
    assert ORIGINAL[16] != OTHER[16];
  }

  /** One call in the source and nothing else. */
  lemma OneCall(roots: Roots, source: string, id: string)
    requires roots == map[source := Root([StartedFile(id)], false)] && GeminiId(id)
    ensures Ids(roots, roots.Keys) == {id} && Local(roots[source].files) == {id}
    ensures Countable(roots) && Budget(roots, source) == Some(1)
  {
    StartedRoot(id);
    hide GeminiId, StartedFile, Local, LocalOk;
    forall x ensures x in Ids(roots, roots.Keys) <==> x == id {
      IdsAt(roots, x);
      assert source in roots;
    }
    assert Unstarted(roots, source, roots.Keys) == {};
  }

  /** An authorization can exceed the maximum: a run whose one allowed call was made, and a
      recovery folder that holds another. */
  lemma RecoveryCanOverflow() returns (s: State, a: Action)
    ensures Inv(s) && s.maxCalls == 1 && Local(s.roots[s.source].files) == {ORIGINAL} && a.Authorize?
    ensures Within(s) && !Within(Apply(s, a))
  {
    IdsFormed();
    StartedRoot(OTHER);
    s := State(map["run" := Root([StartedFile(ORIGINAL)], false)], "run", 1, None);
    a := Authorize("retry", Some(("recovery", Root([StartedFile(OTHER)], false))));
    OneCall(s.roots, "run", ORIGINAL);
    hide GeminiId, StartedFile, Local, LocalOk, Ids, Countable, Budget, Apply;
    assert NewRecovery(s, a) && Acceptable(s, a) && Brings(s, a) == 1;
    StepCounts(s, a);
    ApplyKeepsInv(s, a);
  }
}
