/** Whole runs of scripts/run_dinaut_sector_matches.py over one folder: coordinators that
    start, rebind every saved answer, score cases, explain groups of them in parallel, publish,
    fail and die, in any order the program allows.  What is on the disk survives them. */
module SectorRun {
  import opened Common
  import opened SharedBatch
  import opened Costs

  /** A coordinator before its loop, with the saved answers it has still to rebind; or in it,
      with the cases it has scored, those of them not in a group, and the groups in flight. */
  datatype Phase =
    | Down
    | Rebinding(todo: seq<string>)
    | Up(scored: set<string>, waiting: set<string>, flying: set<string>)

  /** `published` holds the cost each published case was stored with. */
  datatype State = State(
    folders: map<string, Folder>, proofs: map<string, Proof>, bindings: map<string, Binding>,
    receipts: map<string, CaseReceipt>, published: map<string, nat>, phase: Phase)

  datatype Action =
    | Start(order: seq<string>)                // the saved answers, as they are listed
    | Rebind(lives: nat)
    | Begin
    | Score(key: string, scoring: CaseReceipt)
    | Group(name: string, plan: Plan)          // execute_batch up to the token count
    | Split(name: string)                      // the count is over the budget
    | Answer(name: string, receipt: SharedBatch.Receipt)
    | Bind(name: string, lives: nat)
    | Publish(key: string)
    | End                                      // an error, a hold, a death, or the end of the work

  const EMPTY := State(map[], map[], map[], map[], map[], Down)

  predicate Saved(folders: map<string, Folder>, name: string) {
    name in folders && folders[name].receipt.Some?
  }

  /** The glob over the saved answers. */
  ghost predicate ListsSaved(order: seq<string>, folders: map<string, Folder>) {
    forall name :: name in order <==> Saved(folders, name)
  }

  predicate Priced(receipts: map<string, CaseReceipt>, key: string) {
    key in receipts && receipts[key].Receipt? && receipts[key].tokens.Some?
  }

  /** A saved scoring answer is final. */
  function Scored(receipts: map<string, CaseReceipt>, key: string, receipt: CaseReceipt): map<string, CaseReceipt> {
    if key in receipts && receipts[key].Receipt? then receipts else receipts[key := receipt]
  }

  ghost function Bound(s: State, x: Context, name: string, lives: nat): (State, bool)
    requires name in s.folders
  {
    var so := BindFolder(s.folders, s.proofs, s.bindings, name, x, lives);
    (s.(proofs := so.0, bindings := so.1), so.2)
  }

  /** A group is made of scored cases that are in no other; its folder carries the plan. */
  predicate GroupOf(s: State, plan: Plan) {
    s.phase.Up? && plan.keys != [] && Distinct(plan.keys) && forall k :: k in plan.keys ==> k in s.phase.waiting
  }

  function KeySet(keys: seq<string>): set<string> { set k | k in keys }

  ghost function Apply(x: Context, s: State, a: Action): State {
    match a
    case Start(order) => if s.phase.Down? && ListsSaved(order, s.folders) then s.(phase := Rebinding(order)) else s
    case Rebind(lives) =>
      if !s.phase.Rebinding? || s.phase.todo == [] || s.phase.todo[0] !in s.folders then s
      else
        var so := Bound(s, x, s.phase.todo[0], lives);
        so.0.(phase := if so.1 then Rebinding(s.phase.todo[1..]) else Down)
    case Begin => if s.phase == Rebinding([]) then s.(phase := Up({}, {}, {})) else s
    case Score(key, scoring) =>
      if !s.phase.Up? || key !in x.items || key in s.phase.scored || key in s.bindings || key in s.published then s
      else s.(receipts := Scored(s.receipts, key, scoring),
              phase := Up(s.phase.scored + {key}, s.phase.waiting + {key}, s.phase.flying))
    case Group(name, plan) =>
      if !GroupOf(s, plan) || (name in s.folders && s.folders[name].plan != plan) then s
      else s.(folders := if name in s.folders then s.folders else s.folders[name := Folder(plan, plan.request, None)],
              phase := Up(s.phase.scored, s.phase.waiting - KeySet(plan.keys), s.phase.flying + {name}))
    case Split(name) =>
      if !s.phase.Up? || name !in s.phase.flying || name !in s.folders || Saved(s.folders, name) then s
      else s.(phase := Up(s.phase.scored, s.phase.waiting + KeySet(s.folders[name].plan.keys), s.phase.flying - {name}))
    case Answer(name, receipt) =>
      if !s.phase.Up? || name !in s.phase.flying || name !in s.folders || Saved(s.folders, name) then s
      else s.(folders := s.folders[name := s.folders[name].(receipt := Some(receipt))])
    case Bind(name, lives) =>
      if !s.phase.Up? || name !in s.phase.flying || !Saved(s.folders, name) then s
      else Bound(s, x, name, lives).0.(phase := Up(s.phase.scored, s.phase.waiting, s.phase.flying - {name}))
    case Publish(key) =>
      if !s.phase.Up? || key in s.published || key !in s.bindings || !Priced(s.receipts, key) then s
      else s.(published := s.published[key := PublishedCost(s.receipts, s.bindings, key)])
    case End => s.(phase := Down)
  }

  ghost function Exec(x: Context, s: State, run: seq<Action>): State {
    if run == [] then s else Apply(x, Exec(x, s, run[..|run| - 1]), run[|run| - 1])
  }

  /** The cases of a split group can be grouped again, and a group that was split or bound is
      out of flight. */
  lemma LeavesFlight(x: Context, s: State, name: string, lives: nat, part: Plan)
    requires s.phase.Up? && name in s.phase.flying && name in s.folders
    ensures
      var split := Apply(x, s, Split(name));
      !Saved(s.folders, name) ==>
        && split.phase.Up? && split.phase.flying == s.phase.flying - {name} && split.folders == s.folders
        && (part.keys != [] && Distinct(part.keys) && (forall k :: k in part.keys ==> k in s.folders[name].plan.keys) ==> GroupOf(split, part))
    ensures
      var bound := Apply(x, s, Bind(name, lives));
      Saved(s.folders, name) ==> bound.phase.Up? && bound.phase.flying == s.phase.flying - {name} && bound.phase.waiting == s.phase.waiting
  {
    hide Bound;
  }

  // ----- What every run keeps ----------------------------------------------------------------------

  /** The answer is saved, or its group is in flight. */
  predicate Live(s: State, name: string) {
    name in s.folders && (Saved(s.folders, name) || (s.phase.Up? && name in s.phase.flying))
  }

  predicate Apart(a: seq<string>, b: seq<string>) { forall k :: k in a ==> k !in b }

  /** No case is in two live groups, or in one and waiting for one. */
  ghost predicate Disjoint(s: State) {
    && (forall a, b :: Live(s, a) && Live(s, b) && a != b ==> Apart(s.folders[a].plan.keys, s.folders[b].plan.keys))
    && (s.phase.Up? ==> forall a, k :: Live(s, a) && k in s.phase.waiting ==> k !in s.folders[a].plan.keys)
  }

  /** A case of a live group is bound or was scored by this coordinator, which alone can group it. */
  ghost predicate Accounted(s: State) {
    s.phase.Up? ==>
      && s.phase.waiting <= s.phase.scored
      && forall a, k :: Live(s, a) && k in s.folders[a].plan.keys ==>
           k in s.phase.scored || (k in s.bindings && a !in s.phase.flying)
  }

  /** Every folder holds a plan of prepared cases. */
  ghost predicate Planned(x: Context, s: State) {
    && (forall name :: name in s.folders ==>
          s.folders[name].plan.keys != [] && Distinct(s.folders[name].plan.keys) && forall k :: k in s.folders[name].plan.keys ==> k in x.items)
    && (s.phase.Up? ==> forall k :: k in s.phase.scored ==> k in x.items)
  }

  /** The folder decodes and its proof, if it needs one, is written. */
  ghost predicate Anchored(folders: map<string, Folder>, proofs: map<string, Proof>, name: string, x: Context) {
    && Readable(folders, name, x) && WholeOf(folders, name, x).Some?
    && var made := ProofFor(folders[name].receipt.value, folders[name].plan, WholeOf(folders, name, x).value);
       made.Some? ==> name in proofs && proofs[name] == made.value
  }

  /** Every binding is one that its folder gives, and that folder decodes. */
  ghost predicate Grounded(x: Context, s: State) {
    && Genuine(s.folders, s.bindings, x)
    && forall k :: k in s.bindings ==> Anchored(s.folders, s.proofs, s.bindings[k].folder, x)
  }

  /** While answers are rebound, all but those still to do are bound. */
  ghost predicate Rebound(x: Context, s: State) {
    s.phase.Rebinding? ==>
      forall name :: Saved(s.folders, name) ==> name in s.phase.todo || BoundIn(s.folders, s.proofs, s.bindings, name, x)
  }

  /** A published case was bound and priced, and its cost is that of its own files. */
  ghost predicate Recorded(s: State) {
    forall k :: k in s.published ==>
      k in s.bindings && Priced(s.receipts, k) && s.published[k] == PublishedCost(s.receipts, s.bindings, k)
  }

  ghost predicate Inv(x: Context, s: State) {
    Disjoint(s) && Accounted(s) && Planned(x, s) && Grounded(x, s) && Rebound(x, s) && Recorded(s)
  }

  // ----- Saved answers never change ----------------------------------------------------------------

  ghost predicate FoldersKept(folders: map<string, Folder>, folders': map<string, Folder>) {
    forall name :: Saved(folders, name) ==> Saved(folders', name) && folders'[name] == folders[name]
  }

  lemma AnchoredStays(folders: map<string, Folder>, proofs: map<string, Proof>, folders': map<string, Folder>, proofs': map<string, Proof>,
                      name: string, x: Context)
    requires Anchored(folders, proofs, name, x) && FoldersKept(folders, folders') && Kept(proofs, proofs')
    ensures Anchored(folders', proofs', name, x)
  {
    hide WholeBatch, ProofFor;
    assert Saved(folders, name);
  }

  lemma BoundAtGrows(folders: map<string, Folder>, bindings: map<string, Binding>, folders': map<string, Folder>, bindings': map<string, Binding>,
                     name: string, x: Context, i: nat)
    requires Readable(folders, name, x) && i < |folders[name].plan.keys| && BoundAt(folders, bindings, name, x, i)
    requires FoldersKept(folders, folders') && Kept(bindings, bindings')
    ensures Readable(folders', name, x) && folders'[name] == folders[name] && BoundAt(folders', bindings', name, x, i)
  {
    hide ShareOf, PlanHolds;
    assert Saved(folders, name);
  }

  lemma GivenGrows(folders: map<string, Folder>, bindings: map<string, Binding>, folders': map<string, Folder>, bindings': map<string, Binding>,
                   x: Context, k: string)
    requires k in bindings && GivenBy(folders, bindings, x, k) && FoldersKept(folders, folders') && Kept(bindings, bindings')
    ensures k in bindings' && GivenBy(folders', bindings', x, k)
  {
    var name := bindings[k].folder;
    assert name in folders;
    hide BoundAt, Readable;
    var i :| 0 <= i < |folders[name].plan.keys| && folders[name].plan.keys[i] == k && BoundAt(folders, bindings, name, x, i);
    BoundAtGrows(folders, bindings, folders', bindings', name, x, i);
  }

  /** Disks only grow: what is saved, proved and bound stays. */
  ghost predicate DiskKept(s: State, s': State) {
    && FoldersKept(s.folders, s'.folders) && Kept(s.proofs, s'.proofs) && Kept(s.bindings, s'.bindings)
    && (forall name :: name in s.folders ==> name in s'.folders && s'.folders[name].plan == s.folders[name].plan)
  }

  lemma GroundedStays(x: Context, s: State, s': State)
    requires Grounded(x, s) && DiskKept(s, s')
    requires forall k :: k in s'.bindings && k !in s.bindings ==>
               GivenBy(s'.folders, s'.bindings, x, k) && Anchored(s'.folders, s'.proofs, s'.bindings[k].folder, x)
    ensures Grounded(x, s')
  {
    hide GivenBy, Anchored;
    forall k | k in s'.bindings ensures GivenBy(s'.folders, s'.bindings, x, k) && Anchored(s'.folders, s'.proofs, s'.bindings[k].folder, x) {
      if k in s.bindings {
        GivenGrows(s.folders, s.bindings, s'.folders, s'.bindings, x, k);
        AnchoredStays(s.folders, s.proofs, s'.folders, s'.proofs, s.bindings[k].folder, x);
      }
    }
  }

  // ----- One call of bind_saved_batch ----------------------------------------------------------------

  /** It adds proofs and bindings, each binding as its folder gives it, and when it finishes the
      folder is bound. */
  lemma BindKeepsDisk(s: State, x: Context, name: string, lives: nat)
    requires name in s.folders
    ensures
      var so := Bound(s, x, name, lives);
      && DiskKept(s, so.0) && so.0 == s.(proofs := so.0.proofs, bindings := so.0.bindings)
      && (so.1 ==> BoundIn(s.folders, so.0.proofs, so.0.bindings, name, x))
  {
    hide WholeOf, ProofFor, Readable, BoundAt, BindUpto;
    if Readable(s.folders, name, x) && WholeOf(s.folders, name, x).Some? && lives > 0 {
      var n := |s.folders[name].plan.keys|;
      BindKeeps(s.folders, s.bindings, name, x, if lives - 1 < n then lives - 1 else n);
      if lives > n { BindWhole(s.folders, s.bindings, name, x); }
    }
  }

  lemma BindGrounds(s: State, x: Context, name: string, lives: nat, k: string)
    requires name in s.folders && k in Bound(s, x, name, lives).0.bindings && k !in s.bindings
    ensures
      var so := Bound(s, x, name, lives).0;
      && GivenBy(s.folders, so.bindings, x, k) && so.bindings[k].folder == name && Anchored(s.folders, so.proofs, name, x)
      && k in s.folders[name].plan.keys
  {
    hide WholeOf, ProofFor, BindUpto;
    var n := |s.folders[name].plan.keys|;
    var so := Bound(s, x, name, lives).0;
    BindGives(s.folders, s.bindings, name, x, if lives - 1 < n then lives - 1 else n, k);
    hide Readable, BindFolder;
    var i :| 0 <= i < |s.folders[name].plan.keys| && s.folders[name].plan.keys[i] == k && BoundAt(s.folders, so.bindings, name, x, i);
    assert so.bindings[k].folder == name;
  }

  lemma BindKeepsGrounded(s: State, x: Context, name: string, lives: nat)
    requires name in s.folders && Grounded(x, s)
    ensures Grounded(x, Bound(s, x, name, lives).0)
  {
    hide Grounded, GivenBy, Anchored, Bound;
    BindKeepsDisk(s, x, name, lives);
    var s' := Bound(s, x, name, lives).0;
    forall k | k in s'.bindings && k !in s.bindings
      ensures GivenBy(s'.folders, s'.bindings, x, k) && Anchored(s'.folders, s'.proofs, s'.bindings[k].folder, x)
    {
      BindGrounds(s, x, name, lives, k);
    }
    GroundedStays(x, s, s');
  }

  // ----- One action ------------------------------------------------------------------------------------

  lemma SameDisk(s: State, s': State)
    requires s'.folders == s.folders && s'.proofs == s.proofs && s'.bindings == s.bindings
    ensures DiskKept(s, s')
  {
  }

  /** A new folder, or the answer of one that had none. */
  lemma FolderWritten(s: State, s': State, name: string)
    requires s'.proofs == s.proofs && s'.bindings == s.bindings && !Saved(s.folders, name)
    requires name in s'.folders && s'.folders == s.folders[name := s'.folders[name]]
    requires name in s.folders ==> s'.folders[name].plan == s.folders[name].plan
    ensures DiskKept(s, s')
  {
  }

  /** Only two of the others write a folder. */
  lemma FolderKeepsDisk(x: Context, s: State, a: Action)
    requires a.Group? || a.Answer?
    ensures DiskKept(s, Apply(x, s, a)) && Apply(x, s, a).bindings == s.bindings
  {
    hide GroupOf, DiskKept, KeySet;
    var s' := Apply(x, s, a);
    if s'.folders != s.folders { FolderWritten(s, s', a.name); } else { SameDisk(s, s'); }
  }

  /** The others write none. */
  lemma OthersKeepFiles(x: Context, s: State, a: Action)
    requires !a.Rebind? && !a.Bind? && !a.Group? && !a.Answer?
    ensures
      var s' := Apply(x, s, a);
      s'.folders == s.folders && s'.proofs == s.proofs && s'.bindings == s.bindings
  {
    hide ListsSaved, KeySet, Scored, PublishedCost;
  }

  lemma QuietKeepsDisk(x: Context, s: State, a: Action)
    requires !a.Rebind? && !a.Bind?
    ensures DiskKept(s, Apply(x, s, a)) && Apply(x, s, a).bindings == s.bindings
  {
    hide Apply, DiskKept;
    if a.Group? || a.Answer? {
      FolderKeepsDisk(x, s, a);
    } else {
      OthersKeepFiles(x, s, a);
      SameDisk(s, Apply(x, s, a));
    }
  }

  lemma ApplyKeepsDisk(x: Context, s: State, a: Action)
    ensures DiskKept(s, Apply(x, s, a))
  {
    hide BindFolder, GroupOf, ListsSaved, FoldersKept, Kept;
    SameDisk(s, s);
    match a
    case Rebind(lives) =>
      if s.phase.Rebinding? && s.phase.todo != [] && s.phase.todo[0] in s.folders { BindKeepsDisk(s, x, s.phase.todo[0], lives); }
    case Bind(name, lives) => if Saved(s.folders, name) { BindKeepsDisk(s, x, name, lives); }
    case _ => QuietKeepsDisk(x, s, a);
  }

  lemma ApplyKeepsGrounded(x: Context, s: State, a: Action)
    requires Grounded(x, s)
    ensures Grounded(x, Apply(x, s, a))
  {
    ApplyKeepsDisk(x, s, a);
    hide Bound, GroupOf, ListsSaved, GivenBy, Anchored;
    match a
    case Rebind(lives) =>
      if s.phase.Rebinding? && s.phase.todo != [] && s.phase.todo[0] in s.folders { BindKeepsGrounded(s, x, s.phase.todo[0], lives); }
    case Bind(name, lives) => if Saved(s.folders, name) { BindKeepsGrounded(s, x, name, lives); }
    case _ => GroundedStays(x, s, Apply(x, s, a));
  }

  lemma ApplyKeepsRecorded(x: Context, s: State, a: Action)
    requires Recorded(s)
    ensures Recorded(Apply(x, s, a))
  {
    ApplyKeepsDisk(x, s, a);
    ApplyKeepsReceipts(x, s, a);
    hide BindFolder, GroupOf, ListsSaved, CaseCost, ShareCost, FoldersKept;
    match a
    case Publish(key) =>
    case _ =>
  }

  lemma ApplyKeepsReceipts(x: Context, s: State, a: Action)
    ensures forall k :: Priced(s.receipts, k) ==> Priced(Apply(x, s, a).receipts, k) && Apply(x, s, a).receipts[k] == s.receipts[k]
  {
    hide BindFolder, GroupOf, ListsSaved;
  }

  lemma ApplyKeepsPlanned(x: Context, s: State, a: Action)
    requires Planned(x, s) && Accounted(s)
    ensures Planned(x, Apply(x, s, a))
  {
    hide ListsSaved, BindFolder;
  }

  lemma ApplyKeepsRebound(x: Context, s: State, a: Action)
    requires Rebound(x, s)
    ensures Rebound(x, Apply(x, s, a))
  {
    hide Bound, GroupOf, BoundIn;
    match a
    case Rebind(lives) =>
      if s.phase.Rebinding? && s.phase.todo != [] && s.phase.todo[0] in s.folders { RebindKeepsRebound(x, s, lives); }
    case _ =>
  }

  /** An answer once rebound stays bound while the others are. */
  lemma RebindKeepsRebound(x: Context, s: State, lives: nat)
    requires Rebound(x, s) && s.phase.Rebinding? && s.phase.todo != [] && s.phase.todo[0] in s.folders
    ensures Rebound(x, Apply(x, s, Rebind(lives)))
  {
    var s', name := Apply(x, s, Rebind(lives)), s.phase.todo[0];
    BindKeepsDisk(s, x, name, lives);
    hide Bound, BoundIn;
    if s'.phase.Rebinding? {
      forall other | Saved(s'.folders, other) ensures other in s'.phase.todo || BoundIn(s'.folders, s'.proofs, s'.bindings, other, x) {
        if other != name && BoundIn(s.folders, s.proofs, s.bindings, other, x) {
          BoundStays(s.folders, s.proofs, s.bindings, s'.proofs, s'.bindings, other, x);
        }
      }
    }
  }

  /** Fewer live groups and fewer waiting cases stay apart. */
  lemma FewerKeepDisjoint(s: State, s': State)
    requires Disjoint(s)
    requires forall a :: Live(s', a) ==> Live(s, a) && s'.folders[a].plan == s.folders[a].plan
    requires s'.phase.Up? ==> s'.phase.waiting <= if s.phase.Up? then s.phase.waiting else {}
    ensures Disjoint(s')
  {
  }

  lemma ScoreKeepsDisjoint(x: Context, s: State, key: string, scoring: CaseReceipt)
    requires Disjoint(s) && Accounted(s)
    ensures Disjoint(Apply(x, s, Score(key, scoring)))
  {
    var s' := Apply(x, s, Score(key, scoring));
    assert forall a :: Live(s', a) ==> Live(s, a);
  }

  /** A new group takes its cases from those waiting, of which no live group has any. */
  lemma GroupKeepsDisjoint(x: Context, s: State, name: string, plan: Plan)
    requires Disjoint(s)
    ensures Disjoint(Apply(x, s, Group(name, plan)))
  {
    var s' := Apply(x, s, Group(name, plan));
    if s' != s {
      assert forall a :: Live(s', a) && a != name ==> Live(s, a) && s'.folders[a] == s.folders[a];
      assert s'.folders[name].plan == plan;
      hide KeySet;
      assert forall k :: k in KeySet(plan.keys) <==> k in plan.keys by { KeySetHas(plan.keys); }
    }
  }

  lemma KeySetHas(keys: seq<string>)
    ensures forall k :: k in KeySet(keys) <==> k in keys
  {
  }

  /** A group too heavy to send is taken apart again; nothing of it was sent. */
  lemma SplitKeepsDisjoint(x: Context, s: State, name: string)
    requires Disjoint(s)
    ensures Disjoint(Apply(x, s, Split(name)))
  {
    var s' := Apply(x, s, Split(name));
    if s' != s {
      assert Live(s, name) && !Live(s', name);
      assert forall a :: Live(s', a) ==> Live(s, a) && a != name;
      hide KeySet;
      KeySetHas(s.folders[name].plan.keys);
    }
  }

  /** Starting, rebinding and ending leave nothing waiting or in flight. */
  lemma ComingAndGoingKeepDisjoint(x: Context, s: State, a: Action)
    requires Disjoint(s) && (a.Start? || a.Rebind? || a.Begin? || a.End?)
    ensures Disjoint(Apply(x, s, a))
  {
    hide BindFolder, ListsSaved, Disjoint;
    FewerKeepDisjoint(s, Apply(x, s, a));
  }

  /** An answer, a binding or a publication changes no group. */
  lemma WorkKeepsDisjoint(x: Context, s: State, a: Action)
    requires Disjoint(s) && (a.Answer? || a.Bind? || a.Publish?)
    ensures Disjoint(Apply(x, s, a))
  {
    hide BindFolder, Disjoint;
    FewerKeepDisjoint(s, Apply(x, s, a));
  }

  lemma ApplyKeepsDisjoint(x: Context, s: State, a: Action)
    requires Disjoint(s) && Accounted(s)
    ensures Disjoint(Apply(x, s, a))
  {
    hide Apply, Disjoint;
    match a
    case Score(key, scoring) => ScoreKeepsDisjoint(x, s, key, scoring);
    case Group(name, plan) => GroupKeepsDisjoint(x, s, name, plan);
    case Split(name) => SplitKeepsDisjoint(x, s, name);
    case _ => if a.Answer? || a.Bind? || a.Publish? { WorkKeepsDisjoint(x, s, a); } else { ComingAndGoingKeepDisjoint(x, s, a); }
  }

  lemma BeginKeepsAccounted(x: Context, s: State)
    requires Rebound(x, s)
    ensures Accounted(Apply(x, s, Begin)) || Apply(x, s, Begin) == s
  {
    hide BoundIn;
    if s.phase == Rebinding([]) { AllRebound(x, s); }
  }

  lemma GroupKeepsAccounted(x: Context, s: State, name: string, plan: Plan)
    requires Accounted(s)
    ensures Accounted(Apply(x, s, Group(name, plan)))
  {
    var s' := Apply(x, s, Group(name, plan));
    if s' != s {
      assert forall b :: Live(s', b) && b != name ==> Live(s, b) && s'.folders[b] == s.folders[b];
    }
  }

  /** Binding changes no plan, and a group that has landed stays accounted for. */
  lemma BindKeepsAccounted(x: Context, s: State, name: string, lives: nat)
    requires Accounted(s)
    ensures Accounted(Apply(x, s, Bind(name, lives)))
  {
    if Saved(s.folders, name) { BindKeepsDisk(s, x, name, lives); }
    hide BindFolder, FoldersKept;
  }

  lemma ApplyKeepsAccounted(x: Context, s: State, a: Action)
    requires Disjoint(s) && Accounted(s) && Rebound(x, s) && Planned(x, s)
    ensures Accounted(Apply(x, s, a))
  {
    hide BindFolder, ListsSaved, BoundIn, GroupOf;
    match a
    case Start(order) =>
    case Rebind(lives) =>
    case Begin => BeginKeepsAccounted(x, s);
    case Score(key, scoring) =>
    case Group(name, plan) => GroupKeepsAccounted(x, s, name, plan);
    case Split(name) =>
    case Answer(name, receipt) =>
    case Bind(name, lives) => BindKeepsAccounted(x, s, name, lives);
    case Publish(key) =>
    case End =>
  }

  /** Once nothing is left to rebind, every case of a saved answer is bound. */
  lemma AllRebound(x: Context, s: State)
    requires Rebound(x, s) && s.phase == Rebinding([])
    ensures forall a, k :: Saved(s.folders, a) && k in s.folders[a].plan.keys ==> k in s.bindings
  {
    forall a, k | Saved(s.folders, a) && k in s.folders[a].plan.keys ensures k in s.bindings {
      assert BoundIn(s.folders, s.proofs, s.bindings, a, x);
      var i :| 0 <= i < |s.folders[a].plan.keys| && s.folders[a].plan.keys[i] == k;
      assert BoundAt(s.folders, s.bindings, a, x, i);
    }
  }

  lemma ApplyKeepsInv(x: Context, s: State, a: Action)
    requires Inv(x, s)
    ensures Inv(x, Apply(x, s, a))
  {
    hide Apply, Disjoint, Accounted, Planned, Grounded, Rebound, Recorded;
    ApplyKeepsDisjoint(x, s, a);
    ApplyKeepsAccounted(x, s, a);
    ApplyKeepsPlanned(x, s, a);
    ApplyKeepsGrounded(x, s, a);
    ApplyKeepsRebound(x, s, a);
    ApplyKeepsRecorded(x, s, a);
  }

  lemma {:induction false} ExecKeepsInv(x: Context, run: seq<Action>)
    ensures Inv(x, Exec(x, EMPTY, run))
  {
    if run == [] {
    } else {
      hide Apply, Inv;
      ExecKeepsInv(x, run[..|run| - 1]);
      ApplyKeepsInv(x, Exec(x, EMPTY, run[..|run| - 1]), run[|run| - 1]);
    }
  }

  // ----- What holds of every run ---------------------------------------------------------------------

  /** No case is ever paid for in two shared answers, whatever failed, died and was retried. */
  lemma OneAnswerPerCase(x: Context, run: seq<Action>, a: string, b: string)
    requires Saved(Exec(x, EMPTY, run).folders, a) && Saved(Exec(x, EMPTY, run).folders, b) && a != b
    ensures Apart(Exec(x, EMPTY, run).folders[a].plan.keys, Exec(x, EMPTY, run).folders[b].plan.keys)
  {
    ExecKeepsInv(x, run);
    hide Exec;
    assert Live(Exec(x, EMPTY, run), a) && Live(Exec(x, EMPTY, run), b);
  }

  /** A case of a saved answer that is bound is bound to that answer, as the answer gives it. */
  lemma BoundToItsAnswer(x: Context, s: State, name: string, i: nat)
    requires Inv(x, s) && Saved(s.folders, name) && i < |s.folders[name].plan.keys| && s.folders[name].plan.keys[i] in s.bindings
    ensures Anchored(s.folders, s.proofs, name, x) && BoundAt(s.folders, s.bindings, name, x, i)
  {
    var keys := s.folders[name].plan.keys;
    var k := keys[i];
    var other := s.bindings[k].folder;
    assert GivenBy(s.folders, s.bindings, x, k) && Anchored(s.folders, s.proofs, other, x);
    hide WholeOf, ProofFor, BoundAt;
    assert Live(s, name) && Live(s, other);
    var j :| 0 <= j < |s.folders[other].plan.keys| && s.folders[other].plan.keys[j] == k && BoundAt(s.folders, s.bindings, other, x, j);
    assert other == name && Distinct(keys) && i == j;
  }

  lemma PublishedAreBound(x: Context, s: State, name: string)
    requires Planned(x, s) && Recorded(s) && name in s.folders && forall k :: k in x.items ==> k in s.published
    ensures s.folders[name].plan.keys != [] && forall k :: k in s.folders[name].plan.keys ==> k in s.bindings
  {
  }

  lemma BoundInParts(folders: map<string, Folder>, proofs: map<string, Proof>, bindings: map<string, Binding>, name: string, x: Context)
    requires Anchored(folders, proofs, name, x)
    requires forall i :: 0 <= i < |folders[name].plan.keys| ==> BoundAt(folders, bindings, name, x, i)
    ensures BoundIn(folders, proofs, bindings, name, x)
  {
    hide BoundAt, Readable, WholeOf, ProofFor;
  }

  /** Once every case is published, every saved answer is bound to all its cases. */
  lemma AllAnswersBound(x: Context, s: State, name: string)
    requires Inv(x, s) && Saved(s.folders, name) && forall k :: k in x.items ==> k in s.published
    ensures BoundIn(s.folders, s.proofs, s.bindings, name, x)
  {
    PublishedAreBound(x, s, name);
    assert name in s.folders;
    BoundToItsAnswer(x, s, name, 0);
    assert Readable(s.folders, name, x);
    hide *;
    var keys := s.folders[name].plan.keys;
    forall i | 0 <= i < |keys| ensures BoundAt(s.folders, s.bindings, name, x, i) {
      assert keys[i] in keys;
      BoundToItsAnswer(x, s, name, i);
    }
    BoundInParts(s.folders, s.proofs, s.bindings, name, x);
  }

  function PublishedTotal(published: map<string, nat>, cases: seq<string>): nat
    requires forall k :: k in cases ==> k in published
  {
    if cases == [] then 0 else PublishedTotal(published, cases[..|cases| - 1]) + published[cases[|cases| - 1]]
  }

  lemma {:induction false} RecordedTotal(s: State, cases: seq<string>)
    requires Recorded(s) && forall k :: k in cases ==> k in s.published
    ensures forall k :: k in cases ==> k in s.receipts
    ensures PublishedTotal(s.published, cases) == PublishedCosts(s.receipts, s.bindings, cases)
  {
    hide PublishedCost;
    if cases != [] {
      assert cases[|cases| - 1] in cases;
      RecordedTotal(s, cases[..|cases| - 1]);
    }
  }

  /** When every prepared case is published, the costs they were published with add up exactly
      to what provider_costs reads, however many coordinators it took. */
  lemma PublishedRunIsExact(x: Context, cases: seq<string>, run: seq<Action>, names: seq<string>)
    requires Distinct(cases) && forall k :: k in cases <==> k in x.items
    requires forall k :: k in cases ==> k in Exec(x, EMPTY, run).published
    requires Lists(names, Exec(x, EMPTY, run).folders)
    ensures
      var s := Exec(x, EMPTY, run);
      && (forall k :: k in cases ==> k in s.receipts)
      && CaseCosts(ReceiptsOf(s.receipts, cases)) + BatchCosts(BatchReceiptsOf(s.folders, names)) == PublishedTotal(s.published, cases)
  {
    var s := Exec(x, EMPTY, run);
    ExecKeepsInv(x, run);
    RecordedTotal(s, cases);
    AllPrepared(x, s, cases);
    forall name | name in names && BatchReceiptOf(s.folders[name]).Known? ensures BoundIn(s.folders, s.proofs, s.bindings, name, x) {
      AllAnswersBound(x, s, name);
    }
    hide Exec, BoundIn, AllPublished, CaseCosts, BatchCosts, PublishedCosts, PublishedTotal;
    assert Genuine(s.folders, s.bindings, x);
    hide Inv, Genuine;
    BoundCostsAreExact(s.folders, s.proofs, s.bindings, x, names, cases, s.receipts);
  }

  /** Bindings are of prepared cases, so the published cases are the bound ones. */
  lemma AllPrepared(x: Context, s: State, cases: seq<string>)
    requires Inv(x, s) && Distinct(cases) && (forall k :: k in cases <==> k in x.items) && forall k :: k in cases ==> k in s.published
    ensures AllPublished(cases, s.receipts, s.bindings)
  {
    assert Recorded(s);
    hide Inv, Recorded, Priced;
    forall k | k in s.bindings ensures k in cases { BoundIsPrepared(x, s, k); }
    forall k | k in cases ensures k in s.bindings && Priced(s.receipts, k) { RecordedCase(s, k); }
    PublishedParts(cases, s.receipts, s.bindings);
  }

  lemma PublishedParts(cases: seq<string>, receipts: map<string, CaseReceipt>, bindings: map<string, Binding>)
    requires Distinct(cases) && (forall k :: k in bindings ==> k in cases)
    requires forall k :: k in cases ==> k in bindings && Priced(receipts, k)
    ensures AllPublished(cases, receipts, bindings)
  {
  }

  lemma RecordedCase(s: State, k: string)
    requires Recorded(s) && k in s.published
    ensures k in s.bindings && Priced(s.receipts, k)
  {
  }

  lemma BoundIsPrepared(x: Context, s: State, k: string)
    requires Inv(x, s) && k in s.bindings
    ensures k in x.items
  {
    assert Grounded(x, s) && Planned(x, s);
    hide Inv, WholeOf, ProofFor, BoundAt, Readable;
    assert GivenBy(s.folders, s.bindings, x, k);
    var name := s.bindings[k].folder;
    assert name in s.folders;
  }

  // ----- A whole run ---------------------------------------------------------------------------------

  lemma ExecMore(x: Context, run: seq<Action>, a: Action)
    ensures Exec(x, EMPTY, run + [a]) == Apply(x, Exec(x, EMPTY, run), a)
  {
    assert (run + [a])[..|run|] == run;
  }

  /** The disk of one answered group, not yet bound. */
  function Answered(name: string, request: string, scoring: CaseReceipt): State {
    State(map[name := AnswerTo(request)], map[], map[], map[KEY := scoring], map[], Up({KEY}, {}, {name}))
  }

  /** One case is scored, grouped and answered. */
  lemma OneCaseAnswered(name: string, request: string, scoring: CaseReceipt) returns (run: seq<Action>)
    ensures Exec(AcceptAll(), EMPTY, run) == Answered(name, request, scoring)
  {
    var x, f := AcceptAll(), AnswerTo(request);
    var a1, a2, a3 := Start([]), Begin, Score(KEY, scoring);
    var a4, a5 := Group(name, f.plan), Answer(name, f.receipt.value);
    var s1 := EMPTY.(phase := Rebinding([]));
    var s2 := EMPTY.(phase := Up({}, {}, {}));
    var s3 := s2.(receipts := map[KEY := scoring], phase := Up({KEY}, {KEY}, {}));
    var s4 := s3.(folders := map[name := Folder(f.plan, f.plan.request, None)], phase := Up({KEY}, {}, {name}));
    assert Exec(x, EMPTY, []) == EMPTY;
    assert Apply(x, EMPTY, a1) == s1 && Apply(x, s1, a2) == s2;
    assert {} + {KEY} == {KEY} && {} + {name} == {name};
    assert Scored(map[], KEY, scoring) == map[KEY := scoring];
    assert Apply(x, s2, a3) == s3;
    GroupOfOne(s3, f.plan);
    assert s3.folders[name := Folder(f.plan, f.plan.request, None)] == s4.folders;
    assert Apply(x, s3, a4) == s4;
    assert s4.folders[name := f] == map[name := f];
    assert Apply(x, s4, a5) == Answered(name, request, scoring);
    hide Apply, Exec;
    ExecMore(x, [], a1);
    ExecMore(x, [] + [a1], a2);
    ExecMore(x, [] + [a1] + [a2], a3);
    ExecMore(x, [] + [a1] + [a2] + [a3], a4);
    ExecMore(x, [] + [a1] + [a2] + [a3] + [a4], a5);
    run := [] + [a1] + [a2] + [a3] + [a4] + [a5];
  }

  lemma GroupOfOne(s: State, plan: Plan)
    requires s.phase == Up({KEY}, {KEY}, {}) && plan.keys == OneKey()
    ensures GroupOf(s, plan) && s.phase.waiting - KeySet(plan.keys) == {}
  {
  }

  /** There are runs that publish everything. */
  lemma OneCasePublished(name: string, request: string, tokens: nat) returns (run: seq<Action>)
    ensures forall k :: k in OneKey() <==> k in AcceptAll().items
    ensures forall k :: k in OneKey() ==> k in Exec(AcceptAll(), EMPTY, run).published
  {
    var scoring := CaseReceipt.Receipt(Some(tokens));
    var before := OneCaseAnswered(name, request, scoring);
    BindThenPublish(Answered(name, request, scoring), name, request);
    assert forall k :: k in OneKey() <==> k == KEY;
    hide Apply, Exec, Answered, OneKey;
    ExecMore(AcceptAll(), before, Bind(name, 2));
    ExecMore(AcceptAll(), before + [Bind(name, 2)], Publish(KEY));
    run := before + [Bind(name, 2)] + [Publish(KEY)];
  }

  lemma BindThenPublish(s: State, name: string, request: string)
    requires s.folders == map[name := AnswerTo(request)] && s.bindings == map[] && s.proofs == map[]
    requires s.phase.Up? && name in s.phase.flying && Priced(s.receipts, KEY)
    ensures KEY in Apply(AcceptAll(), Apply(AcceptAll(), s, Bind(name, 2)), Publish(KEY)).published
  {
    OneCaseBinds(s, name, request);
    BoundCanPublish(AcceptAll(), s, name, KEY);
  }

  lemma BoundCanPublish(x: Context, s: State, name: string, key: string)
    requires s.phase.Up? && name in s.phase.flying && Saved(s.folders, name) && Priced(s.receipts, key)
    requires key in Bound(s, x, name, 2).0.bindings
    ensures key in Apply(x, Apply(x, s, Bind(name, 2)), Publish(key)).published
  {
    hide BindFolder, PublishedCost;
  }

  lemma OneCaseBinds(s: State, name: string, request: string)
    requires s.folders == map[name := AnswerTo(request)] && s.bindings == map[] && s.proofs == map[]
    ensures KEY in Bound(s, AcceptAll(), name, 2).0.bindings
  {
    var x := AcceptAll();
    AnswerDecodes(s.folders, name, request);
    BindWhole(s.folders, s.bindings, name, x);
    assert |s.folders[name].plan.keys| == 1;
    hide Readable, WholeOf, ProofFor, BindUpto, AcceptAll;
    assert BoundAt(s.folders, Bound(s, x, name, 2).0.bindings, name, x, 0);
  }
}
