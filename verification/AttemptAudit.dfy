/** combined_audit of scripts/recover_prod2_selected.py: paid attempts counted once over any
    number of receipt trees. */
module AttemptAudit {
  import opened Common

  datatype Part = Started | Response | Outcome

  /** Jev receipts are kept apart from those of the two generation models. */
  datatype Kind = JevFile | ModelFile

  datatype Receipt = Receipt(id: string, provider: string, modelStarted: bool, usageKnown: Option<bool>,
                             providerUsageKnown: Option<bool>, cost: Option<nat>, elapsed: Option<nat>)

  /** `stem` is the file's name up to its part. */
  datatype File = File(kind: Kind, stem: string, part: Part, receipt: Receipt)

  datatype Attempt = Attempt(kind: Kind, id: string)

  datatype Key = Key(attempt: Attempt, part: Part)

  type Ledger = map<Key, Receipt>

  datatype Summary = Summary(attempts: nat, jevCalls: nat, llm1Calls: nat, openaiCalls: nat, cost: nat, unknown: nat, elapsed: nat)

  const NOTHING := Summary(0, 0, 0, 0, 0, 0, 0)

  function Add(a: Summary, b: Summary): Summary {
    Summary(a.attempts + b.attempts, a.jevCalls + b.jevCalls, a.llm1Calls + b.llm1Calls, a.openaiCalls + b.openaiCalls,
            a.cost + b.cost, a.unknown + b.unknown, a.elapsed + b.elapsed)
  }

  lemma AddSwaps(a: Summary, b: Summary, c: Summary)
    ensures Add(a, Add(b, c)) == Add(b, Add(a, c)) == Add(Add(a, b), c)
  {
  }

  // ----- Collecting receipts ----------------------------------------------------------------

  function KeyOf(f: File): Key { Key(Attempt(f.kind, f.receipt.id), f.part) }

  /** Jev attempts have no response receipt; such a file is passed over. */
  predicate Counts(f: File) { f.kind == JevFile ==> f.part != Response }

  /** All receipts by attempt and part, or nothing when two disagree. */
  function Collect(files: seq<File>): Option<Ledger> {
    if files == [] then Some(map[])
    else
      var last := files[|files| - 1];
      match Collect(files[..|files| - 1])
      case None => None
      case Some(m) =>
        if !Counts(last) then Some(m)
        else if KeyOf(last) in m && m[KeyOf(last)] != last.receipt then None
        else Some(m[KeyOf(last) := last.receipt])
  }

  ghost predicate Agree(files: seq<File>) {
    forall f, g :: f in files && g in files && Counts(f) && Counts(g) && KeyOf(f) == KeyOf(g) ==> f.receipt == g.receipt
  }

  ghost predicate Represents(m: Ledger, files: seq<File>) {
    && (forall f :: f in files && Counts(f) ==> KeyOf(f) in m && m[KeyOf(f)] == f.receipt)
    && (forall k :: k in m ==> exists f :: f in files && Counts(f) && KeyOf(f) == k)
  }

  lemma {:induction false} CollectIs(files: seq<File>)
    ensures Collect(files).Some? <==> Agree(files)
    ensures Collect(files).Some? ==> Represents(Collect(files).value, files)
  {
    if files != [] {
      var n := |files| - 1;
      CollectIs(files[..n]);
      assert forall f :: f in files <==> f in files[..n] || f == files[n];
      if Agree(files) { assert Agree(files[..n]); }
    }
  }

  lemma SameLedger(a: Ledger, b: Ledger, files: seq<File>, files': seq<File>)
    requires Represents(a, files) && Represents(b, files') && forall f :: f in files <==> f in files'
    ensures a == b
  {
  }

  /** Only which receipts there are matters: not their order, nor how many copies. */
  lemma CollectIgnoresCopies(files: seq<File>, files': seq<File>)
    requires forall f :: f in files <==> f in files'
    ensures Collect(files) == Collect(files')
  {
    CollectIs(files);
    CollectIs(files');
    if Collect(files).Some? { SameLedger(Collect(files).value, Collect(files').value, files, files'); }
  }

  // ----- Counting -----------------------------------------------------------------------------

  function PartOf(m: Ledger, a: Attempt, part: Part): Option<Receipt> {
    if Key(a, part) in m then Some(m[Key(a, part)]) else None
  }

  function First<T>(a: Option<T>, b: Option<T>): Option<T> { if a.Some? then a else b }

  function ValueOr(o: Option<nat>): nat { if o.Some? then o.value else 0 }

  predicate IsOpenAi(id: string) { "openai-selected-" <= id }

  /** A generation that began: a started or response receipt, or an outcome that says so. */
  predicate ModelCalled(m: Ledger, a: Attempt) {
    || PartOf(m, a, Started).Some? || PartOf(m, a, Response).Some?
    || (PartOf(m, a, Outcome).Some? && PartOf(m, a, Outcome).value.modelStarted)
  }

  function UsageKnownOf(r: Option<Receipt>): Option<bool> { if r.Some? then r.value.providerUsageKnown else None }

  function CostOf(r: Option<Receipt>): Option<nat> { if r.Some? then r.value.cost else None }

  /** The record one attempt adds to the totals. */
  function Tally(m: Ledger, a: Attempt): Summary {
    var outcome, response, started := PartOf(m, a, Outcome), PartOf(m, a, Response), PartOf(m, a, Started);
    if a.kind == JevFile then
      match First(outcome, started)
      case None => NOTHING
      case Some(r) =>
        Summary(1, if r.provider == "jev" then 1 else 0, if r.provider == "gemini" || r.provider == "openai" then 1 else 0,
                if r.provider == "openai" then 1 else 0, ValueOr(r.cost), if r.usageKnown == Some(true) then 0 else 1, ValueOr(r.elapsed))
    else if !ModelCalled(m, a) then NOTHING
    else
      var base := First(outcome, First(response, started));
      var known := First(UsageKnownOf(response), UsageKnownOf(outcome));
      Summary(1, 0, 1, if IsOpenAi(a.id) then 1 else 0, ValueOr(First(CostOf(response), CostOf(outcome))),
              if known == Some(true) then 0 else 1, if base.Some? then ValueOr(base.value.elapsed) else 0)
  }

  function Attempts(m: Ledger): (r: set<Attempt>)
    ensures forall k :: k in m ==> k.attempt in r
    ensures forall a :: a in r ==> exists k :: k in m && k.attempt == a
  {
    set k | k in m :: k.attempt
  }

  /** Totals over a set of attempts, in whatever order. */
  ghost function Total(m: Ledger, s: set<Attempt>): Summary
    decreases |s|
  {
    if s == {} then NOTHING
    else
      var a :| a in s;
      Add(Tally(m, a), Total(m, s - {a}))
  }

  lemma {:induction false} TotalPick(m: Ledger, s: set<Attempt>, a: Attempt)
    requires a in s
    ensures Total(m, s) == Add(Tally(m, a), Total(m, s - {a}))
    decreases |s|
  {
    hide Tally, Add;
    var b :| b in s && Total(m, s) == Add(Tally(m, b), Total(m, s - {b}));
    if b != a {
      TotalPick(m, s - {b}, a);
      TotalPick(m, s - {a}, b);
      assert s - {b} - {a} == s - {a} - {b};
      AddSwaps(Tally(m, a), Tally(m, b), Total(m, s - {a} - {b}));
    }
  }

  lemma OneFewer(s: set<Attempt>, t: set<Attempt>, a: Attempt)
    requires a in s && s !! t
    ensures s + t - {a} == (s - {a}) + t && a in s + t && (s - {a}) !! t
  {
  }

  lemma {:induction false} TotalJoin(m: Ledger, s: set<Attempt>, t: set<Attempt>)
    requires s !! t
    ensures Total(m, s + t) == Add(Total(m, s), Total(m, t))
    decreases |s|
  {
    if s == {} {
      assert s + t == t;
    } else {
      hide Tally, Add, Total;
      var a :| a in s;
      OneFewer(s, t, a);
      TotalPick(m, s, a);
      TotalPick(m, s + t, a);
      TotalJoin(m, s - {a}, t);
      AddSwaps(Tally(m, a), Total(m, s - {a}), Total(m, t));
    }
  }

  lemma {:induction false} TotalSame(m: Ledger, m': Ledger, s: set<Attempt>)
    requires forall a :: a in s ==> Tally(m, a) == Tally(m', a)
    ensures Total(m, s) == Total(m', s)
    decreases |s|
  {
    hide Tally;
    if s != {} {
      var a :| a in s;
      TotalPick(m, s, a);
      TotalPick(m', s, a);
      TotalSame(m, m', s - {a});
    }
  }

  ghost function Audit(files: seq<File>): Option<Summary> {
    match Collect(files) case None => None case Some(m) => Some(Total(m, Attempts(m)))
  }

  // ----- The loops ------------------------------------------------------------------------------

  type Trees = map<string, seq<File>>

  function Deduplicated(roots: seq<string>): seq<string> {
    if roots == [] then []
    else
      var last := roots[|roots| - 1];
      var before := Deduplicated(roots[..|roots| - 1]);
      if last in before then before else before + [last]
  }

  function Tree(trees: Trees, root: string): seq<File> { if root in trees then trees[root] else [] }

  function AllFiles(trees: Trees, roots: seq<string>): seq<File> {
    if roots == [] then [] else AllFiles(trees, roots[..|roots| - 1]) + Tree(trees, roots[|roots| - 1])
  }

  lemma CollectStep(files: seq<File>, i: nat)
    requires i < |files|
    ensures Collect(files[..i + 1])
            == (match Collect(files[..i])
                case None => None
                case Some(m) =>
                  if !Counts(files[i]) then Some(m)
                  else if KeyOf(files[i]) in m && m[KeyOf(files[i])] != files[i].receipt then None
                  else Some(m[KeyOf(files[i]) := files[i].receipt]))
  {
    assert files[..i + 1][..i] == files[..i];
  }

  lemma {:induction false} CollectFails(files: seq<File>, i: nat)
    requires i <= |files| && Collect(files[..i]).None?
    ensures Collect(files).None?
    decreases |files| - i
  {
    if i < |files| {
      CollectStep(files, i);
      CollectFails(files, i + 1);
    } else {
      assert files[..i] == files;
    }
  }

  /** combined_audit over roots as given: repeated roots are read once, conflicting receipts
      of one attempt raise. */
  method CombinedAudit(trees: Trees, roots: seq<string>) returns (r: Option<Summary>)
    ensures r == Audit(AllFiles(trees, Deduplicated(roots)))
    ensures r.None? <==> Conflicting(trees, roots)
    ensures r.Some? ==> TotalsOf(trees, roots, r.value)
  {
    hide Audit, TotalsOf, Conflicting;
    var unique: seq<string> := [];
    for i := 0 to |roots|
      invariant unique == Deduplicated(roots[..i])
    {
      assert roots[..i + 1][..i] == roots[..i];
      if roots[i] !in unique { unique := unique + [roots[i]]; }
    }
    assert roots[..|roots|] == roots;
    var files: seq<File> := [];
    for i := 0 to |unique|
      invariant files == AllFiles(trees, unique[..i])
    {
      assert unique[..i + 1][..i] == unique[..i];
      files := files + Tree(trees, unique[i]);
    }
    assert unique[..|unique|] == unique;
    r := AuditFiles(files);
    AuditOverReceipts(trees, roots);
  }

  /** Receipts by attempt and part, the first conflict raising. */
  method AuditFiles(files: seq<File>) returns (r: Option<Summary>)
    ensures r == Audit(files)
  {
    hide Tally, Counts;
    var m: Ledger := map[];
    for i := 0 to |files|
      invariant Collect(files[..i]) == Some(m)
    {
      CollectStep(files, i);
      if Counts(files[i]) {
        if KeyOf(files[i]) in m && m[KeyOf(files[i])] != files[i].receipt {
          CollectFails(files, i + 1);
          return None;
        }
        m := m[KeyOf(files[i]) := files[i].receipt];
      }
    }
    assert files[..|files|] == files;
    var total := SumUp(m);
    return Some(total);
  }

  /** The sums over records, in an arbitrary order. */
  method SumUp(m: Ledger) returns (total: Summary)
    ensures total == Total(m, Attempts(m))
  {
    total := NOTHING;
    var rest := Attempts(m);
    AddNothing(Total(m, rest));
    TotalNothing(m);
    hide Tally, Attempts, Add, Total;
    while rest != {}
      invariant Add(total, Total(m, rest)) == Total(m, Attempts(m))
      decreases |rest|
    {
      var a :| a in rest;
      TotalPick(m, rest, a);
      AddSwaps(total, Tally(m, a), Total(m, rest - {a}));
      total := Add(total, Tally(m, a));
      rest := rest - {a};
    }
    AddNothing(total);
  }

  lemma TotalNothing(m: Ledger)
    ensures Total(m, {}) == NOTHING
  {
  }

  // ----- The totals over the receipts --------------------------------------------------------------

  /** A Jev receipt counts its attempt; so does a generation's, but for an outcome that says
      that the model was not started. */
  ghost predicate CountedBy(m: Ledger, k: Key) {
    k in m && if k.attempt.kind == JevFile then k.part != Response else k.part != Outcome || m[k].modelStarted
  }

  ghost function Counted(m: Ledger): set<Attempt> { set k | k in m && CountedBy(m, k) :: k.attempt }

  /** The receipt an attempt goes by: its outcome before anything else. */
  ghost function Base(m: Ledger, a: Attempt): Receipt
    requires a in Counted(m)
  {
    if Key(a, Outcome) in m then m[Key(a, Outcome)]
    else if a.kind == ModelFile && Key(a, Response) in m then m[Key(a, Response)]
    else m[Key(a, Started)]
  }

  ghost predicate JevCall(m: Ledger, a: Attempt)
    requires a in Counted(m)
  {
    a.kind == JevFile && Base(m, a).provider == "jev"
  }

  ghost predicate Llm1Call(m: Ledger, a: Attempt)
    requires a in Counted(m)
  {
    a.kind == JevFile ==> Base(m, a).provider == "gemini" || Base(m, a).provider == "openai"
  }

  ghost predicate OpenAiCall(m: Ledger, a: Attempt)
    requires a in Counted(m)
  {
    if a.kind == JevFile then Base(m, a).provider == "openai" else |a.id| >= 16 && a.id[..16] == "openai-selected-"
  }

  /** A generation's response says whether its usage is known, and what it cost, before its
      outcome does. */
  ghost predicate UsageKnown(m: Ledger, a: Attempt)
    requires a in Counted(m)
  {
    if a.kind == JevFile then Base(m, a).usageKnown == Some(true)
    else if Key(a, Response) in m && m[Key(a, Response)].providerUsageKnown != None then
      m[Key(a, Response)].providerUsageKnown == Some(true)
    else
      Key(a, Outcome) in m && m[Key(a, Outcome)].providerUsageKnown == Some(true)
  }

  ghost function Dollars(m: Ledger, a: Attempt): nat
    requires a in Counted(m)
  {
    if a.kind == JevFile then match Base(m, a).cost { case Some(c) => c case None => 0 }
    else if Key(a, Response) in m && m[Key(a, Response)].cost != None then m[Key(a, Response)].cost.value
    else if Key(a, Outcome) in m && m[Key(a, Outcome)].cost != None then m[Key(a, Outcome)].cost.value
    else 0
  }

  ghost function Seconds(m: Ledger, a: Attempt): nat
    requires a in Counted(m)
  {
    match Base(m, a).elapsed case Some(e) => e case None => 0
  }

  ghost function Sum(s: map<Attempt, nat>): nat
    decreases |s|
  {
    if s == map[] then 0
    else
      var a :| a in s;
      s[a] + Sum(s - {a})
  }

  ghost function JevCalls(m: Ledger, s: set<Attempt>): set<Attempt>
    requires s <= Counted(m)
  {
    set a | a in s && JevCall(m, a)
  }

  ghost function Llm1Calls(m: Ledger, s: set<Attempt>): set<Attempt>
    requires s <= Counted(m)
  {
    set a | a in s && Llm1Call(m, a)
  }

  ghost function OpenAiCalls(m: Ledger, s: set<Attempt>): set<Attempt>
    requires s <= Counted(m)
  {
    set a | a in s && OpenAiCall(m, a)
  }

  ghost function UnknownOf(m: Ledger, s: set<Attempt>): set<Attempt>
    requires s <= Counted(m)
  {
    set a | a in s && !UsageKnown(m, a)
  }

  ghost function DollarsOf(m: Ledger, s: set<Attempt>): map<Attempt, nat>
    requires s <= Counted(m)
  {
    map a | a in s :: Dollars(m, a)
  }

  ghost function SecondsOf(m: Ledger, s: set<Attempt>): map<Attempt, nat>
    requires s <= Counted(m)
  {
    map a | a in s :: Seconds(m, a)
  }

  /** Counts are sizes of sets of attempts, the cost and the time sums over them. */
  ghost predicate Reports(m: Ledger, s: set<Attempt>, total: Summary)
    requires s <= Counted(m)
  {
    && total.attempts == |s|
    && total.jevCalls == |JevCalls(m, s)|
    && total.llm1Calls == |Llm1Calls(m, s)|
    && total.openaiCalls == |OpenAiCalls(m, s)|
    && total.unknown == |UnknownOf(m, s)|
    && total.cost == Sum(DollarsOf(m, s))
    && total.elapsed == Sum(SecondsOf(m, s))
  }

  lemma {:induction false} SumPick(s: map<Attempt, nat>, a: Attempt)
    requires a in s
    ensures Sum(s) == s[a] + Sum(s - {a})
    decreases |s|
  {
    var b :| b in s && Sum(s) == s[b] + Sum(s - {b});
    if b != a {
      SumPick(s - {b}, a);
      SumPick(s - {a}, b);
      assert s - {b} - {a} == s - {a} - {b};
    }
  }

  function Bit(b: bool): nat { if b then 1 else 0 }

  lemma TallyIs(m: Ledger, a: Attempt)
    requires a in Attempts(m) && forall k :: k in m && k.attempt.kind == JevFile ==> k.part != Response
    ensures a in Counted(m) ==>
              Tally(m, a) == Summary(1, Bit(JevCall(m, a)), Bit(Llm1Call(m, a)), Bit(OpenAiCall(m, a)), Dollars(m, a),
                                     Bit(!UsageKnown(m, a)), Seconds(m, a))
    ensures a !in Counted(m) ==> Tally(m, a) == NOTHING
  {
    var k :| k in m && k.attempt == a;
    match k.part {
      case Started => assert k == Key(a, Started);
      case Response => assert k == Key(a, Response);
      case Outcome => assert k == Key(a, Outcome);
    }
    assert a in Counted(m) <==>
           CountedBy(m, Key(a, Started)) || CountedBy(m, Key(a, Response)) || CountedBy(m, Key(a, Outcome));
  }

  lemma OneMore(s: set<Attempt>, t: set<Attempt>, a: Attempt, more: bool)
    requires a !in t && forall b :: b in s <==> b in t || (b == a && more)
    ensures |s| == |t| + Bit(more)
  {
    assert s == if more then t + {a} else t;
  }

  lemma JevStep(m: Ledger, s: set<Attempt>, a: Attempt)
    requires s <= Counted(m) && a in s
    ensures |JevCalls(m, s)| == |JevCalls(m, s - {a})| + Bit(JevCall(m, a))
  {
    hide JevCall, Counted, Bit;
    OneMore(JevCalls(m, s), JevCalls(m, s - {a}), a, JevCall(m, a));
  }

  lemma Llm1Step(m: Ledger, s: set<Attempt>, a: Attempt)
    requires s <= Counted(m) && a in s
    ensures |Llm1Calls(m, s)| == |Llm1Calls(m, s - {a})| + Bit(Llm1Call(m, a))
  {
    hide Llm1Call, Counted, Bit;
    OneMore(Llm1Calls(m, s), Llm1Calls(m, s - {a}), a, Llm1Call(m, a));
  }

  lemma OpenAiStep(m: Ledger, s: set<Attempt>, a: Attempt)
    requires s <= Counted(m) && a in s
    ensures |OpenAiCalls(m, s)| == |OpenAiCalls(m, s - {a})| + Bit(OpenAiCall(m, a))
  {
    hide OpenAiCall, Counted, Bit;
    OneMore(OpenAiCalls(m, s), OpenAiCalls(m, s - {a}), a, OpenAiCall(m, a));
  }

  lemma UnknownStep(m: Ledger, s: set<Attempt>, a: Attempt)
    requires s <= Counted(m) && a in s
    ensures |UnknownOf(m, s)| == |UnknownOf(m, s - {a})| + Bit(!UsageKnown(m, a))
  {
    hide UsageKnown, Counted, Bit;
    OneMore(UnknownOf(m, s), UnknownOf(m, s - {a}), a, !UsageKnown(m, a));
  }

  lemma SumSteps(m: Ledger, s: set<Attempt>, a: Attempt)
    requires s <= Counted(m) && a in s
    ensures Sum(DollarsOf(m, s)) == Dollars(m, a) + Sum(DollarsOf(m, s - {a}))
    ensures Sum(SecondsOf(m, s)) == Seconds(m, a) + Sum(SecondsOf(m, s - {a}))
  {
    hide Dollars, Seconds, Counted, Sum;
    SumPick(DollarsOf(m, s), a);
    SumPick(SecondsOf(m, s), a);
    assert DollarsOf(m, s) - {a} == DollarsOf(m, s - {a});
    assert SecondsOf(m, s) - {a} == SecondsOf(m, s - {a});
  }

  lemma ReportsStep(m: Ledger, s: set<Attempt>, a: Attempt, rest: Summary)
    requires s <= Counted(m) && a in s && Reports(m, s - {a}, rest)
    ensures Reports(m, s, Add(Summary(1, Bit(JevCall(m, a)), Bit(Llm1Call(m, a)), Bit(OpenAiCall(m, a)), Dollars(m, a),
                                      Bit(!UsageKnown(m, a)), Seconds(m, a)), rest))
  {
    JevStep(m, s, a);
    Llm1Step(m, s, a);
    OpenAiStep(m, s, a);
    UnknownStep(m, s, a);
    SumSteps(m, s, a);
    hide JevCall, Llm1Call, OpenAiCall, UsageKnown, Dollars, Seconds, Counted, Sum, JevCalls, Llm1Calls, OpenAiCalls, UnknownOf, DollarsOf, SecondsOf, Bit;
    assert |s| == |s - {a}| + 1;
  }

  lemma NothingReported(m: Ledger)
    ensures Reports(m, {}, NOTHING)
  {
  }

  lemma {:induction false} TotalReports(m: Ledger, s: set<Attempt>)
    requires s <= Attempts(m) && forall k :: k in m && k.attempt.kind == JevFile ==> k.part != Response
    ensures Reports(m, s * Counted(m), Total(m, s))
    decreases |s|
  {
    hide Tally, Add, Counted, Reports;
    if s == {} {
      NothingReported(m);
      assert s * Counted(m) == {};
    } else {
      var a :| a in s;
      TotalReports(m, s - {a});
      TallyIs(m, a);
      TotalPick(m, s, a);
      hide Total, Attempts;
      if a in Counted(m) {
        assert s * Counted(m) - {a} == (s - {a}) * Counted(m);
        ReportsStep(m, s * Counted(m), a, Total(m, s - {a}));
      } else {
        assert s * Counted(m) == (s - {a}) * Counted(m);
        AddNothing(Total(m, s - {a}));
      }
    }
  }

  lemma AddNothing(s: Summary)
    ensures Add(NOTHING, s) == s == Add(s, NOTHING)
  {
  }

  /** The ledger of the roots' receipts, a response of a Jev attempt apart. */
  ghost predicate LedgerOf(m: Ledger, trees: Trees, roots: seq<string>) {
    forall kind, id, part, receipt :: Key(Attempt(kind, id), part) in m && m[Key(Attempt(kind, id), part)] == receipt <==>
      Filed(trees, roots, kind, id, part, receipt)
  }

  /** Totals over the receipts of the roots. */
  ghost predicate TotalsOf(trees: Trees, roots: seq<string>, total: Summary) {
    exists m: Ledger :: LedgerOf(m, trees, roots) && Reports(m, Counted(m), total)
  }

  ghost predicate Filed(trees: Trees, roots: seq<string>, kind: Kind, id: string, part: Part, receipt: Receipt) {
    && !(kind == JevFile && part == Response)
    && receipt.id == id
    && exists stem :: Present(trees, roots, File(kind, stem, part, receipt))
  }

  ghost predicate Conflicting(trees: Trees, roots: seq<string>) {
    exists kind, id, part, r, r' :: Filed(trees, roots, kind, id, part, r) && Filed(trees, roots, kind, id, part, r') && r != r'
  }

  lemma FilesAre(trees: Trees, roots: seq<string>, f: File)
    ensures f in AllFiles(trees, Deduplicated(roots)) <==> Present(trees, roots, f)
  {
    FilesOf(trees, Deduplicated(roots), f);
    DeduplicatedHas(roots);
  }

  lemma FiledIs(trees: Trees, roots: seq<string>, kind: Kind, id: string, part: Part, receipt: Receipt)
    ensures Filed(trees, roots, kind, id, part, receipt) <==>
              exists f :: f in AllFiles(trees, Deduplicated(roots)) && Counts(f) && KeyOf(f) == Key(Attempt(kind, id), part) && f.receipt == receipt
  {
    hide AllFiles, Deduplicated, Present;
    if Filed(trees, roots, kind, id, part, receipt) {
      var stem :| Present(trees, roots, File(kind, stem, part, receipt));
      FilesAre(trees, roots, File(kind, stem, part, receipt));
    }
    if f :| f in AllFiles(trees, Deduplicated(roots)) && Counts(f) && KeyOf(f) == Key(Attempt(kind, id), part) && f.receipt == receipt {
      FilesAre(trees, roots, f);
      assert f == File(kind, f.stem, part, receipt);
    }
  }

  /** Each total over the receipts themselves, and an audit that is refused exactly when two
      receipts of one part of one attempt differ. */
  lemma AuditOverReceipts(trees: Trees, roots: seq<string>)
    ensures Audit(AllFiles(trees, Deduplicated(roots))).None? <==> Conflicting(trees, roots)
    ensures Audit(AllFiles(trees, Deduplicated(roots))).Some? ==>
              TotalsOf(trees, roots, Audit(AllFiles(trees, Deduplicated(roots))).value)
  {
    var files := AllFiles(trees, Deduplicated(roots));
    CollectIs(files);
    hide AllFiles, Deduplicated, Collect, Counts, KeyOf, Filed, Reports, Total, Counted, Attempts;
    forall kind, id, part, receipt
      ensures Filed(trees, roots, kind, id, part, receipt) <==>
                exists f :: f in files && Counts(f) && KeyOf(f) == Key(Attempt(kind, id), part) && f.receipt == receipt
    {
      FiledIs(trees, roots, kind, id, part, receipt);
    }
    if !Agree(files) {
      var f, g :| f in files && g in files && Counts(f) && Counts(g) && KeyOf(f) == KeyOf(g) && f.receipt != g.receipt;
      var k := KeyOf(f);
      assert Filed(trees, roots, k.attempt.kind, k.attempt.id, k.part, f.receipt);
      assert Filed(trees, roots, k.attempt.kind, k.attempt.id, k.part, g.receipt);
    } else {
      var m := Collect(files).value;
      LedgerReports(m, files);
      assert LedgerOf(m, trees, roots);
    }
  }

  lemma LedgerReports(m: Ledger, files: seq<File>)
    requires Represents(m, files)
    ensures Reports(m, Counted(m), Total(m, Attempts(m)))
  {
    assert forall k :: k in m && k.attempt.kind == JevFile ==> k.part != Response;
    TotalReports(m, Attempts(m));
    assert Attempts(m) * Counted(m) == Counted(m);
  }

  /** The receipts of one attempt as before but for their costs. */
  ghost predicate OnlyCosts(m: Ledger, m': Ledger, a: Attempt) {
    && m.Keys == m'.Keys
    && forall k :: k in m ==> m'[k] == if k.attempt == a then m[k].(cost := m'[k].cost) else m[k]
  }

  lemma SameElsewhere(m: Ledger, m': Ledger, a: Attempt, b: Attempt)
    requires OnlyCosts(m, m', a)
    ensures Tally(m', b).(cost := 0) == Tally(m, b).(cost := 0) && (b != a ==> Tally(m', b) == Tally(m, b))
  {
  }

  lemma NoJevResponse(files: seq<File>)
    requires Collect(files).Some?
    ensures forall k :: k in Collect(files).value && k.attempt.kind == JevFile ==> k.part != Response
  {
    CollectIs(files);
  }

  lemma CountedAttempts(m: Ledger, a: Attempt)
    requires a in Counted(m)
    ensures a in Attempts(m)
  {
  }

  lemma CostMovesTally(m: Ledger, m': Ledger, a: Attempt, d: int)
    requires OnlyCosts(m, m', a) && a in Counted(m) && a in Counted(m')
    requires forall k :: k in m && k.attempt.kind == JevFile ==> k.part != Response
    requires Dollars(m', a) == Dollars(m, a) + d
    ensures Tally(m, a).cost + d >= 0 && Tally(m', a) == Tally(m, a).(cost := Tally(m, a).cost + d)
  {
    TallyIs(m, a);
    TallyIs(m', a);
    SameElsewhere(m, m', a, a);
    hide Tally, Counted, Dollars, OnlyCosts, JevCall, Llm1Call, OpenAiCall, UsageKnown, Seconds;
  }

  lemma CostMovesTotal(m: Ledger, m': Ledger, a: Attempt, d: int)
    requires OnlyCosts(m, m', a) && a in Attempts(m)
    requires Tally(m, a).cost + d >= 0 && Tally(m', a) == Tally(m, a).(cost := Tally(m, a).cost + d)
    ensures Total(m, Attempts(m)).cost + d >= 0
    ensures Total(m', Attempts(m')) == Total(m, Attempts(m)).(cost := Total(m, Attempts(m)).cost + d)
  {
    assert Attempts(m) == Attempts(m');
    forall b | b in Attempts(m) - {a} ensures Tally(m, b) == Tally(m', b) { SameElsewhere(m, m', a, b); }
    hide Tally, Total, Attempts, OnlyCosts;
    TotalSame(m, m', Attempts(m) - {a});
    TotalPick(m, Attempts(m), a);
    TotalPick(m', Attempts(m), a);
  }

  /** Costs of one attempt that raise or lower what it is taken to cost by d change the known
      cost by d, and nothing else. */
  lemma CostMovesAlone(files: seq<File>, files': seq<File>, a: Attempt, d: int)
    requires Collect(files).Some? && Collect(files').Some? && OnlyCosts(Collect(files).value, Collect(files').value, a)
    requires a in Counted(Collect(files).value) && a in Counted(Collect(files').value)
    requires Dollars(Collect(files').value, a) == Dollars(Collect(files).value, a) + d
    ensures Audit(files').Some? && Audit(files).Some? && Audit(files).value.cost + d >= 0
    ensures Audit(files').value == Audit(files).value.(cost := Audit(files).value.cost + d)
  {
    var m, m' := Collect(files).value, Collect(files').value;
    NoJevResponse(files);
    hide Collect, Total, Tally, Counted, Dollars, OnlyCosts;
    CountedAttempts(m, a);
    CostMovesTally(m, m', a, d);
    CostMovesTotal(m, m', a, d);
  }

  // ----- What the audit does not depend on -------------------------------------------------------

  ghost predicate Present(trees: Trees, roots: seq<string>, f: File) {
    exists root :: root in roots && f in Tree(trees, root)
  }

  lemma {:induction false} FilesOf(trees: Trees, roots: seq<string>, f: File)
    ensures f in AllFiles(trees, roots) <==> Present(trees, roots, f)
  {
    if roots != [] {
      var n := |roots| - 1;
      FilesOf(trees, roots[..n], f);
      assert forall root :: root in roots <==> root in roots[..n] || root == roots[n];
    }
  }

  lemma {:induction false} DeduplicatedHas(roots: seq<string>)
    ensures forall root :: root in Deduplicated(roots) <==> root in roots
  {
    if roots != [] {
      var n := |roots| - 1;
      DeduplicatedHas(roots[..n]);
      assert forall root :: root in roots <==> root in roots[..n] || root == roots[n];
    }
  }

  /** The audit depends on the set of receipts only: roots in another order, given again, or
      holding identical copies of receipts found elsewhere change nothing. */
  lemma AuditIgnoresOrderAndCopies(trees: Trees, roots: seq<string>, trees': Trees, roots': seq<string>)
    requires forall f :: Present(trees, roots, f) <==> Present(trees', roots', f)
    ensures Audit(AllFiles(trees, Deduplicated(roots))) == Audit(AllFiles(trees', Deduplicated(roots')))
  {
    var a, b := AllFiles(trees, Deduplicated(roots)), AllFiles(trees', Deduplicated(roots'));
    DeduplicatedHas(roots);
    DeduplicatedHas(roots');
    forall f ensures f in a <==> f in b {
      FilesOf(trees, Deduplicated(roots), f);
      FilesOf(trees', Deduplicated(roots'), f);
      assert Present(trees, Deduplicated(roots), f) == Present(trees, roots, f);
      assert Present(trees', Deduplicated(roots'), f) == Present(trees', roots', f);
    }
    CollectIgnoresCopies(a, b);
  }

  ghost predicate Apart(a: seq<File>, b: seq<File>) {
    forall f, g :: f in a && g in b && Counts(f) && Counts(g) ==> KeyOf(f).attempt != KeyOf(g).attempt
  }

  lemma CollectApart(a: seq<File>, b: seq<File>)
    requires Apart(a, b)
    ensures Collect(a + b).Some? <==> Collect(a).Some? && Collect(b).Some?
  {
    CollectIs(a);
    CollectIs(b);
    CollectIs(a + b);
    if Agree(a + b) { assert Agree(a) && Agree(b); }
  }

  lemma LedgerOfJoin(a: seq<File>, b: seq<File>, k: Key)
    requires Apart(a, b) && Collect(a).Some? && Collect(b).Some? && Collect(a + b).Some?
    ensures
      var m, m1, m2 := Collect(a + b).value, Collect(a).value, Collect(b).value;
      && (k in m <==> k in m1 || k in m2)
      && (k in m1 ==> m[k] == m1[k] && k.attempt !in Attempts(m2))
      && (k in m2 ==> m[k] == m2[k] && k.attempt !in Attempts(m1))
  {
    CollectIs(a);
    CollectIs(b);
    CollectIs(a + b);
    hide Counts, Collect, Attempts, Agree;
    var m, m1, m2 := Collect(a + b).value, Collect(a).value, Collect(b).value;
    if k in m1 {
      var f :| f in a && Counts(f) && KeyOf(f) == k;
      assert f in a + b;
      assert forall k2 :: k2 in m2 ==> k2.attempt != k.attempt;
    }
    if k in m2 {
      var f :| f in b && Counts(f) && KeyOf(f) == k;
      assert f in a + b;
      assert forall k1 :: k1 in m1 ==> k1.attempt != k.attempt;
    }
  }

  ghost predicate Joined(m: Ledger, m1: Ledger, m2: Ledger) {
    && (forall k :: k in m <==> k in m1 || k in m2)
    && (forall k :: k in m1 ==> m[k] == m1[k])
    && (forall k :: k in m2 ==> m[k] == m2[k])
    && Attempts(m1) !! Attempts(m2)
  }

  lemma SideTally(m: Ledger, m1: Ledger, m2: Ledger, at: Attempt)
    requires Joined(m, m1, m2) && at in Attempts(m1)
    ensures Tally(m, at) == Tally(m1, at)
  {
  }

  lemma JoinedAttempts(m: Ledger, m1: Ledger, m2: Ledger)
    requires Joined(m, m1, m2)
    ensures Attempts(m) == Attempts(m1) + Attempts(m2) && Joined(m, m2, m1)
  {
  }

  lemma TotalsAdd(m: Ledger, m1: Ledger, m2: Ledger)
    requires Joined(m, m1, m2)
    ensures Total(m, Attempts(m)) == Add(Total(m1, Attempts(m1)), Total(m2, Attempts(m2)))
  {
    JoinedAttempts(m, m1, m2);
    assert Attempts(m1) !! Attempts(m2);
    hide Tally, Total, Add, Joined, Attempts;
    forall at | at in Attempts(m1) ensures Tally(m, at) == Tally(m1, at) { SideTally(m, m1, m2, at); }
    forall at | at in Attempts(m2) ensures Tally(m, at) == Tally(m2, at) { SideTally(m, m2, m1, at); }
    TotalJoin(m, Attempts(m1), Attempts(m2));
    TotalSame(m, m1, Attempts(m1));
    TotalSame(m, m2, Attempts(m2));
  }

  /** Audits of disjoint attempts add up, and both are clean exactly when their union is. */
  lemma AuditAdds(a: seq<File>, b: seq<File>)
    requires Apart(a, b)
    ensures Audit(a + b) == if Audit(a).Some? && Audit(b).Some? then Some(Add(Audit(a).value, Audit(b).value)) else None
  {
    CollectApart(a, b);
    hide Collect, Total, Add, Attempts, Apart;
    if Collect(a).Some? && Collect(b).Some? {
      var m, m1, m2 := Collect(a + b).value, Collect(a).value, Collect(b).value;
      forall k ensures (k in m <==> k in m1 || k in m2)
                       && (k in m1 ==> m[k] == m1[k] && k.attempt !in Attempts(m2))
                       && (k in m2 ==> m[k] == m2[k] && k.attempt !in Attempts(m1)) { LedgerOfJoin(a, b, k); }
      assert Attempts(m1) !! Attempts(m2) by {
        forall at | at in Attempts(m1) ensures at !in Attempts(m2) { var k :| k in m1 && k.attempt == at; }
      }
      TotalsAdd(m, m1, m2);
    }
  }
}
