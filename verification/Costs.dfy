/** Where the money goes in scripts/run_dinaut_sector_matches.py: grouping of cases into
    shared batches, the total over original receipts, and the per-case costs of
    scripts/run_dinaut_three_dot_matches.py.  Costs are whole billionths of a dollar. */
module Costs {
  import opened Common
  import opened WireMap
  import opened SharedBatch
  import C = Citations

  // ----- Grouping -----------------------------------------------------------------------------

  function Join(groups: seq<seq<string>>): seq<string> {
    if groups == [] then [] else Join(groups[..|groups| - 1]) + groups[|groups| - 1]
  }

  function Weight(weights: map<string, nat>, k: string): nat { if k in weights then weights[k] else 0 }

  predicate GroupOk(group: seq<string>, weights: map<string, nat>) {
    |group| == 1 || (|group| == 2 && Weight(weights, group[0]) + Weight(weights, group[1]) <= 16)
  }

  /** Two cases stay apart only when together they hold more than sixteen requirements. */
  predicate ApartForWeight(group: seq<string>, next: seq<string>, weights: map<string, nat>) {
    |group| == 1 && next != [] ==> Weight(weights, group[0]) + Weight(weights, next[0]) > 16
  }

  /** groups_for_contexts: the cases in order, in ones and twos. */
  method GroupsForContexts(keys: seq<string>, weights: map<string, nat>) returns (groups: seq<seq<string>>)
    ensures Join(groups) == keys
    ensures forall i :: 0 <= i < |groups| ==> GroupOk(groups[i], weights)
    ensures forall i :: 0 <= i < |groups| - 1 ==> ApartForWeight(groups[i], groups[i + 1], weights)
  {
    var pending := keys;
    groups := [];
    while pending != []
      invariant Join(groups) + pending == keys
      invariant forall i :: 0 <= i < |groups| ==> GroupOk(groups[i], weights)
      invariant forall i :: 0 <= i < |groups| - 1 ==> ApartForWeight(groups[i], groups[i + 1], weights)
      invariant groups != [] ==> ApartForWeight(groups[|groups| - 1], pending, weights)
      decreases |pending|
    {
      var size := if |pending| < 2 then |pending| else 2;
      if size == 2 && Weight(weights, pending[0]) + Weight(weights, pending[1]) > 16 { size := 1; }
      var group := pending[..size];
      assert (groups + [group])[..|groups|] == groups;
      assert Join(groups) + pending == Join(groups) + group + pending[size..];
      groups := groups + [group];
      pending := pending[size..];
    }
  }

  // ----- The total over receipts ----------------------------------------------------------------

  /** A case's cached scoring answer: its input tokens if they are known. */
  datatype CaseReceipt = NoReceipt(startedFiles: nat) | Receipt(tokens: Option<nat>)

  /** A batch folder with a started file: its 200 answer's usage if it is all known. */
  datatype BatchReceipt = Unknown | Known(prompt: nat, candidates: nat, thoughts: nat)

  function JevCost(tokens: nat): nat { 42 * tokens }

  function GemmaCost(prompt: nat, candidates: nat, thoughts: nat): nat { 250 * prompt + 1500 * (candidates + thoughts) }

  function CaseCost(r: CaseReceipt): nat { if r.Receipt? && r.tokens.Some? then JevCost(r.tokens.value) else 0 }

  function BatchCost(r: BatchReceipt): nat { if r.Known? then GemmaCost(r.prompt, r.candidates, r.thoughts) else 0 }

  function CaseCosts(cases: seq<CaseReceipt>): nat {
    if cases == [] then 0 else CaseCosts(cases[..|cases| - 1]) + CaseCost(cases[|cases| - 1])
  }

  function BatchCosts(batches: seq<BatchReceipt>): nat {
    if batches == [] then 0 else BatchCosts(batches[..|batches| - 1]) + BatchCost(batches[|batches| - 1])
  }

  /** Input tokens of scoring, of the generations, and what the generations wrote. */
  function ScoringTokens(cases: seq<CaseReceipt>): nat {
    if cases == [] then 0
    else
      ScoringTokens(cases[..|cases| - 1]) + match cases[|cases| - 1] { case Receipt(Some(tokens)) => tokens case _ => 0 }
  }

  function PromptTokens(batches: seq<BatchReceipt>): nat {
    if batches == [] then 0
    else
      PromptTokens(batches[..|batches| - 1]) + match batches[|batches| - 1] { case Known(prompt, _, _) => prompt case Unknown => 0 }
  }

  function OutputTokens(batches: seq<BatchReceipt>): nat {
    if batches == [] then 0
    else
      OutputTokens(batches[..|batches| - 1])
      + match batches[|batches| - 1] { case Known(_, candidates, thoughts) => candidates + thoughts case Unknown => 0 }
  }

  /** Attempts of unknown price: unreadable usage, or starts without an answer. */
  function Unpriced(cases: seq<CaseReceipt>): nat {
    if cases == [] then 0
    else
      Unpriced(cases[..|cases| - 1]) + match cases[|cases| - 1] { case Receipt(tokens) => if tokens == None then 1 else 0 case NoReceipt(n) => n }
  }

  function NotAnswered(cases: seq<CaseReceipt>): (n: nat)
    ensures n <= |cases|
  {
    if cases == [] then 0
    else
      NotAnswered(cases[..|cases| - 1]) + match cases[|cases| - 1] { case Receipt(Some(_)) => 0 case _ => 1 }
  }

  function UnknownBatches(batches: seq<BatchReceipt>): (n: nat)
    ensures n <= |batches|
  {
    if batches == [] then 0 else UnknownBatches(batches[..|batches| - 1]) + if batches[|batches| - 1] == Unknown then 1 else 0
  }

  /** Four point two cents a million scoring tokens, twenty-five a million prompt tokens and a
      dollar fifty a million written ones, thoughts among them. */
  lemma {:induction false} ScoringPrice(cases: seq<CaseReceipt>)
    ensures CaseCosts(cases) == 42 * ScoringTokens(cases)
  {
    if cases != [] { ScoringPrice(cases[..|cases| - 1]); }
  }

  lemma {:induction false} GenerationPrice(batches: seq<BatchReceipt>)
    ensures BatchCosts(batches) == 250 * PromptTokens(batches) + 1500 * OutputTokens(batches)
  {
    if batches != [] { GenerationPrice(batches[..|batches| - 1]); }
  }

  /** provider_costs: every durable answer once, and whether any attempt is unpriced. */
  method ProviderCosts(cases: seq<CaseReceipt>, batches: seq<BatchReceipt>) returns (total: nat, uncertain: nat, responses: nat)
    ensures total == CaseCosts(cases) + BatchCosts(batches)
    ensures total == 42 * ScoringTokens(cases) + 250 * PromptTokens(batches) + 1500 * OutputTokens(batches)
    ensures uncertain == 0 <==>
              && (forall i :: 0 <= i < |cases| ==> cases[i] == NoReceipt(0) || (cases[i].Receipt? && cases[i].tokens.Some?))
              && (forall i :: 0 <= i < |batches| ==> batches[i].Known?)
    ensures uncertain == Unpriced(cases) + UnknownBatches(batches)
    ensures responses == |cases| + |batches| - NotAnswered(cases) - UnknownBatches(batches)
  {
    total, uncertain, responses := 0, 0, 0;
    for i := 0 to |cases|
      invariant total == CaseCosts(cases[..i]) && responses == i - NotAnswered(cases[..i]) && uncertain == Unpriced(cases[..i])
      invariant uncertain == 0 <==> forall j :: 0 <= j < i ==> cases[j] == NoReceipt(0) || (cases[j].Receipt? && cases[j].tokens.Some?)
    {
      assert cases[..i + 1][..i] == cases[..i];
      match cases[i] {
        case Receipt(Some(tokens)) =>
          total := total + JevCost(tokens);
          responses := responses + 1;
        case Receipt(None) => uncertain := uncertain + 1;
        case NoReceipt(started) => uncertain := uncertain + started;
      }
    }
    assert cases[..|cases|] == cases;
    ghost var afterCases := uncertain;
    for i := 0 to |batches|
      invariant total == CaseCosts(cases) + BatchCosts(batches[..i])
      invariant responses == |cases| - NotAnswered(cases) + i - UnknownBatches(batches[..i])
      invariant uncertain == Unpriced(cases) + UnknownBatches(batches[..i])
      invariant uncertain >= afterCases && (uncertain == afterCases <==> forall j :: 0 <= j < i ==> batches[j].Known?)
    {
      assert batches[..i + 1][..i] == batches[..i];
      match batches[i] {
        case Known(prompt, candidates, thoughts) =>
          total := total + GemmaCost(prompt, candidates, thoughts);
          responses := responses + 1;
        case Unknown => uncertain := uncertain + 1;
      }
    }
    assert batches[..|batches|] == batches;
    ScoringPrice(cases);
    GenerationPrice(batches);
  }

  // ----- Published costs ------------------------------------------------------------------------

  /** What provider_costs reads in a batch folder. */
  function BatchReceiptOf(f: Folder): BatchReceipt {
    if f.receipt.None? || f.receipt.value.status != 200 || !UsageKnown(f.receipt.value.usage) then Unknown
    else
      var u := f.receipt.value.usage;
      Known(u.prompt.value, u.candidates.value, u.thoughts)
  }

  function BatchReceiptsOf(folders: map<string, Folder>, names: seq<string>): (r: seq<BatchReceipt>)
    requires forall name :: name in names ==> name in folders
    ensures |r| == |names|
  {
    if names == [] then []
    else BatchReceiptsOf(folders, names[..|names| - 1]) + [BatchReceiptOf(folders[names[|names| - 1]])]
  }

  function ReceiptsOf(receipts: map<string, CaseReceipt>, cases: seq<string>): (r: seq<CaseReceipt>)
    requires forall k :: k in cases ==> k in receipts
    ensures |r| == |cases|
  {
    if cases == [] then [] else ReceiptsOf(receipts, cases[..|cases| - 1]) + [receipts[cases[|cases| - 1]]]
  }

  lemma SharePrice(share: Share)
    ensures ShareCost(share) == 250 * share.prompt + 1500 * share.candidates + 1500 * share.thoughts
  {
  }

  function ShareCost(share: Share): nat { GemmaCost(share.prompt, share.candidates, share.thoughts) }

  /** The explanation part of a case's published cost, from its binding. */
  function BoundCost(bindings: map<string, Binding>, key: string): nat {
    if key in bindings then ShareCost(bindings[key].share) else 0
  }

  function BoundCosts(bindings: map<string, Binding>, keys: seq<string>): nat {
    if keys == [] then 0 else BoundCosts(bindings, keys[..|keys| - 1]) + BoundCost(bindings, keys[|keys| - 1])
  }

  /** The cost a case is published with: its own scoring receipt and its own share. */
  function PublishedCost(receipts: map<string, CaseReceipt>, bindings: map<string, Binding>, key: string): nat
    requires key in receipts
  {
    CaseCost(receipts[key]) + BoundCost(bindings, key)
  }

  function PublishedCosts(receipts: map<string, CaseReceipt>, bindings: map<string, Binding>, cases: seq<string>): nat
    requires forall k :: k in cases ==> k in receipts
  {
    if cases == [] then 0
    else PublishedCosts(receipts, bindings, cases[..|cases| - 1]) + PublishedCost(receipts, bindings, cases[|cases| - 1])
  }

  /** Every prepared case is published, so it has its scoring receipt and a binding; a binding
      is of a prepared case. */
  ghost predicate AllPublished(cases: seq<string>, receipts: map<string, CaseReceipt>, bindings: map<string, Binding>) {
    && Distinct(cases) && (forall k :: k in cases <==> k in bindings)
    && (forall k :: k in cases ==> k in receipts && receipts[k].Receipt? && receipts[k].tokens.Some?)
  }

  /** The started batch folders, each once. */
  ghost predicate Lists(names: seq<string>, folders: map<string, Folder>) {
    Distinct(names) && forall name :: name in names <==> name in folders
  }

  // ----- Shares of one folder ------------------------------------------------------------------

  /** The first `upto` shares of a folder's answer. */
  function ShareCosts(usage: Usage, total: nat, upto: nat): nat
    requires UsageKnown(usage) && upto <= total
  {
    if upto == 0 then 0 else ShareCosts(usage, total, upto - 1) + ShareCost(ShareOf(usage, total, upto - 1))
  }

  lemma {:induction false} ShareCostsValue(usage: Usage, total: nat, upto: nat)
    requires UsageKnown(usage) && 0 < total && upto <= total
    ensures ShareCosts(usage, total, upto)
            == GemmaCost(SumSplit(usage.prompt.value, total, upto), SumSplit(usage.candidates.value, total, upto),
                         SumSplit(usage.thoughts, total, upto))
  {
    if upto > 0 { ShareCostsValue(usage, total, upto - 1); }
  }

  /** The shares of an answer add up to its cost. */
  lemma SharesConserve(usage: Usage, total: nat)
    requires UsageKnown(usage) && 0 < total
    ensures ShareCosts(usage, total, total) == GemmaCost(usage.prompt.value, usage.candidates.value, usage.thoughts)
  {
    ShareCostsValue(usage, total, total);
    SplitConserves(usage.prompt.value, total);
    SplitConserves(usage.candidates.value, total);
    SplitConserves(usage.thoughts, total);
  }

  /** The cases among a folder's first `upto` that are bound to it. */
  ghost function Claimed(folders: map<string, Folder>, bindings: map<string, Binding>, x: Context, name: string, upto: nat): seq<string>
    requires Readable(folders, name, x) && upto <= |folders[name].plan.keys|
  {
    if upto == 0 then []
    else
      Claimed(folders, bindings, x, name, upto - 1)
      + if BoundAt(folders, bindings, name, x, upto - 1) then [folders[name].plan.keys[upto - 1]] else []
  }

  /** The shares of its others, paid but published with no case. */
  ghost function UnclaimedShares(folders: map<string, Folder>, bindings: map<string, Binding>, x: Context, name: string, upto: nat): nat
    requires Readable(folders, name, x) && upto <= |folders[name].plan.keys|
  {
    if upto == 0 then 0
    else
      var keys, usage := folders[name].plan.keys, folders[name].receipt.value.usage;
      UnclaimedShares(folders, bindings, x, name, upto - 1)
      + if BoundAt(folders, bindings, name, x, upto - 1) then 0 else ShareCost(ShareOf(usage, |keys|, upto - 1))
  }

  /** What a folder's answer cost beyond the cases bound to it. */
  ghost function UnclaimedCost(folders: map<string, Folder>, bindings: map<string, Binding>, x: Context, name: string): nat
    requires name in folders
  {
    if Readable(folders, name, x) then UnclaimedShares(folders, bindings, x, name, |folders[name].plan.keys|)
    else BatchCost(BatchReceiptOf(folders[name]))
  }

  ghost function UnclaimedCosts(folders: map<string, Folder>, bindings: map<string, Binding>, x: Context, names: seq<string>): nat
    requires forall name :: name in names ==> name in folders
  {
    if names == [] then 0
    else UnclaimedCosts(folders, bindings, x, names[..|names| - 1]) + UnclaimedCost(folders, bindings, x, names[|names| - 1])
  }

  ghost function ClaimedOf(folders: map<string, Folder>, bindings: map<string, Binding>, x: Context, name: string): seq<string> {
    if Readable(folders, name, x) then Claimed(folders, bindings, x, name, |folders[name].plan.keys|) else []
  }

  ghost function AllClaimed(folders: map<string, Folder>, bindings: map<string, Binding>, x: Context, names: seq<string>): seq<string> {
    if names == [] then []
    else AllClaimed(folders, bindings, x, names[..|names| - 1]) + ClaimedOf(folders, bindings, x, names[|names| - 1])
  }

  lemma {:induction false} SharesSplit(folders: map<string, Folder>, bindings: map<string, Binding>, x: Context, name: string, upto: nat)
    requires Readable(folders, name, x) && upto <= |folders[name].plan.keys|
    ensures BoundCosts(bindings, Claimed(folders, bindings, x, name, upto)) + UnclaimedShares(folders, bindings, x, name, upto)
            == ShareCosts(folders[name].receipt.value.usage, |folders[name].plan.keys|, upto)
  {
    hide ShareCost, ShareOf;
    if upto > 0 {
      SharesSplit(folders, bindings, x, name, upto - 1);
      var before, key := Claimed(folders, bindings, x, name, upto - 1), folders[name].plan.keys[upto - 1];
      if BoundAt(folders, bindings, name, x, upto - 1) {
        assert (before + [key])[..|before|] == before;
      } else {
        assert before + [] == before;
      }
    }
  }

  /** A folder's answer costs what the cases bound to it are published with, and the rest. */
  lemma FolderSplit(folders: map<string, Folder>, bindings: map<string, Binding>, x: Context, name: string)
    requires name in folders
    ensures BoundCosts(bindings, ClaimedOf(folders, bindings, x, name)) + UnclaimedCost(folders, bindings, x, name)
            == BatchCost(BatchReceiptOf(folders[name]))
  {
    if Readable(folders, name, x) {
      var keys, usage := folders[name].plan.keys, folders[name].receipt.value.usage;
      SharesSplit(folders, bindings, x, name, |keys|);
      SharesConserve(usage, |keys|);
    }
  }

  // ----- Sums ------------------------------------------------------------------------------------

  lemma {:induction false} SumJoin(bindings: map<string, Binding>, a: seq<string>, b: seq<string>)
    ensures BoundCosts(bindings, a + b) == BoundCosts(bindings, a) + BoundCosts(bindings, b)
  {
    hide BoundCost;
    if b == [] { assert a + b == a; }
    else {
      assert (a + b)[..|a + b| - 1] == a + b[..|b| - 1];
      SumJoin(bindings, a, b[..|b| - 1]);
    }
  }

  function Removed(b: seq<string>, i: nat): seq<string>
    requires i < |b|
  {
    b[..i] + b[i + 1..]
  }

  lemma RemovedMultiset(b: seq<string>, i: nat)
    requires i < |b|
    ensures multiset(Removed(b, i)) == multiset(b) - multiset{b[i]}
  {
    assert b == b[..i] + ([b[i]] + b[i + 1..]);
    assert multiset(b) == multiset(b[..i]) + (multiset{b[i]} + multiset(b[i + 1..]));
  }

  lemma SumRemoved(bindings: map<string, Binding>, b: seq<string>, i: nat)
    requires i < |b|
    ensures BoundCosts(bindings, b) == BoundCosts(bindings, Removed(b, i)) + BoundCost(bindings, b[i])
  {
    hide BoundCost;
    var x := b[i];
    assert b == b[..i] + ([x] + b[i + 1..]);
    SumJoin(bindings, b[..i], [x] + b[i + 1..]);
    SumJoin(bindings, [x], b[i + 1..]);
    SumJoin(bindings, b[..i], b[i + 1..]);
    assert [x][..0] == [];
    assert BoundCosts(bindings, [x]) == BoundCosts(bindings, []) + BoundCost(bindings, x);
  }

  /** The sum does not depend on the order of the cases. */
  lemma {:induction false} SumReorders(bindings: map<string, Binding>, a: seq<string>, b: seq<string>)
    requires multiset(a) == multiset(b)
    ensures BoundCosts(bindings, a) == BoundCosts(bindings, b)
    decreases |a|
  {
    hide BoundCost, Removed;
    assert |a| == |multiset(a)| == |multiset(b)| == |b|;
    if a != [] {
      var n := |a| - 1;
      assert a[n] in multiset(b);
      var i :| 0 <= i < |b| && b[i] == a[n];
      assert Removed(a, n) == a[..n] by { LastRemoved(a); }
      RemovedMultiset(a, n);
      RemovedMultiset(b, i);
      SumRemoved(bindings, b, i);
      SumReorders(bindings, a[..n], Removed(b, i));
    }
  }

  lemma LastRemoved(a: seq<string>)
    requires a != []
    ensures Removed(a, |a| - 1) == a[..|a| - 1]
  {
  }

  lemma {:induction false} FoldersSplit(folders: map<string, Folder>, bindings: map<string, Binding>, x: Context, names: seq<string>)
    requires forall name :: name in names ==> name in folders
    ensures BatchCosts(BatchReceiptsOf(folders, names))
            == BoundCosts(bindings, AllClaimed(folders, bindings, x, names)) + UnclaimedCosts(folders, bindings, x, names)
  {
    hide ClaimedOf, UnclaimedCost, BatchCost, BatchReceiptOf;
    if names != [] {
      var n := |names| - 1;
      FoldersSplit(folders, bindings, x, names[..n]);
      FolderSplit(folders, bindings, x, names[n]);
      SumJoin(bindings, AllClaimed(folders, bindings, x, names[..n]), ClaimedOf(folders, bindings, x, names[n]));
      assert BatchReceiptsOf(folders, names)[..n] == BatchReceiptsOf(folders, names[..n]);
    }
  }

  lemma {:induction false} PublishedSplit(receipts: map<string, CaseReceipt>, bindings: map<string, Binding>, cases: seq<string>)
    requires forall k :: k in cases ==> k in receipts
    ensures PublishedCosts(receipts, bindings, cases) == CaseCosts(ReceiptsOf(receipts, cases)) + BoundCosts(bindings, cases)
  {
    hide CaseCost, BoundCost;
    if cases != [] {
      var n := |cases| - 1;
      PublishedSplit(receipts, bindings, cases[..n]);
      assert ReceiptsOf(receipts, cases)[..n] == ReceiptsOf(receipts, cases[..n]);
    }
  }

  // ----- Each case is claimed once ---------------------------------------------------------------

  /** `key` is bound to this folder, from one of its first `upto` positions. */
  ghost predicate ClaimedBefore(folders: map<string, Folder>, bindings: map<string, Binding>, x: Context, name: string, upto: nat, key: string)
    requires Readable(folders, name, x) && upto <= |folders[name].plan.keys|
  {
    exists i :: 0 <= i < upto && folders[name].plan.keys[i] == key && BoundAt(folders, bindings, name, x, i)
  }

  lemma {:induction false} ClaimedOnce(folders: map<string, Folder>, bindings: map<string, Binding>, x: Context, name: string, upto: nat, key: string)
    requires Readable(folders, name, x) && upto <= |folders[name].plan.keys|
    ensures multiset(Claimed(folders, bindings, x, name, upto))[key]
            == if ClaimedBefore(folders, bindings, x, name, upto, key) then 1 else 0
  {
    if upto > 0 {
      ClaimedOnce(folders, bindings, x, name, upto - 1, key);
      ClaimedStep(folders, bindings, x, name, upto - 1, key);
      var keys, before := folders[name].plan.keys, Claimed(folders, bindings, x, name, upto - 1);
      hide ClaimedBefore, Readable;
      if BoundAt(folders, bindings, name, x, upto - 1) {
        assert multiset(before + [keys[upto - 1]]) == multiset(before) + multiset{keys[upto - 1]};
      } else {
        assert before + [] == before;
      }
    }
  }

  lemma ClaimedStep(folders: map<string, Folder>, bindings: map<string, Binding>, x: Context, name: string, i: nat, key: string)
    requires Readable(folders, name, x) && i < |folders[name].plan.keys|
    ensures ClaimedBefore(folders, bindings, x, name, i + 1, key)
            <==> ClaimedBefore(folders, bindings, x, name, i, key) || (BoundAt(folders, bindings, name, x, i) && folders[name].plan.keys[i] == key)
    ensures BoundAt(folders, bindings, name, x, i) && folders[name].plan.keys[i] == key ==> !ClaimedBefore(folders, bindings, x, name, i, key)
  {
    hide BoundAt;
  }

  lemma FolderClaims(folders: map<string, Folder>, bindings: map<string, Binding>, x: Context, name: string, key: string)
    requires Genuine(folders, bindings, x)
    ensures multiset(ClaimedOf(folders, bindings, x, name))[key] == if key in bindings && bindings[key].folder == name then 1 else 0
  {
    if key in bindings { assert GivenBy(folders, bindings, x, key); }
    if Readable(folders, name, x) { ClaimedOnce(folders, bindings, x, name, |folders[name].plan.keys|, key); }
  }

  lemma {:induction false} AllClaims(folders: map<string, Folder>, bindings: map<string, Binding>, x: Context, names: seq<string>, key: string)
    requires Genuine(folders, bindings, x) && Distinct(names)
    ensures multiset(AllClaimed(folders, bindings, x, names))[key] == if key in bindings && bindings[key].folder in names then 1 else 0
  {
    hide Genuine, ClaimedOf;
    if names != [] {
      var n := |names| - 1;
      AllClaims(folders, bindings, x, names[..n], key);
      FolderClaims(folders, bindings, x, names[n], key);
      assert names[n] !in names[..n];
      assert forall name :: name in names <==> name in names[..n] || name == names[n];
    }
  }

  lemma {:induction false} CaseOnce(cases: seq<string>, k: string)
    requires Distinct(cases)
    ensures multiset(cases)[k] == if k in cases then 1 else 0
  {
    if cases != [] {
      CaseOnce(cases[..|cases| - 1], k);
      assert cases == cases[..|cases| - 1] + [cases[|cases| - 1]];
    }
  }

  lemma ClaimsAreCases(folders: map<string, Folder>, bindings: map<string, Binding>, x: Context, names: seq<string>,
                       cases: seq<string>, receipts: map<string, CaseReceipt>)
    requires Genuine(folders, bindings, x) && Lists(names, folders) && AllPublished(cases, receipts, bindings)
    ensures multiset(AllClaimed(folders, bindings, x, names)) == multiset(cases)
  {
    forall k ensures multiset(AllClaimed(folders, bindings, x, names))[k] == multiset(cases)[k] {
      AllClaims(folders, bindings, x, names, k);
      CaseOnce(cases, k);
      if k in bindings { assert GivenBy(folders, bindings, x, k); }
    }
  }

  /** When every prepared case is published, the total over original receipts is the sum of
      the published costs and the shares that no case was bound to. */
  lemma PublishedCostsConserve(folders: map<string, Folder>, bindings: map<string, Binding>, x: Context, names: seq<string>,
                               cases: seq<string>, receipts: map<string, CaseReceipt>)
    requires Genuine(folders, bindings, x) && Lists(names, folders) && AllPublished(cases, receipts, bindings)
    ensures CaseCosts(ReceiptsOf(receipts, cases)) + BatchCosts(BatchReceiptsOf(folders, names))
            == PublishedCosts(receipts, bindings, cases) + UnclaimedCosts(folders, bindings, x, names)
  {
    FoldersSplit(folders, bindings, x, names);
    ClaimsAreCases(folders, bindings, x, names, cases, receipts);
    SumReorders(bindings, AllClaimed(folders, bindings, x, names), cases);
    PublishedSplit(receipts, bindings, cases);
  }

  lemma {:induction false} NothingUnclaimed(folders: map<string, Folder>, proofs: map<string, Proof>, bindings: map<string, Binding>, x: Context, name: string, upto: nat)
    requires BoundIn(folders, proofs, bindings, name, x) && upto <= |folders[name].plan.keys|
    ensures UnclaimedShares(folders, bindings, x, name, upto) == 0
  {
    hide BoundAt, WholeOf, ProofFor;
    if upto > 0 {
      NothingUnclaimed(folders, proofs, bindings, x, name, upto - 1);
      assert BoundAt(folders, bindings, name, x, upto - 1);
    }
  }

  lemma {:induction false} AllBoundUnclaimed(folders: map<string, Folder>, proofs: map<string, Proof>, bindings: map<string, Binding>, x: Context, names: seq<string>)
    requires forall name :: name in names ==> name in folders
    requires forall name :: name in names && BatchReceiptOf(folders[name]).Known? ==> BoundIn(folders, proofs, bindings, name, x)
    ensures UnclaimedCosts(folders, bindings, x, names) == 0
  {
    hide BoundIn;
    if names != [] {
      var n := |names| - 1;
      assert names[n] in names;
      AllBoundUnclaimed(folders, proofs, bindings, x, names[..n]);
      if BatchReceiptOf(folders[names[n]]).Known? {
        assert Readable(folders, names[n], x) by { BoundIsReadable(folders, proofs, bindings, x, names[n]); }
        NothingUnclaimed(folders, proofs, bindings, x, names[n], |folders[names[n]].plan.keys|);
      }
    }
  }

  lemma BoundIsReadable(folders: map<string, Folder>, proofs: map<string, Proof>, bindings: map<string, Binding>, x: Context, name: string)
    requires BoundIn(folders, proofs, bindings, name, x)
    ensures Readable(folders, name, x)
  {
  }

  /** When bind_saved_batch finished on every priced answer, the published costs are exactly
      the total over original receipts. */
  lemma BoundCostsAreExact(folders: map<string, Folder>, proofs: map<string, Proof>, bindings: map<string, Binding>, x: Context,
                           names: seq<string>, cases: seq<string>, receipts: map<string, CaseReceipt>)
    requires Genuine(folders, bindings, x) && Lists(names, folders) && AllPublished(cases, receipts, bindings)
    requires forall name :: name in names && BatchReceiptOf(folders[name]).Known? ==> BoundIn(folders, proofs, bindings, name, x)
    ensures CaseCosts(ReceiptsOf(receipts, cases)) + BatchCosts(BatchReceiptsOf(folders, names))
            == PublishedCosts(receipts, bindings, cases)
  {
    PublishedCostsConserve(folders, bindings, x, names, cases, receipts);
    AllBoundUnclaimed(folders, proofs, bindings, x, names);
  }

  // ----- Two answers for one case --------------------------------------------------------------------

  const KEY := "seace_prod2-1"

  const ROW := Dict(map["case_key" := Words(KEY), "requisitos" := Items([])])

  const ANSWER := Envelope(Items([ROW]))

  const JEV := JevPayload(KEY, C.Payload([], {}))

  function OneKey(): seq<string> { [KEY] }

  /** A shared answer to one case, to request `request`. */
  function AnswerTo(request: string): Folder {
    Folder(Plan(OneKey(), request, map[KEY := JEV]), request,
           Some(SharedBatch.Receipt.Receipt(request, 200, true, Some(ANSWER), [], Usage(Some(4), Some(2), 1))))
  }

  function AcceptAll(): Context { Context(map[KEY := JEV], {KEY}, true, (v, j) => Some(v)) }

  lemma OneCaseAnswer()
    ensures Normalized(ANSWER, OneKey()) == Some(ANSWER) && C.Evaluations(ANSWER) == Some([ROW])
    ensures C.NormalizeBatch(ANSWER, [C.Case(KEY, JEV.body)]) == Some((ANSWER, []))
  {
    var cases := [C.Case(KEY, JEV.body)];
    assert C.Evaluations(ANSWER) == Some([ROW]) && C.SameCases([ROW], cases);
    OneCaseUncorrected();
    hide C.NormalizeCase, C.Evaluations, C.SameCases, C.WithoutKey, C.WithKey;
    assert [ROW][..0] == [] && cases[..0] == [];
    assert C.NormalizeCases([], []) == Some(([], []));
    assert C.NormalizeCases([ROW], cases) == Some(([] + [ROW], [] + C.Keyed(KEY, [])));
    assert [] + [ROW] == [ROW] && [] + C.Keyed(KEY, []) == [];
    assert C.NormalizeBatch(ANSWER, cases) == Some((Envelope(Items([ROW])), []));
  }

  /** A row without requirements has no references to correct. */
  lemma OneCaseUncorrected()
    ensures
      var bare := C.WithoutKey(ROW);
      C.NormalizeCase(bare, JEV.body) == Some((bare, [])) && C.WithKey(KEY, bare) == ROW && C.Keyed(KEY, []) == []
  {
    var bare := C.WithoutKey(ROW);
    assert bare == Dict(map["requisitos" := Items([])]);
    assert C.Rows(bare) == Some([]);
    assert C.NormalizeRows([], [], {}) == Some(([], []));
    assert C.WithRows(bare, []) == bare;
  }

  lemma OneCaseValid(x: Context)
    requires x == AcceptAll()
    ensures CasesOf(OneKey(), x.items) == [C.Case(KEY, JEV.body)] && Validated([ROW], OneKey(), x.items, x.check).Some?
  {
    assert OneKey()[..0] == [] && [ROW][..0] == [];
    assert Validated([], [], x.items, x.check) == Some(map[]);
  }

  lemma PlanOfOne(request: string, receipt: SharedBatch.Receipt, x: Context)
    requires x == AcceptAll() && AnswerTo(request).receipt == Some(receipt)
    ensures PlanHolds(AnswerTo(request).plan, request, receipt, x.items, x.inScope) && UsageKnown(receipt.usage)
  {
  }

  lemma WholeAnswer(receipt: SharedBatch.Receipt, x: Context)
    requires x == AcceptAll() && receipt.finished && receipt.answer == Some(ANSWER) && UsageKnown(receipt.usage)
    ensures WholeBatch(receipt, OneKey(), x.items, x.newOnly, x.check).Some?
  {
    OneCaseAnswer();
    OneCaseValid(x);
    var items := x.items;
    assert x.newOnly;
    hide Normalized, Validated, CasesOf, C.Evaluations, AcceptAll, C.NormalizeBatch, ANSWER, OneKey;
    assert C.SameCases([ROW], [C.Case(KEY, JEV.body)]);
    assert ValidatedBatch(ANSWER, OneKey(), items, x.check).Some?;
  }

  lemma AnswerDecodes(folders: map<string, Folder>, name: string, request: string)
    requires name in folders && folders[name] == AnswerTo(request)
    ensures Readable(folders, name, AcceptAll()) && WholeOf(folders, name, AcceptAll()).Some?
  {
    PlanOfOne(request, folders[name].receipt.value, AcceptAll());
    hide PlanHolds, WholeBatch, AcceptAll, ANSWER;
    WholeAnswer(folders[name].receipt.value, AcceptAll());
  }

  /** The limit of bind_saved_batch by itself: on folders that hold two answers to one case,
      the case is bound to the first, and the second's cost is with nobody.  A sector run
      never makes such folders. */
  method UnboundAnswer() returns (files: BatchFiles)
    ensures files.Valid() && AllPublished(OneKey(), map[KEY := CaseReceipt.Receipt(Some(10))], files.bindings)
    ensures Lists(["a", "b"], files.folders) && UnclaimedCosts(files.folders, files.bindings, files.context, ["a", "b"]) > 0
  {
    hide Readable, WholeOf, BoundIn, Genuine, AnswerTo, AcceptAll, UnclaimedCosts, AllPublished, OneKey;
    files := new BatchFiles(map["a" := AnswerTo("first"), "b" := AnswerTo("second")], AcceptAll());
    AnswerDecodes(files.folders, "a", "first");
    AnswerDecodes(files.folders, "b", "second");
    var first := files.BindSavedBatch("a");
    BoundToFirst(files.folders, files.proofs, files.bindings, files.context);
    var second := files.BindSavedBatch("b");
    SecondUnclaimed(files.folders, files.bindings, files.context);
    OnlyTheCase(files.folders, files.bindings, files.context);
  }

  lemma BoundToFirst(folders: map<string, Folder>, proofs: map<string, Proof>, bindings: map<string, Binding>, x: Context)
    requires "a" in folders && folders["a"] == AnswerTo("first") && BoundIn(folders, proofs, bindings, "a", x)
    ensures KEY in bindings && bindings[KEY].folder == "a"
  {
    assert BoundAt(folders, bindings, "a", x, 0);
  }

  lemma OnlyTheCase(folders: map<string, Folder>, bindings: map<string, Binding>, x: Context)
    requires x == AcceptAll() && Genuine(folders, bindings, x) && KEY in bindings
    ensures AllPublished(OneKey(), map[KEY := CaseReceipt.Receipt(Some(10))], bindings)
  {
    forall k | k in bindings ensures k == KEY {
      assert GivenBy(folders, bindings, x, k);
    }
  }

  lemma SecondUnclaimed(folders: map<string, Folder>, bindings: map<string, Binding>, x: Context)
    requires folders == map["a" := AnswerTo("first"), "b" := AnswerTo("second")] && Readable(folders, "b", x)
    requires KEY in bindings && bindings[KEY].folder == "a"
    ensures UnclaimedCosts(folders, bindings, x, ["a", "b"]) > 0
  {
    assert !BoundAt(folders, bindings, "b", x, 0);
    assert UnclaimedShares(folders, bindings, x, "b", 1) >= 4 * 250;
    assert ["a", "b"][1] == "b" && ["a", "b"][..1] == ["a"];
  }
}
