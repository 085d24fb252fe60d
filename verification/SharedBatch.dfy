/** Shared explanation batches: bind_saved_batch of
    scripts/run_dinaut_three_dot_gemma_batches.py decodes a whole answer once, and
    saved_batch_recommendation of scripts/run_dinaut_three_dot_matches.py decodes it again
    for one case.  Hashes are injective, so each is kept as what it hashes. */
module SharedBatch {
  import opened Common
  import opened WireMap
  import C = Citations

  /** A frozen scoring input. */
  datatype JevPayload = JevPayload(id: string, body: C.Payload)

  datatype Usage = Usage(prompt: Option<nat>, candidates: Option<nat>, thoughts: nat)

  /** `finished` is a single candidate that stopped by itself; `answer` is its parsed text and
      `order` the order its case map was written in. */
  datatype Receipt = Receipt(request: string, status: int, finished: bool, answer: Option<Value>, order: seq<string>, usage: Usage)

  datatype Plan = Plan(keys: seq<string>, request: string, jevRequests: map<string, JevPayload>)

  datatype Share = Share(prompt: nat, candidates: nat, thoughts: nat)

  datatype Binding = Binding(key: string, jev: JevPayload, folder: string, request: string, response: Receipt, share: Share)

  /** The files of one batch folder before it is bound. */
  datatype Folder = Folder(plan: Plan, request: string, receipt: Option<Receipt>)

  type Proof = C.Proof<string, Receipt, JevPayload>

  type Check = (Value, JevPayload) -> Option<Value>

  // ----- Allocation -------------------------------------------------------------------------

  function Split(count: nat, total: nat, index: nat): nat
    requires total > 0
  {
    count / total + if index < count % total then 1 else 0
  }

  function SumSplit(count: nat, total: nat, upto: nat): nat
    requires total > 0 && upto <= total
  {
    if upto == 0 then 0 else SumSplit(count, total, upto - 1) + Split(count, total, upto - 1)
  }

  lemma {:induction false} SumSplitValue(count: nat, total: nat, upto: nat)
    requires total > 0 && upto <= total
    ensures SumSplit(count, total, upto) == count / total * upto + if upto <= count % total then upto else count % total
  {
    if upto > 0 {
      SumSplitValue(count, total, upto - 1);
      assert count / total * upto == count / total * (upto - 1) + count / total;
    }
  }

  /** The shares of a batch add up to what the provider reported, counter by counter. */
  lemma SplitConserves(count: nat, total: nat)
    requires total > 0
    ensures SumSplit(count, total, total) == count
  {
    SumSplitValue(count, total, total);
  }

  function ShareOf(usage: Usage, total: nat, index: nat): Share
    requires total > 0 && usage.prompt.Some? && usage.candidates.Some?
  {
    Share(Split(usage.prompt.value, total, index), Split(usage.candidates.value, total, index), Split(usage.thoughts, total, index))
  }

  // ----- Decoding the whole answer ------------------------------------------------------------

  function CasesOf(keys: seq<string>, items: map<string, JevPayload>): (cases: seq<C.Case>)
    requires forall k :: k in keys ==> k in items
    ensures |cases| == |keys| && forall i :: 0 <= i < |keys| ==> keys[i] in keys && cases[i] == C.Case(keys[i], items[keys[i]].body)
  {
    if keys == [] then []
    else CasesOf(keys[..|keys| - 1], items) + [C.Case(keys[|keys| - 1], items[keys[|keys| - 1]].body)]
  }

  /** validate_recommendation_batch's loop: the per-case validation, case by case. */
  function Validated(rows: seq<Value>, keys: seq<string>, items: map<string, JevPayload>, check: Check): Option<map<string, Value>>
    requires |rows| == |keys| && forall k :: k in keys ==> k in items
  {
    if rows == [] then Some(map[])
    else
      var n := |rows| - 1;
      match (Validated(rows[..n], keys[..n], items, check), check(C.WithoutKey(rows[n]), items[keys[n]]))
      case (Some(done), Some(last)) => Some(done[keys[n] := last])
      case _ => None
  }

  /** The decoded rows of a whole batch before validation, with the citation notes. */
  ghost function Corrected(answer: Value, keys: seq<string>, items: map<string, JevPayload>, newOnly: bool): Option<(Value, seq<C.KeyedNote>)>
    requires forall k :: k in keys ==> k in items
  {
    match Normalized(answer, keys)
    case None => None
    case Some(decoded) => if newOnly then C.NormalizeBatch(decoded, CasesOf(keys, items)) else Some((decoded, []))
  }

  ghost function ValidatedBatch(v: Value, keys: seq<string>, items: map<string, JevPayload>, check: Check): Option<map<string, Value>>
    requires forall k :: k in keys ==> k in items
  {
    if C.Evaluations(v).None? || !C.SameCases(C.Evaluations(v).value, CasesOf(keys, items)) then None
    else Validated(C.Evaluations(v).value, keys, items, check)
  }

  predicate UsageKnown(u: Usage) { u.prompt.Some? && u.candidates.Some? }

  /** recommendations_with_decoder_notes: what it returns, or nothing when it raises. */
  ghost function WholeBatch(receipt: Receipt, keys: seq<string>, items: map<string, JevPayload>, newOnly: bool, check: Check)
    : Option<(map<string, Value>, seq<C.KeyedNote>)>
    requires forall k :: k in keys ==> k in items
  {
    if !receipt.finished || receipt.answer.None? then None
    else match Corrected(receipt.answer.value, keys, items, newOnly)
      case None => None
      case Some((rows, notes)) =>
        match ValidatedBatch(rows, keys, items, check)
        case None => None
        case Some(recommendations) => if UsageKnown(receipt.usage) then Some((recommendations, notes)) else None
  }

  lemma ValidatedStep(rows: seq<Value>, keys: seq<string>, items: map<string, JevPayload>, check: Check, i: nat)
    requires |rows| == |keys| && i < |rows| && forall k :: k in keys ==> k in items
    ensures keys[i] in keys && (forall k :: k in keys[..i] ==> k in items) && (forall k :: k in keys[..i + 1] ==> k in items)
    ensures Validated(rows[..i + 1], keys[..i + 1], items, check)
            == (match (Validated(rows[..i], keys[..i], items, check), check(C.WithoutKey(rows[i]), items[keys[i]]))
                case (Some(done), Some(last)) => Some(done[keys[i] := last])
                case _ => None)
  {
    assert rows[..i + 1][..i] == rows[..i] && keys[..i + 1][..i] == keys[..i];
  }

  lemma {:induction false} ValidatedFails(rows: seq<Value>, keys: seq<string>, items: map<string, JevPayload>, check: Check, i: nat)
    requires |rows| == |keys| && i <= |rows| && forall k :: k in keys ==> k in items
    requires Validated(rows[..i], keys[..i], items, check).None?
    ensures Validated(rows, keys, items, check).None?
    decreases |rows| - i
  {
    if i < |rows| {
      ValidatedStep(rows, keys, items, check, i);
      ValidatedFails(rows, keys, items, check, i + 1);
    } else {
      assert rows[..i] == rows && keys[..i] == keys;
    }
  }

  method ValidateRows(rows: seq<Value>, keys: seq<string>, items: map<string, JevPayload>, check: Check) returns (r: Option<map<string, Value>>)
    requires |rows| == |keys| && forall k :: k in keys ==> k in items
    ensures r == Validated(rows, keys, items, check)
  {
    var done: map<string, Value> := map[];
    for i := 0 to |rows|
      invariant Validated(rows[..i], keys[..i], items, check) == Some(done)
    {
      ValidatedStep(rows, keys, items, check, i);
      var one := check(C.WithoutKey(rows[i]), items[keys[i]]);
      if one.None? {
        ValidatedFails(rows, keys, items, check, i + 1);
        return None;
      }
      done := done[keys[i] := one.value];
    }
    assert rows[..|rows|] == rows && keys[..|rows|] == keys;
    return Some(done);
  }

  method RecommendationsWithDecoderNotes(receipt: Receipt, keys: seq<string>, items: map<string, JevPayload>, newOnly: bool, check: Check)
    returns (r: Option<(map<string, Value>, seq<C.KeyedNote>)>)
    requires forall k :: k in keys ==> k in items
    ensures r == WholeBatch(receipt, keys, items, newOnly, check)
  {
    hide Normalized, C.NormalizeBatch, Validated, CasesOf;
    if !receipt.finished || receipt.answer.None? { return None; }
    var decoded := NormalizeMapOutput(receipt.answer.value, keys);
    if decoded.None? { return None; }
    var rows, notes: seq<C.KeyedNote> := decoded.value, [];
    if newOnly {
      var corrected := C.NormalizeBatchSourceRefs(rows, CasesOf(keys, items));
      if corrected.None? { return None; }
      rows, notes := corrected.value.0, corrected.value.1;
    }
    if C.Evaluations(rows).None? || !C.SameCases(C.Evaluations(rows).value, CasesOf(keys, items)) { return None; }
    var recommendations := ValidateRows(C.Evaluations(rows).value, keys, items, check);
    if recommendations.None? || !UsageKnown(receipt.usage) { return None; }
    return Some((recommendations.value, notes));
  }

  // ----- Decoding one case again ----------------------------------------------------------------

  function Picked(rows: seq<Value>, key: string): seq<Value> {
    if rows == [] then []
    else Picked(rows[..|rows| - 1], key) + if Field(rows[|rows| - 1], "case_key") == Words(key) then [rows[|rows| - 1]] else []
  }

  /** saved_batch_recommendation: what it returns, or nothing when it raises.  The binding
      leads to its batch folder. */
  ghost function SavedCase(binding: Binding, folders: map<string, Folder>, proofs: map<string, Proof>,
                           key: string, jev: JevPayload, newOnly: bool, check: Check): Option<(Value, Share)>
  {
    if binding.key != key || binding.jev != jev then None
    else if binding.folder !in folders || folders[binding.folder].receipt.None? then None
    else
      var request, receipt := folders[binding.folder].request, folders[binding.folder].receipt.value;
      if receipt.status != 200 || request != receipt.request || receipt.request != binding.request || receipt != binding.response then None
      else if !receipt.finished || receipt.answer.None? then None
      else match Normalized(receipt.answer.value, receipt.order)
        case None => None
        case Some(decoded) =>
          if C.Evaluations(decoded).None? || |Picked(C.Evaluations(decoded).value, key)| != 1 then None
          else
            var row := C.WithoutKey(Picked(C.Evaluations(decoded).value, key)[0]);
            var corrected := if newOnly then C.NormalizeCase(row, jev.body) else Some((row, []));
            match corrected
            case None => None
            case Some((one, notes)) =>
              match check(one, jev)
              case None => None
              case Some(recommendation) =>
                if notes != [] && !(binding.folder in proofs
                                    && C.VerifyCaseProof(proofs[binding.folder], key, binding.request, binding.response,
                                                         binding.jev, recommendation, notes)) then None
                else Some((recommendation, binding.share))
  }

  /** What a saved recommendation is of: the case's own binding and input, the very request and
      finished 200 answer it was bound to, and, if its citations were corrected, their proof. */
  lemma SavedIsOwn(binding: Binding, folders: map<string, Folder>, proofs: map<string, Proof>,
                   key: string, jev: JevPayload, newOnly: bool, check: Check)
    requires SavedCase(binding, folders, proofs, key, jev, newOnly, check).Some?
    ensures
      var (recommendation, share) := SavedCase(binding, folders, proofs, key, jev, newOnly, check).value;
      && binding.key == key && binding.jev == jev && share == binding.share
      && binding.folder in folders && folders[binding.folder].receipt == Some(binding.response)
      && binding.response.status == 200 && binding.response.finished
      && binding.response.request == binding.request && folders[binding.folder].request == binding.request
      && exists row, notes ::
           && check(row, jev) == Some(recommendation)
           && (!newOnly ==> notes == [])
           && (newOnly ==> exists given :: C.NormalizeCase(given, jev.body) == Some((row, notes)))
           && (notes != [] ==>
                 && binding.folder in proofs
                 && C.VerifyCaseProof(proofs[binding.folder], key, binding.request, binding.response, jev, recommendation, notes))
  {
    hide Normalized, C.NormalizeCase, C.VerifyCaseProof, Picked, C.Evaluations, C.WithoutKey;
    var decoded := Normalized(binding.response.answer.value, binding.response.order).value;
    var row := C.WithoutKey(Picked(C.Evaluations(decoded).value, key)[0]);
    var (one, notes) := (if newOnly then C.NormalizeCase(row, jev.body) else Some((row, []))).value;
    assert newOnly ==> C.NormalizeCase(row, jev.body) == Some((one, notes));
    assert check(one, jev) == Some(SavedCase(binding, folders, proofs, key, jev, newOnly, check).value.0);
  }

  /** The answer's own order is that of its case map, when it is one. */
  ghost predicate OrderOk(receipt: Receipt) {
    receipt.answer.Some? && Has(receipt.answer.value, {"evaluations"}) && receipt.answer.value.fields["evaluations"].Dict? ==>
      Covers(receipt.order, receipt.answer.value.fields["evaluations"].fields)
  }

  lemma {:induction false} PickOne(rows: seq<Value>, key: string, i: nat)
    requires i < |rows| && forall j :: 0 <= j < |rows| ==> (Field(rows[j], "case_key") == Words(key) <==> j == i)
    ensures Picked(rows, key) == [rows[i]]
  {
    hide Field;
    var n := |rows| - 1;
    if i < n { PickOne(rows[..n], key, i); }
    else { PickNone(rows[..n], key); }
  }

  lemma {:induction false} PickNone(rows: seq<Value>, key: string)
    requires forall j :: 0 <= j < |rows| ==> Field(rows[j], "case_key") != Words(key)
    ensures Picked(rows, key) == []
  {
    hide Field;
    if rows != [] { PickNone(rows[..|rows| - 1], key); }
  }

  lemma DecodedKey(key: string, v: Value)
    ensures DecodeCase(key, v).Dict? && Field(DecodeCase(key, v), "case_key") == Words(key)
  {
  }

  /** Whatever order the case map is read in, the row picked for a key is the row at that
      key's position in the requested order. */
  lemma SameRow(receipt: Receipt, keys: seq<string>, i: nat, decoded: Value)
    requires receipt.answer.Some? && OrderOk(receipt) && i < |keys| && Distinct(keys)
    requires Normalized(receipt.answer.value, keys) == Some(decoded) && C.Evaluations(decoded).Some?
    requires |C.Evaluations(decoded).value| == |keys|
    requires forall j :: 0 <= j < |keys| ==> Field(C.Evaluations(decoded).value[j], "case_key") == Words(keys[j])
    ensures
      var again := Normalized(receipt.answer.value, receipt.order);
      && again.Some? && C.Evaluations(again.value).Some?
      && Picked(C.Evaluations(again.value).value, keys[i]) == [C.Evaluations(decoded).value[i]]
  {
    var v := receipt.answer.value;
    if v.fields["evaluations"].Items? {
      hide Field, DecodeCases, CaseAccepted;
      PickOne(C.Evaluations(decoded).value, keys[i], i);
    } else {
      MapRow(v, keys, receipt.order, i);
    }
  }

  lemma MapRow(v: Value, keys: seq<string>, order: seq<string>, i: nat)
    requires WireAccepted(v, keys) && Covers(order, v.fields["evaluations"].fields) && i < |keys|
    ensures
      var m := v.fields["evaluations"].fields;
      && WireAccepted(v, order) && Normalized(v, order) == Some(Envelope(Items(DecodeCases(m, order))))
      && Normalized(v, keys) == Some(Envelope(Items(DecodeCases(m, keys))))
      && C.Evaluations(Envelope(Items(DecodeCases(m, order)))) == Some(DecodeCases(m, order))
      && C.Evaluations(Envelope(Items(DecodeCases(m, keys)))) == Some(DecodeCases(m, keys))
      && Picked(DecodeCases(m, order), keys[i]) == [DecodeCases(m, keys)[i]]
  {
    hide CaseAccepted, DecodeCase, DecodeCases, Field;
    var m := v.fields["evaluations"].fields;
    var rows := DecodeCases(m, order);
    assert keys[i] in keys && keys[i] in m && keys[i] in order;
    var p :| 0 <= p < |order| && order[p] == keys[i];
    forall j | 0 <= j < |rows| ensures Field(rows[j], "case_key") == Words(order[j]) && (order[j] == keys[i] <==> j == p) {
      DecodeCasesAt(m, order, j);
      DecodedKey(order[j], Field(Dict(m), order[j]));
    }
    PickOne(rows, keys[i], p);
    DecodeCasesAt(m, order, p);
    DecodeCasesAt(m, keys, i);
  }

  lemma {:induction false} ValidatedAt(rows: seq<Value>, keys: seq<string>, items: map<string, JevPayload>, check: Check, i: nat)
    requires |rows| == |keys| && i < |rows| && Distinct(keys) && forall k :: k in keys ==> k in items
    requires Validated(rows, keys, items, check).Some?
    ensures keys[i] in keys && keys[i] in Validated(rows, keys, items, check).value
    ensures check(C.WithoutKey(rows[i]), items[keys[i]]) == Some(Validated(rows, keys, items, check).value[keys[i]])
  {
    var n := |rows| - 1;
    if i < n { ValidatedAt(rows[..n], keys[..n], items, check, i); }
  }

  // ----- The two agree ------------------------------------------------------------------------

  lemma KeyComesOff(key: string, row: Value, p: C.Payload)
    requires C.NormalizeCase(C.WithoutKey(row), p).Some?
    ensures
      var one := C.NormalizeCase(C.WithoutKey(row), p).value.0;
      C.WithoutKey(C.WithKey(key, one)) == one
  {
  }

  /** The rows of a corrected batch, before and after. */
  lemma CorrectedRows(decoded: Value, cases: seq<C.Case>)
    requires C.NormalizeBatch(decoded, cases).Some?
    ensures C.Evaluations(decoded).Some? && C.SameCases(C.Evaluations(decoded).value, cases)
    ensures
      var rows := C.Evaluations(decoded).value;
      var r := C.NormalizeBatch(decoded, cases).value;
      && C.NormalizeCases(rows, cases) == Some((C.NormalizeCases(rows, cases).value.0, r.1))
      && C.Evaluations(r.0) == Some(C.NormalizeCases(rows, cases).value.0)
  {
  }

  /** One case of the corrected batch: its citation pass, its notes, and its row. */
  lemma CorrectedAt(decoded: Value, keys: seq<string>, items: map<string, JevPayload>, i: nat)
    requires (forall k :: k in keys ==> k in items) && i < |keys| && Distinct(keys)
    requires C.NormalizeBatch(decoded, CasesOf(keys, items)).Some?
    ensures
      var r := C.NormalizeBatch(decoded, CasesOf(keys, items)).value;
      && C.Evaluations(decoded).Some? && |C.Evaluations(decoded).value| == |keys|
      && C.SameCases(C.Evaluations(decoded).value, CasesOf(keys, items))
      && C.Evaluations(r.0).Some? && |C.Evaluations(r.0).value| == |keys| && keys[i] in keys
      && var one := C.NormalizeCase(C.WithoutKey(C.Evaluations(decoded).value[i]), items[keys[i]].body);
         && one.Some? && C.WithoutKey(C.Evaluations(r.0).value[i]) == one.value.0
         && C.NotesOf(keys[i], r.1) == C.Keyed(keys[i], one.value.1)
  {
    var cases := CasesOf(keys, items);
    CorrectedRows(decoded, cases);
    var rows := C.Evaluations(decoded).value;
    hide C.NormalizeCase, C.NormalizeCases, C.NormalizeBatch, C.WithKey, C.WithoutKey, C.Evaluations, C.NotesOf;
    C.BatchIsPerCase(rows, cases, i);
    C.SizeOf(rows, cases);
    KeyComesOff(keys[i], rows[i], items[keys[i]].body);
  }

  function BindingFor(folder: string, receipt: Receipt, keys: seq<string>, items: map<string, JevPayload>, i: nat): Binding
    requires i < |keys| && keys[i] in items && UsageKnown(receipt.usage)
  {
    Binding(keys[i], items[keys[i]], folder, receipt.request, receipt, ShareOf(receipt.usage, |keys|, i))
  }

  ghost function ProofFor(receipt: Receipt, plan: Plan, whole: (map<string, Value>, seq<C.KeyedNote>)): Option<Proof> {
    C.DecoderProof(receipt.request, receipt, plan.jevRequests, whole.0, whole.1)
  }

  /** The plan's own checks in bind_saved_batch. */
  ghost predicate PlanHolds(plan: Plan, request: string, receipt: Receipt, items: map<string, JevPayload>, inScope: set<string>) {
    && receipt.status == 200 && receipt.request == request && plan.request == receipt.request
    && 1 <= |plan.keys| <= 5 && Distinct(plan.keys) && (forall k :: k in plan.keys ==> k in items && k in inScope)
    && (forall k :: k in plan.jevRequests <==> k in plan.keys)
    && (forall k :: k in plan.keys ==> plan.jevRequests[k] == items[k])
  }

  lemma NotesReplay(receipt: Receipt, plan: Plan, items: map<string, JevPayload>, recommendations: map<string, Value>,
                    decoded: Value, i: nat)
    requires i < |plan.keys| && Distinct(plan.keys) && (forall k :: k in plan.keys ==> k in items && k in recommendations)
    requires forall k :: k in plan.keys ==> k in plan.jevRequests && plan.jevRequests[k] == items[k]
    requires C.NormalizeBatch(decoded, CasesOf(plan.keys, items)).Some?
    ensures
      var key := plan.keys[i];
      var notes := C.NormalizeBatch(decoded, CasesOf(plan.keys, items)).value.1;
      var proof := C.DecoderProof(receipt.request, receipt, plan.jevRequests, recommendations, notes);
      && key in plan.keys && C.Evaluations(decoded).Some? && i < |C.Evaluations(decoded).value|
      && var one := C.NormalizeCase(C.WithoutKey(C.Evaluations(decoded).value[i]), items[key].body);
         && one.Some?
         && (one.value.1 != [] ==>
               proof.Some? && C.VerifyCaseProof(proof.value, key, receipt.request, receipt, items[key], recommendations[key], one.value.1))
  {
    var key := plan.keys[i];
    CorrectedAt(decoded, plan.keys, items, i);
    var cases := CasesOf(plan.keys, items);
    var rows := C.Evaluations(decoded).value;
    var notes := C.NormalizeBatch(decoded, cases).value.1;
    var one := C.NormalizeCase(C.WithoutKey(rows[i]), items[key].body).value;
    hide C.NormalizeCase, C.NormalizeCases, C.WithoutKey, C.VerifyCaseProof, C.DecoderProof;
    if one.1 != [] {
      assert notes != [] by {
        assert C.Keyed(key, one.1) != [];
        assert C.NotesOf(key, []) == [];
      }
      C.ProofIsExact(receipt.request, receipt, plan.jevRequests, recommendations, rows, cases, i,
                     receipt.request, receipt, items[key], recommendations[key], one.1);
    }
  }

  /** The decoded answer, the corrected one and the recommendations of a whole batch. */
  lemma WholeParts(receipt: Receipt, keys: seq<string>, items: map<string, JevPayload>, newOnly: bool, check: Check)
    returns (decoded: Value, corrected: Value, notes: seq<C.KeyedNote>)
    requires (forall k :: k in keys ==> k in items) && WholeBatch(receipt, keys, items, newOnly, check).Some?
    ensures receipt.finished && receipt.answer.Some? && UsageKnown(receipt.usage)
    ensures Normalized(receipt.answer.value, keys) == Some(decoded)
    ensures if newOnly then C.NormalizeBatch(decoded, CasesOf(keys, items)) == Some((corrected, notes)) else corrected == decoded && notes == []
    ensures C.Evaluations(corrected).Some? && C.SameCases(C.Evaluations(corrected).value, CasesOf(keys, items))
    ensures WholeBatch(receipt, keys, items, newOnly, check).value.1 == notes
    ensures Validated(C.Evaluations(corrected).value, keys, items, check) == Some(WholeBatch(receipt, keys, items, newOnly, check).value.0)
  {
    hide Normalized, C.NormalizeBatch, Validated, C.SameCases, C.Evaluations;
    decoded := Normalized(receipt.answer.value, keys).value;
    var c := Corrected(receipt.answer.value, keys, items, newOnly).value;
    corrected, notes := c.0, c.1;
  }

  /** What the second decode of one case finds before its validation. */
  lemma SavedRow(plan: Plan, receipt: Receipt, items: map<string, JevPayload>, newOnly: bool, check: Check, i: nat)
    returns (row: Value, one: Value, notes: seq<C.Note>)
    requires Distinct(plan.keys) && (forall k :: k in plan.keys ==> k in items) && OrderOk(receipt) && i < |plan.keys|
    requires forall k :: k in plan.keys ==> k in plan.jevRequests && plan.jevRequests[k] == items[k]
    requires WholeBatch(receipt, plan.keys, items, newOnly, check).Some?
    ensures receipt.finished && receipt.answer.Some? && plan.keys[i] in plan.keys
    ensures
      var again := Normalized(receipt.answer.value, receipt.order);
      again.Some? && C.Evaluations(again.value).Some? && Picked(C.Evaluations(again.value).value, plan.keys[i]) == [row]
    ensures (if newOnly then C.NormalizeCase(C.WithoutKey(row), items[plan.keys[i]].body) else Some((C.WithoutKey(row), []))) == Some((one, notes))
    ensures
      var whole := WholeBatch(receipt, plan.keys, items, newOnly, check).value;
      && plan.keys[i] in whole.0 && check(one, items[plan.keys[i]]) == Some(whole.0[plan.keys[i]])
      && (notes != [] ==>
            && ProofFor(receipt, plan, whole).Some?
            && C.VerifyCaseProof(ProofFor(receipt, plan, whole).value, plan.keys[i], receipt.request, receipt,
                                 items[plan.keys[i]], whole.0[plan.keys[i]], notes))
  {
    var keys, key := plan.keys, plan.keys[i];
    var whole := WholeBatch(receipt, keys, items, newOnly, check).value;
    var decoded, corrected, allNotes := WholeParts(receipt, keys, items, newOnly, check);
    hide WholeBatch, Normalized, C.NormalizeBatch, C.NormalizeCase, C.WithoutKey, C.VerifyCaseProof, C.DecoderProof, Picked,
         Validated, OrderOk, C.Evaluations, C.NotesOf;
    var rows := C.Evaluations(corrected).value;
    assert forall k :: k in keys ==> k in whole.0 by {
      forall k | k in keys ensures k in whole.0 {
        var j :| 0 <= j < |keys| && keys[j] == k;
        ValidatedAt(rows, keys, items, check, j);
      }
    }
    ValidatedAt(rows, keys, items, check, i);
    one, notes := C.WithoutKey(rows[i]), [];
    if newOnly {
      CorrectedAt(decoded, keys, items, i);
      NotesReplay(receipt, plan, items, whole.0, decoded, i);
      notes := C.NormalizeCase(C.WithoutKey(C.Evaluations(decoded).value[i]), items[key].body).value.1;
    }
    row := C.Evaluations(decoded).value[i];
    SameRow(receipt, keys, i, decoded);
  }

  /** What bind_saved_batch reads, apart from the folder: the prepared cases, the scope and
      the per-case validation. */
  datatype Context = Context(items: map<string, JevPayload>, inScope: set<string>, newOnly: bool, check: Check)

  ghost predicate Readable(folders: map<string, Folder>, name: string, x: Context) {
    && name in folders && folders[name].receipt.Some?
    && PlanHolds(folders[name].plan, folders[name].request, folders[name].receipt.value, x.items, x.inScope)
    && UsageKnown(folders[name].receipt.value.usage)
  }

  /** The whole decode of a folder's answer. */
  ghost function WholeOf(folders: map<string, Folder>, name: string, x: Context): Option<(map<string, Value>, seq<C.KeyedNote>)>
    requires Readable(folders, name, x)
  {
    WholeBatch(folders[name].receipt.value, folders[name].plan.keys, x.items, x.newOnly, x.check)
  }

  /** Case `i` of the folder carries the binding that the folder gives it. */
  ghost predicate BoundAt(folders: map<string, Folder>, bindings: map<string, Binding>, name: string, x: Context, i: nat)
    requires Readable(folders, name, x) && i < |folders[name].plan.keys|
  {
    var keys := folders[name].plan.keys;
    && keys[i] in x.items && keys[i] in bindings
    && bindings[keys[i]] == BindingFor(name, folders[name].receipt.value, keys, x.items, i)
  }

  /** A folder that bind_saved_batch finished on. */
  ghost predicate BoundIn(folders: map<string, Folder>, proofs: map<string, Proof>, bindings: map<string, Binding>, name: string, x: Context) {
    && Readable(folders, name, x) && WholeOf(folders, name, x).Some?
    && (forall i :: 0 <= i < |folders[name].plan.keys| ==> BoundAt(folders, bindings, name, x, i))
    && var made := ProofFor(folders[name].receipt.value, folders[name].plan, WholeOf(folders, name, x).value);
       made.Some? ==> name in proofs && proofs[name] == made.value
  }

  /** Once a batch is bound, every one of its cases is replayed alone, with the
      recommendation the whole batch decoded and its own share of the usage. */
  lemma SavedReplaysWhole(folders: map<string, Folder>, proofs: map<string, Proof>, bindings: map<string, Binding>,
                          name: string, x: Context, i: nat)
    requires BoundIn(folders, proofs, bindings, name, x) && OrderOk(folders[name].receipt.value)
    requires i < |folders[name].plan.keys|
    ensures
      var keys, receipt := folders[name].plan.keys, folders[name].receipt.value;
      var whole := WholeOf(folders, name, x).value;
      && keys[i] in keys && keys[i] in whole.0 && keys[i] in bindings
      && SavedCase(bindings[keys[i]], folders, proofs, keys[i], x.items[keys[i]], x.newOnly, x.check)
         == Some((whole.0[keys[i]], ShareOf(receipt.usage, |keys|, i)))
  {
    var plan, receipt := folders[name].plan, folders[name].receipt.value;
    var row, one, notes := SavedRow(plan, receipt, x.items, x.newOnly, x.check, i);
    assert BoundAt(folders, bindings, name, x, i);
    hide WholeBatch, Normalized, C.NormalizeCase, C.WithoutKey, C.VerifyCaseProof, Picked, OrderOk, C.Evaluations, ShareOf, ProofFor;
  }

  ghost predicate Kept<T>(before: map<string, T>, after: map<string, T>) {
    forall k :: k in before ==> k in after && after[k] == before[k]
  }

  /** Files written once: a folder that is bound stays bound. */
  lemma BoundStays(folders: map<string, Folder>, proofs: map<string, Proof>, bindings: map<string, Binding>,
                   proofs': map<string, Proof>, bindings': map<string, Binding>, name: string, x: Context)
    requires BoundIn(folders, proofs, bindings, name, x) && Kept(proofs, proofs') && Kept(bindings, bindings')
    ensures BoundIn(folders, proofs', bindings', name, x)
  {
    hide WholeOf, ProofFor;
    forall i | 0 <= i < |folders[name].plan.keys| ensures BoundAt(folders, bindings', name, x, i) {
      assert BoundAt(folders, bindings, name, x, i);
    }
  }

  // ----- Binding ---------------------------------------------------------------------------------

  /** A binding is always what some batch folder gives one of its cases. */
  ghost predicate Genuine(folders: map<string, Folder>, bindings: map<string, Binding>, x: Context) {
    forall k :: k in bindings ==> GivenBy(folders, bindings, x, k)
  }

  ghost predicate GivenBy(folders: map<string, Folder>, bindings: map<string, Binding>, x: Context, k: string)
    requires k in bindings
  {
    var name := bindings[k].folder;
    && Readable(folders, name, x)
    && exists i :: 0 <= i < |folders[name].plan.keys| && folders[name].plan.keys[i] == k && BoundAt(folders, bindings, name, x, i)
  }

  /** once_json of one case's binding: what is then on the disk, and whether nothing else was
      there before. */
  ghost function BindOne(folders: map<string, Folder>, bindings: map<string, Binding>, name: string, x: Context, i: nat)
    : (map<string, Binding>, bool)
    requires Readable(folders, name, x) && i < |folders[name].plan.keys|
  {
    var keys := folders[name].plan.keys;
    assert keys[i] in keys;
    var binding := BindingFor(name, folders[name].receipt.value, keys, x.items, i);
    if keys[i] in bindings then (bindings, bindings[keys[i]] == binding) else (bindings[keys[i] := binding], true)
  }

  /** The loop over the first `upto` cases of a folder, which ends at the first failure. */
  ghost function BindUpto(folders: map<string, Folder>, bindings: map<string, Binding>, name: string, x: Context, upto: nat)
    : (map<string, Binding>, bool)
    requires Readable(folders, name, x) && upto <= |folders[name].plan.keys|
  {
    if upto == 0 then (bindings, true)
    else
      var so := BindUpto(folders, bindings, name, x, upto - 1);
      if so.1 then BindOne(folders, so.0, name, x, upto - 1) else so
  }

  /** bind_saved_batch: the proofs and bindings it leaves and whether it finished.  Its first
      `lives` write-once steps are carried out, the proof being the first. */
  ghost function BindFolder(folders: map<string, Folder>, proofs: map<string, Proof>, bindings: map<string, Binding>,
                            name: string, x: Context, lives: nat)
    : (map<string, Proof>, map<string, Binding>, bool)
    requires name in folders
  {
    if !Readable(folders, name, x) || WholeOf(folders, name, x).None? || lives == 0 then (proofs, bindings, false)
    else
      var made := ProofFor(folders[name].receipt.value, folders[name].plan, WholeOf(folders, name, x).value);
      if made.Some? && name in proofs && proofs[name] != made.value then (proofs, bindings, false)
      else
        var n := |folders[name].plan.keys|;
        var so := BindUpto(folders, bindings, name, x, if lives - 1 < n then lives - 1 else n);
        (if made.Some? then proofs[name := made.value] else proofs, so.0, so.1 && lives > n)
  }

  class BatchFiles {
    const folders: map<string, Folder>
    const context: Context
    var proofs: map<string, Proof>
    var bindings: map<string, Binding>

    ghost predicate Valid()
      reads this
    {
      Genuine(folders, bindings, context)
    }

    constructor (folders: map<string, Folder>, context: Context)
      ensures this.folders == folders && this.context == context && proofs == map[] && bindings == map[] && Valid()
    {
      this.folders, this.context := folders, context;
      proofs, bindings := map[], map[];
    }

    /** The folder's answer decodes, and neither its proof nor a binding of its cases was
        written before. */
    ghost predicate Unclaimed(name: string)
      reads this
    {
      && Readable(folders, name, context) && WholeOf(folders, name, context).Some? && name !in proofs
      && forall i :: 0 <= i < |folders[name].plan.keys| ==> folders[name].plan.keys[i] !in bindings
    }

    /** once_json of one case's binding: false when another is there. */
    method BindCase(name: string, i: nat) returns (ok: bool)
      requires Valid() && Readable(folders, name, context) && i < |folders[name].plan.keys|
      modifies this`bindings
      ensures Valid() && Kept(old(bindings), bindings)
      ensures ok <==> BoundAt(folders, bindings, name, context, i)
      ensures !ok ==> bindings == old(bindings)
      ensures BindOne(folders, old(bindings), name, context, i) == (bindings, ok)
      ensures folders[name].plan.keys[i] !in old(bindings) ==> ok
    {
      hide ShareOf;
      var keys := folders[name].plan.keys;
      assert keys[i] in keys;
      var binding := BindingFor(name, folders[name].receipt.value, keys, context.items, i);
      if keys[i] in bindings { return bindings[keys[i]] == binding; }
      bindings := bindings[keys[i] := binding];
      forall k | k in bindings ensures GivenBy(folders, bindings, context, k) {
        if k != keys[i] { GivenStays(folders, old(bindings), bindings, context, k); }
        else { assert BoundAt(folders, bindings, name, context, i); }
      }
      ok := true;
    }

    /** The checks of the plan and the decode, which write nothing. */
    method DecodeFolder(name: string) returns (whole: Option<(map<string, Value>, seq<C.KeyedNote>)>)
      requires name in folders
      ensures whole.Some? ==> Readable(folders, name, context) && WholeOf(folders, name, context) == whole
      ensures Readable(folders, name, context) && WholeOf(folders, name, context).Some? ==> whole.Some?
    {
      hide WholeBatch;
      var plan, request, x := folders[name].plan, folders[name].request, context;
      if folders[name].receipt.None? { return None; }
      var receipt := folders[name].receipt.value;
      if receipt.status != 200 || receipt.request != request || plan.request != receipt.request { return None; }
      if !(1 <= |plan.keys| <= 5) || !Distinct(plan.keys) { return None; }
      if !(forall k :: k in plan.keys ==> k in x.items && k in x.inScope) { return None; }
      if plan.jevRequests != map k | k in plan.keys :: x.items[k] { return None; }
      whole := RecommendationsWithDecoderNotes(receipt, plan.keys, x.items, x.newOnly, x.check);
      if whole.Some? { KnownUsage(receipt, plan.keys, x.items, x.newOnly, x.check); }
    }

    /** The loop over the plan's cases; `BindWhole` says what it leaves. */
    method BindCases(name: string) returns (ok: bool)
      requires Valid() && Readable(folders, name, context)
      modifies this`bindings
      ensures Valid()
      ensures BindUpto(folders, old(bindings), name, context, |folders[name].plan.keys|) == (bindings, ok)
    {
      var keys := folders[name].plan.keys;
      ok := true;
      BindNothing(folders, bindings, name, context);
      hide *;
      for i := 0 to |keys|
        invariant Valid() && ok && BindUpto(folders, old(bindings), name, context, i) == (bindings, true)
      {
        BindMore(folders, old(bindings), bindings, name, context, i);
        ok := BindCase(name, i);
        assert BindUpto(folders, old(bindings), name, context, i + 1) == (bindings, ok);
        if !ok {
          BindStops(folders, old(bindings), name, context, i + 1, |keys|);
          return;
        }
      }
    }

    /** bind_saved_batch.  Files are written once: a case bound to another folder, another
        answer or another share of this one stops it. */
    method BindSavedBatch(name: string) returns (ok: bool)
      requires Valid() && name in folders
      modifies this
      ensures Valid() && Kept(old(bindings), bindings) && Kept(old(proofs), proofs)
      ensures (proofs, bindings, ok)
              == BindFolder(folders, old(proofs), old(bindings), name, context, |folders[name].plan.keys| + 1)
      ensures ok ==> BoundIn(folders, proofs, bindings, name, context)
      ensures old(Unclaimed(name)) ==> ok
    {
      hide WholeOf, Genuine, BoundAt, C.DecoderProof;
      var whole := DecodeFolder(name);
      if whole.None? { return false; }
      var plan, receipt := folders[name].plan, folders[name].receipt.value;
      var made := C.DecoderProof(receipt.request, receipt, plan.jevRequests, whole.value.0, whole.value.1);
      if made.Some? {
        if name in proofs && proofs[name] != made.value { return false; }
        proofs := proofs[name := made.value];
      }
      BindWhole(folders, bindings, name, context);
      hide BindUpto;
      ok := BindCases(name);
    }
  }

  lemma BindMore(folders: map<string, Folder>, start: map<string, Binding>, bindings: map<string, Binding>,
                 name: string, x: Context, i: nat)
    requires Readable(folders, name, x) && i < |folders[name].plan.keys|
    requires BindUpto(folders, start, name, x, i) == (bindings, true)
    ensures BindUpto(folders, start, name, x, i + 1) == BindOne(folders, bindings, name, x, i)
  {
  }

  lemma BindNothing(folders: map<string, Folder>, bindings: map<string, Binding>, name: string, x: Context)
    requires Readable(folders, name, x)
    ensures BindUpto(folders, bindings, name, x, 0) == (bindings, true)
  {
  }

  /** Bindings are written once, */
  lemma {:induction false} BindKeeps(folders: map<string, Folder>, bindings: map<string, Binding>, name: string, x: Context, upto: nat)
    requires Readable(folders, name, x) && upto <= |folders[name].plan.keys|
    ensures Kept(bindings, BindUpto(folders, bindings, name, x, upto).0)
  {
    hide BindingFor;
    if upto > 0 { BindKeeps(folders, bindings, name, x, upto - 1); }
  }

  /** only for the folder's own cases and as the folder gives them, */
  lemma {:induction false} BindGives(folders: map<string, Folder>, bindings: map<string, Binding>, name: string, x: Context, upto: nat,
                                     k: string)
    requires Readable(folders, name, x) && upto <= |folders[name].plan.keys|
    requires k in BindUpto(folders, bindings, name, x, upto).0 && k !in bindings
    ensures
      var keys, after := folders[name].plan.keys, BindUpto(folders, bindings, name, x, upto).0;
      exists i :: 0 <= i < upto && keys[i] == k && BoundAt(folders, after, name, x, i)
  {
    var keys, after := folders[name].plan.keys, BindUpto(folders, bindings, name, x, upto).0;
    var before := BindUpto(folders, bindings, name, x, upto - 1);
    BindLast(folders, bindings, name, x, upto);
    hide BindUpto, Readable, BindingFor;
    if k in before.0 {
      BindGives(folders, bindings, name, x, upto - 1, k);
      var i :| 0 <= i < upto - 1 && keys[i] == k && BoundAt(folders, before.0, name, x, i);
      BoundAtStays(folders, before.0, after, name, x, i);
    } else {
      assert keys[upto - 1] == k && BoundAt(folders, after, name, x, upto - 1);
    }
  }

  lemma BindLast(folders: map<string, Folder>, bindings: map<string, Binding>, name: string, x: Context, upto: nat)
    requires Readable(folders, name, x) && 0 < upto <= |folders[name].plan.keys|
    ensures
      var keys, before, after := folders[name].plan.keys, BindUpto(folders, bindings, name, x, upto - 1), BindUpto(folders, bindings, name, x, upto);
      && Kept(before.0, after.0)
      && (forall k :: k in after.0 ==> k in before.0 || k == keys[upto - 1])
      && (keys[upto - 1] !in before.0 && keys[upto - 1] in after.0 ==> BoundAt(folders, after.0, name, x, upto - 1))
      && (after.1 ==> before.1 && BoundAt(folders, after.0, name, x, upto - 1))
      && (before.1 && keys[upto - 1] !in before.0 ==> after.1)
  {
    hide ShareOf;
    var keys := folders[name].plan.keys;
    assert keys[upto - 1] in keys;
  }

  /** and when it finishes, for all of them, */
  lemma {:induction false} BindFinishes(folders: map<string, Folder>, bindings: map<string, Binding>, name: string, x: Context, upto: nat)
    requires Readable(folders, name, x) && upto <= |folders[name].plan.keys|
    requires BindUpto(folders, bindings, name, x, upto).1
    ensures forall i :: 0 <= i < upto ==> BoundAt(folders, BindUpto(folders, bindings, name, x, upto).0, name, x, i)
  {
    if upto > 0 {
      BindLast(folders, bindings, name, x, upto);
      hide BindUpto, Readable, BoundAt;
      BindFinishes(folders, bindings, name, x, upto - 1);
      var before, after := BindUpto(folders, bindings, name, x, upto - 1).0, BindUpto(folders, bindings, name, x, upto).0;
      forall i | 0 <= i < upto ensures BoundAt(folders, after, name, x, i) {
        if i < upto - 1 { BoundAtStays(folders, before, after, name, x, i); }
      }
    }
  }

  /** which it does when none of them was bound before. */
  lemma {:induction false} FreshBindFinishes(folders: map<string, Folder>, bindings: map<string, Binding>, name: string, x: Context, upto: nat)
    requires Readable(folders, name, x) && upto <= |folders[name].plan.keys|
    requires forall i :: 0 <= i < upto ==> folders[name].plan.keys[i] !in bindings
    ensures BindUpto(folders, bindings, name, x, upto).1
  {
    if upto > 0 {
      var k := folders[name].plan.keys[upto - 1];
      FreshBindFinishes(folders, bindings, name, x, upto - 1);
      BindLast(folders, bindings, name, x, upto);
      hide BindUpto, BoundAt;
      if k in BindUpto(folders, bindings, name, x, upto - 1).0 { BindGives(folders, bindings, name, x, upto - 1, k); }
    }
  }

  /** What a whole loop over the cases leaves. */
  lemma BindWhole(folders: map<string, Folder>, bindings: map<string, Binding>, name: string, x: Context)
    requires Readable(folders, name, x)
    ensures
      var keys, so := folders[name].plan.keys, BindUpto(folders, bindings, name, x, |folders[name].plan.keys|);
      && Kept(bindings, so.0)
      && (so.1 ==> forall i :: 0 <= i < |keys| ==> BoundAt(folders, so.0, name, x, i))
      && ((forall i :: 0 <= i < |keys| ==> keys[i] !in bindings) ==> so.1)
  {
    var n := |folders[name].plan.keys|;
    hide BindUpto, Readable, BoundAt;
    BindKeeps(folders, bindings, name, x, n);
    if BindUpto(folders, bindings, name, x, n).1 { BindFinishes(folders, bindings, name, x, n); }
    if forall i :: 0 <= i < n ==> folders[name].plan.keys[i] !in bindings { FreshBindFinishes(folders, bindings, name, x, n); }
  }

  lemma {:induction false} BindStops(folders: map<string, Folder>, bindings: map<string, Binding>, name: string, x: Context, i: nat, n: nat)
    requires Readable(folders, name, x) && i <= n <= |folders[name].plan.keys| && !BindUpto(folders, bindings, name, x, i).1
    ensures BindUpto(folders, bindings, name, x, n) == BindUpto(folders, bindings, name, x, i)
  {
    if i < n { BindStops(folders, bindings, name, x, i, n - 1); }
  }

  lemma BoundAtStays(folders: map<string, Folder>, bindings: map<string, Binding>, bindings': map<string, Binding>, name: string, x: Context, i: nat)
    requires Readable(folders, name, x) && i < |folders[name].plan.keys|
    requires BoundAt(folders, bindings, name, x, i) && Kept(bindings, bindings')
    ensures BoundAt(folders, bindings', name, x, i)
  {
  }

  lemma GivenStays(folders: map<string, Folder>, bindings: map<string, Binding>, bindings': map<string, Binding>, x: Context, k: string)
    requires k in bindings && GivenBy(folders, bindings, x, k) && Kept(bindings, bindings')
    ensures GivenBy(folders, bindings', x, k)
  {
    hide ShareOf, PlanHolds;
    var name := bindings[k].folder;
    var i :| 0 <= i < |folders[name].plan.keys| && folders[name].plan.keys[i] == k && BoundAt(folders, bindings, name, x, i);
    assert BoundAt(folders, bindings', name, x, i);
  }

  lemma KnownUsage(receipt: Receipt, keys: seq<string>, items: map<string, JevPayload>, newOnly: bool, check: Check)
    requires (forall k :: k in keys ==> k in items) && WholeBatch(receipt, keys, items, newOnly, check).Some?
    ensures UsageKnown(receipt.usage)
  {
  }
}
