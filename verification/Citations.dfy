/** scripts/dinaut_source_citation_refs.py: a reference that is exactly the requirement's own
    source citation is moved out of the company's evidence, and nothing else changes. */
module Citations {
  import opened Common
  import opened WireMap

  const REFS := "evidence_refs"

  /** A frozen requirement: its number, and the text it cites if it cites one. */
  datatype Requirement = Requirement(number: int, citation: Option<string>)

  datatype Payload = Payload(requirements: seq<Requirement>, valid: set<string>)

  datatype Note = Note(number: int, citation: string, removed: seq<string>, retained: seq<string>)

  datatype Case = Case(key: string, payload: Payload)

  datatype KeyedNote = KeyedNote(key: string, note: Note)

  function Texts(items: seq<Value>): Option<seq<string>> {
    if items == [] then Some([])
    else match (Texts(items[..|items| - 1]), items[|items| - 1])
      case (Some(done), Words(s)) => Some(done + [s])
      case _ => None
  }

  function RefTexts(row: Value): Option<seq<string>> {
    match Field(row, REFS) case Items(items) => Texts(items) case _ => None
  }

  function AsItems(texts: seq<string>): (r: Value)
    ensures r.Items? && |r.items| == |texts| && forall i :: 0 <= i < |texts| ==> r.items[i] == Words(texts[i])
  {
    Items(seq(|texts|, i requires 0 <= i < |texts| => Words(texts[i])))
  }

  function Keep(refs: seq<string>, valid: set<string>): seq<string> {
    if refs == [] then [] else (if refs[0] in valid then [refs[0]] else []) + Keep(refs[1..], valid)
  }

  function Drop(refs: seq<string>, valid: set<string>): seq<string> {
    if refs == [] then [] else (if refs[0] in valid then [] else [refs[0]]) + Drop(refs[1..], valid)
  }

  /** One row: the row to keep and the note, or nothing when it cites something unknown. */
  function NormalizeRow(row: Value, requirement: Requirement, valid: set<string>): Option<(Value, seq<Note>)> {
    match RefTexts(row)
    case None => None
    case Some(refs) =>
      var unknown := Drop(refs, valid);
      if unknown == [] then Some((row, []))
      else if requirement.citation.None? || requirement.citation.value == ""
           || (exists ref :: ref in unknown && ref != requirement.citation.value) then None
      else
        var retained := Keep(refs, valid);
        Some((Dict(Fields(row)[REFS := AsItems(retained)]),
              [Note(requirement.number, requirement.citation.value, unknown, retained)]))
  }

  function NormalizeRows(rows: seq<Value>, requirements: seq<Requirement>, valid: set<string>): Option<(seq<Value>, seq<Note>)>
    requires |rows| == |requirements|
  {
    if rows == [] then Some(([], []))
    else
      var n := |rows| - 1;
      match (NormalizeRows(rows[..n], requirements[..n], valid), NormalizeRow(rows[n], requirements[n], valid))
      case (Some(done), Some(last)) => Some((done.0 + [last.0], done.1 + last.1))
      case _ => None
  }

  ghost predicate DistinctNumbers(requirements: seq<Requirement>) {
    forall i, j :: 0 <= i < j < |requirements| ==> requirements[i].number != requirements[j].number
  }

  /** The rows are the frozen requirements, in order. */
  predicate Aligned(rows: seq<Value>, requirements: seq<Requirement>) {
    |rows| == |requirements|
    && forall i :: 0 <= i < |rows| ==> rows[i].Dict? && Field(rows[i], "source_index") == Int(requirements[i].number)
  }

  function Rows(v: Value): Option<seq<Value>> {
    match Field(v, "requisitos") case Items(rows) => Some(rows) case _ => None
  }

  ghost predicate Applies(v: Value, p: Payload) {
    DistinctNumbers(p.requirements) && Rows(v).Some? && Aligned(Rows(v).value, p.requirements)
  }

  function WithRows(v: Value, rows: seq<Value>): Value { Dict(Fields(v)["requisitos" := Items(rows)]) }

  /** What normalize_requirement_source_refs returns, or nothing when it raises. */
  ghost function NormalizeCase(v: Value, p: Payload): Option<(Value, seq<Note>)> {
    if !Applies(v, p) then None
    else match NormalizeRows(Rows(v).value, p.requirements, p.valid)
      case None => None
      case Some((rows, notes)) => Some((WithRows(v, rows), notes))
  }

  method AllApart(requirements: seq<Requirement>) returns (yes: bool)
    ensures yes <==> DistinctNumbers(requirements)
  {
    var seen: set<int> := {};
    for i := 0 to |requirements|
      invariant forall n :: n in seen <==> exists j :: 0 <= j < i && requirements[j].number == n
      invariant DistinctNumbers(requirements[..i])
    {
      if requirements[i].number in seen {
        assert !DistinctNumbers(requirements);
        return false;
      }
      seen := seen + {requirements[i].number};
    }
    assert requirements[..|requirements|] == requirements;
    return true;
  }

  lemma NoRowsYet(valid: set<string>)
    ensures NormalizeRows([], [], valid) == Some(([], []))
  {
  }

  /** The loop of normalize_requirement_source_refs over an independent copy. */
  method NormalizeRequirementSourceRefs(v: Value, p: Payload) returns (r: Option<(Value, seq<Note>)>)
    ensures r == NormalizeCase(v, p)
  {
    hide NormalizeRow, NormalizeRows, DistinctNumbers;
    var apart := AllApart(p.requirements);
    if !apart { return None; }
    NoRowsYet(p.valid);
    if Rows(v).None? || !Aligned(Rows(v).value, p.requirements) { return None; }
    var rows := Rows(v).value;
    var derived := rows;
    var notes: seq<Note> := [];
    for i := 0 to |rows|
      invariant |derived| == |rows| && derived[i..] == rows[i..]
      invariant NormalizeRows(rows[..i], p.requirements[..i], p.valid) == Some((derived[..i], notes))
    {
      PrefixStep(rows, p.requirements, p.valid, i);
      var one := NormalizeRow(derived[i], p.requirements[i], p.valid);
      if one.None? {
        PrefixFails(rows, p.requirements, p.valid, i + 1);
        return None;
      }
      derived := derived[i := one.value.0];
      notes := notes + one.value.1;
      assert derived[..i + 1] == derived[..i] + [one.value.0];
    }
    assert rows[..|rows|] == rows && derived[..|rows|] == derived && p.requirements[..|rows|] == p.requirements;
    return Some((WithRows(v, derived), notes));
  }

  lemma PrefixStep(rows: seq<Value>, requirements: seq<Requirement>, valid: set<string>, i: nat)
    requires |rows| == |requirements| && i < |rows|
    ensures NormalizeRows(rows[..i + 1], requirements[..i + 1], valid)
            == (match (NormalizeRows(rows[..i], requirements[..i], valid), NormalizeRow(rows[i], requirements[i], valid))
                case (Some(done), Some(last)) => Some((done.0 + [last.0], done.1 + last.1))
                case _ => None)
  {
    assert rows[..i + 1][..i] == rows[..i] && requirements[..i + 1][..i] == requirements[..i];
  }

  lemma {:induction false} PrefixFails(rows: seq<Value>, requirements: seq<Requirement>, valid: set<string>, i: nat)
    requires |rows| == |requirements| && i <= |rows| && NormalizeRows(rows[..i], requirements[..i], valid).None?
    ensures NormalizeRows(rows, requirements, valid).None?
    decreases |rows| - i
  {
    if i < |rows| {
      PrefixStep(rows, requirements, valid, i);
      PrefixFails(rows, requirements, valid, i + 1);
    } else {
      assert rows[..i] == rows && requirements[..i] == requirements;
    }
  }

  // ----- What it changes --------------------------------------------------------------------

  /** `all` is an order-preserving merge of the two lists. */
  predicate IsMerge(all: seq<string>, a: seq<string>, b: seq<string>) {
    if all == [] then a == [] && b == []
    else (a != [] && a[0] == all[0] && IsMerge(all[1..], a[1..], b)) || (b != [] && b[0] == all[0] && IsMerge(all[1..], a, b[1..]))
  }

  lemma {:induction false} KeepDrop(refs: seq<string>, valid: set<string>)
    ensures IsMerge(refs, Keep(refs, valid), Drop(refs, valid))
    ensures forall ref :: ref in Keep(refs, valid) ==> ref in valid
    ensures forall ref :: ref in Drop(refs, valid) ==> ref !in valid
    ensures Drop(Keep(refs, valid), valid) == []
  {
    if refs != [] {
      KeepDrop(refs[1..], valid);
      var kept, dropped := Keep(refs, valid), Drop(refs, valid);
      if refs[0] in valid {
        assert kept[0] == refs[0] && kept[1..] == Keep(refs[1..], valid) && dropped == Drop(refs[1..], valid);
      } else {
        assert dropped[0] == refs[0] && dropped[1..] == Drop(refs[1..], valid) && kept == Keep(refs[1..], valid);
      }
    }
  }

  lemma {:induction false} TextsBack(texts: seq<string>)
    ensures Texts(AsItems(texts).items) == Some(texts)
  {
    var items := AsItems(texts).items;
    if texts != [] {
      var n := |texts| - 1;
      TextsBack(texts[..n]);
      assert items[..n] == AsItems(texts[..n]).items && items[n] == Words(texts[n]);
      assert texts == texts[..n] + [texts[n]];
    }
  }

  /** The same row but for its references, which split into the valid ones kept and copies
      of this requirement's citation removed. */
  ghost predicate OnlyRefsChange(row: Value, row': Value, requirement: Requirement, valid: set<string>, notes: seq<Note>) {
    && Fields(row) - {REFS} == Fields(row') - {REFS}
    && RefTexts(row).Some? && RefTexts(row').Some?
    && (forall ref :: ref in RefTexts(row').value ==> ref in valid)
    && if notes == [] then row' == row
       else
         var note := notes[0];
         && |notes| == 1
         && note.number == requirement.number && requirement.citation == Some(note.citation) && note.citation != "" && note.citation !in valid
         && note.retained == RefTexts(row').value && note.removed != []
         && (forall ref :: ref in note.removed ==> ref == note.citation)
         && IsMerge(RefTexts(row).value, note.retained, note.removed)
  }

  /** The row after its references were changed. */
  lemma KeptRow(row: Value, requirement: Requirement, valid: set<string>)
    requires NormalizeRow(row, requirement, valid).Some? && Drop(RefTexts(row).value, valid) != []
    ensures
      var row' := NormalizeRow(row, requirement, valid).value.0;
      Fields(row') - {REFS} == Fields(row) - {REFS} && RefTexts(row') == Some(Keep(RefTexts(row).value, valid))
  {
    var row' := NormalizeRow(row, requirement, valid).value.0;
    var kept := Keep(RefTexts(row).value, valid);
    TextsBack(kept);
    hide Keep, Drop, Texts, AsItems;
    assert Field(row', REFS) == AsItems(kept);
  }

  /** A row with nothing to remove is kept as it is. */
  lemma RowStays(row: Value, requirement: Requirement, valid: set<string>)
    requires NormalizeRow(row, requirement, valid).Some? && Drop(RefTexts(row).value, valid) == []
    ensures NormalizeRow(row, requirement, valid) == Some((row, []))
    ensures OnlyRefsChange(row, row, requirement, valid, [])
  {
    NothingDropped(RefTexts(row).value, valid);
    hide Keep, Drop, RefTexts, Fields, AsItems, IsMerge;
  }

  /** What is removed are copies of the citation, which is no reference of the company. */
  lemma RowMoves(row: Value, requirement: Requirement, valid: set<string>)
    requires NormalizeRow(row, requirement, valid).Some? && Drop(RefTexts(row).value, valid) != []
    ensures
      var r := NormalizeRow(row, requirement, valid).value;
      OnlyRefsChange(row, r.0, requirement, valid, r.1)
  {
    var dropped := Drop(RefTexts(row).value, valid);
    KeepDrop(RefTexts(row).value, valid);
    KeptRow(row, requirement, valid);
    hide Keep, Drop, RefTexts, Fields, AsItems, IsMerge;
    assert dropped[0] in dropped;
  }

  lemma MovedRowStays(row: Value, requirement: Requirement, valid: set<string>)
    requires NormalizeRow(row, requirement, valid).Some? && Drop(RefTexts(row).value, valid) != []
    ensures
      var row' := NormalizeRow(row, requirement, valid).value.0;
      NormalizeRow(row', requirement, valid) == Some((row', []))
  {
    KeepDrop(RefTexts(row).value, valid);
    KeptRow(row, requirement, valid);
    hide Keep, Drop, RefTexts, Fields, AsItems, IsMerge;
  }

  lemma RowChange(row: Value, requirement: Requirement, valid: set<string>)
    requires NormalizeRow(row, requirement, valid).Some?
    ensures
      var r := NormalizeRow(row, requirement, valid).value;
      OnlyRefsChange(row, r.0, requirement, valid, r.1) && NormalizeRow(r.0, requirement, valid) == Some((r.0, []))
  {
    if Drop(RefTexts(row).value, valid) == [] {
      RowStays(row, requirement, valid);
    } else {
      RowMoves(row, requirement, valid);
      MovedRowStays(row, requirement, valid);
    }
    hide *;
  }

  lemma {:induction false} NothingDropped(refs: seq<string>, valid: set<string>)
    requires Drop(refs, valid) == []
    ensures forall ref :: ref in refs ==> ref in valid
  {
    if refs != [] { NothingDropped(refs[1..], valid); }
  }

  /** The notes of row i. */
  function NotesAt(rows: seq<Value>, requirements: seq<Requirement>, valid: set<string>, i: nat): seq<Note>
    requires |rows| == |requirements| && i < |rows|
  {
    match NormalizeRow(rows[i], requirements[i], valid) case Some(r) => r.1 case None => []
  }

  lemma {:induction false} RowsSize(rows: seq<Value>, requirements: seq<Requirement>, valid: set<string>)
    requires |rows| == |requirements| && NormalizeRows(rows, requirements, valid).Some?
    ensures |NormalizeRows(rows, requirements, valid).value.0| == |rows|
  {
    hide NormalizeRow;
    if rows != [] { RowsSize(rows[..|rows| - 1], requirements[..|rows| - 1], valid); }
  }

  lemma {:induction false} RowsChangeAt(rows: seq<Value>, requirements: seq<Requirement>, valid: set<string>, i: nat)
    requires |rows| == |requirements| && NormalizeRows(rows, requirements, valid).Some? && i < |rows|
    ensures |NormalizeRows(rows, requirements, valid).value.0| == |rows|
    ensures NormalizeRow(rows[i], requirements[i], valid).Some?
    ensures NormalizeRows(rows, requirements, valid).value.0[i] == NormalizeRow(rows[i], requirements[i], valid).value.0
  {
    hide NormalizeRow;
    var n := |rows| - 1;
    RowsSize(rows, requirements, valid);
    RowsSize(rows[..n], requirements[..n], valid);
    if i < n { RowsChangeAt(rows[..n], requirements[..n], valid, i); }
  }

  lemma {:induction false} RowsSettle(rows: seq<Value>, requirements: seq<Requirement>, valid: set<string>)
    requires |rows| == |requirements|
    requires forall i :: 0 <= i < |rows| ==> NormalizeRow(rows[i], requirements[i], valid) == Some((rows[i], []))
    ensures NormalizeRows(rows, requirements, valid) == Some((rows, []))
  {
    hide NormalizeRow;
    if rows != [] {
      var n := |rows| - 1;
      RowsSettle(rows[..n], requirements[..n], valid);
      var none: seq<Note> := [];
      assert rows == rows[..n] + [rows[n]] && none + none == none;
      assert NormalizeRow(rows[n], requirements[n], valid) == Some((rows[n], none));
    }
  }

  lemma RowsChange(rows: seq<Value>, requirements: seq<Requirement>, valid: set<string>)
    requires |rows| == |requirements| && NormalizeRows(rows, requirements, valid).Some?
    ensures
      var r := NormalizeRows(rows, requirements, valid).value.0;
      && |r| == |rows|
      && (forall i :: 0 <= i < |rows| ==> OnlyRefsChange(rows[i], r[i], requirements[i], valid, NotesAt(rows, requirements, valid, i)))
      && NormalizeRows(r, requirements, valid) == Some((r, []))
  {
    hide NormalizeRow, NormalizeRows, OnlyRefsChange;
    RowsSize(rows, requirements, valid);
    var r := NormalizeRows(rows, requirements, valid).value.0;
    forall i | 0 <= i < |rows|
      ensures OnlyRefsChange(rows[i], r[i], requirements[i], valid, NotesAt(rows, requirements, valid, i))
              && NormalizeRow(r[i], requirements[i], valid) == Some((r[i], []))
    {
      RowsChangeAt(rows, requirements, valid, i);
      RowChange(rows[i], requirements[i], valid);
    }
    RowsSettle(r, requirements, valid);
  }

  lemma SameNumbers(rows: seq<Value>, rows': seq<Value>, requirements: seq<Requirement>, valid: set<string>)
    requires Aligned(rows, requirements) && |rows'| == |rows|
    requires forall i :: 0 <= i < |rows| ==> OnlyRefsChange(rows[i], rows'[i], requirements[i], valid, NotesAt(rows, requirements, valid, i))
    ensures Aligned(rows', requirements)
  {
    forall i | 0 <= i < |rows| ensures rows'[i].Dict? && Field(rows'[i], "source_index") == Int(requirements[i].number) {
      assert OnlyRefsChange(rows[i], rows'[i], requirements[i], valid, NotesAt(rows, requirements, valid, i));
      assert "source_index" in Fields(rows[i]) - {REFS};
      assert "source_index" in Fields(rows'[i]) - {REFS};
      assert (Fields(rows[i]) - {REFS})["source_index"] == (Fields(rows'[i]) - {REFS})["source_index"];
    }
  }

  lemma WithRowsFields(v: Value, rows: seq<Value>)
    ensures Rows(WithRows(v, rows)) == Some(rows)
    ensures Fields(WithRows(v, rows)) - {"requisitos"} == Fields(v) - {"requisitos"}
    ensures WithRows(WithRows(v, rows), rows) == WithRows(v, rows)
  {
  }

  /** The normaliser changes nothing but references, each list being a merge of what it keeps
      and what it removes; a second pass changes nothing and notes nothing. */
  lemma CaseChange(v: Value, p: Payload)
    requires NormalizeCase(v, p).Some?
    ensures
      var r := NormalizeCase(v, p).value;
      && Fields(r.0) - {"requisitos"} == Fields(v) - {"requisitos"}
      && Rows(r.0).Some? && |Rows(r.0).value| == |Rows(v).value| == |p.requirements|
      && (forall i :: 0 <= i < |p.requirements| ==>
            OnlyRefsChange(Rows(v).value[i], Rows(r.0).value[i], p.requirements[i], p.valid,
                           NotesAt(Rows(v).value, p.requirements, p.valid, i)))
      && NormalizeCase(r.0, p) == Some((r.0, []))
  {
    hide OnlyRefsChange, NormalizeRows, NotesAt, Rows, WithRows;
    var rows := Rows(v).value;
    RowsChange(rows, p.requirements, p.valid);
    var rows' := NormalizeRows(rows, p.requirements, p.valid).value.0;
    SameNumbers(rows, rows', p.requirements, p.valid);
    hide Aligned;
    WithRowsFields(v, rows');
  }

  /** Every reference of the row is one of the company's, or the requirement's own citation. */
  ghost predicate RefsAccepted(row: Value, requirement: Requirement, valid: set<string>) {
    && Field(row, "evidence_refs").Items?
    && forall item :: item in Field(row, "evidence_refs").items ==>
         item.Words? && (item.s in valid || (item.s != "" && requirement.citation == Some(item.s)))
  }

  lemma {:induction false} TextsOf(items: seq<Value>)
    ensures Texts(items).Some? <==> forall item :: item in items ==> item.Words?
    ensures Texts(items).Some? ==> |Texts(items).value| == |items| && forall i :: 0 <= i < |items| ==> items[i] == Words(Texts(items).value[i])
  {
    if items != [] {
      var n := |items| - 1;
      TextsOf(items[..n]);
      assert items == items[..n] + [items[n]];
      assert items[n] in items;
      forall item | item in items[..n] ensures item in items { }
      assert Texts(items).Some? <==> Texts(items[..n]).Some? && items[n].Words?;
      hide Texts;
    }
  }

  lemma {:induction false} DropMembers(refs: seq<string>, valid: set<string>)
    ensures forall ref :: ref in Drop(refs, valid) <==> ref in refs && ref !in valid
  {
    if refs != [] { DropMembers(refs[1..], valid); }
  }

  lemma RowAcceptsExactly(row: Value, requirement: Requirement, valid: set<string>)
    ensures NormalizeRow(row, requirement, valid).Some? <==> RefsAccepted(row, requirement, valid)
  {
    if Field(row, "evidence_refs").Items? {
      var items := Field(row, "evidence_refs").items;
      TextsOf(items);
      if Texts(items).Some? {
        var refs := Texts(items).value;
        DropMembers(refs, valid);
        hide Texts, Drop, Field, Keep;
        assert forall ref :: ref in refs ==> Words(ref) in items;
        assert forall item :: item in items ==> item.s in refs;
        var unknown := Drop(refs, valid);
        if unknown != [] { assert unknown[0] in unknown; }
      }
    }
  }

  lemma {:induction false} RowsAccept(rows: seq<Value>, requirements: seq<Requirement>, valid: set<string>)
    requires |rows| == |requirements|
    ensures NormalizeRows(rows, requirements, valid).Some? <==>
              forall i :: 0 <= i < |rows| ==> RefsAccepted(rows[i], requirements[i], valid)
  {
    hide NormalizeRow, RefsAccepted;
    if rows != [] {
      var n := |rows| - 1;
      RowsAccept(rows[..n], requirements[..n], valid);
      RowAcceptsExactly(rows[n], requirements[n], valid);
    }
  }

  /** What the normaliser accepts: the frozen requirements, each once and in order, with no
      reference that is neither the company's nor that requirement's own citation. */
  lemma CaseAcceptsExactly(v: Value, p: Payload)
    ensures NormalizeCase(v, p).Some? <==>
              && (forall i, j :: 0 <= i < j < |p.requirements| ==> p.requirements[i].number != p.requirements[j].number)
              && Field(v, "requisitos").Items? && |Field(v, "requisitos").items| == |p.requirements|
              && forall i :: 0 <= i < |p.requirements| ==>
                   var row := Field(v, "requisitos").items[i];
                   && row.Dict? && Field(row, "source_index") == Int(p.requirements[i].number)
                   && RefsAccepted(row, p.requirements[i], p.valid)
  {
    hide NormalizeRows, RefsAccepted, Field;
    if Applies(v, p) { RowsAccept(Rows(v).value, p.requirements, p.valid); }
  }

  // ----- The batch form -----------------------------------------------------------------------

  function WithoutKey(v: Value): Value { Dict(Fields(v) - {"case_key"}) }

  function WithKey(key: string, v: Value): Value { Dict(Fields(v)["case_key" := Words(key)]) }

  function Keyed(key: string, notes: seq<Note>): (r: seq<KeyedNote>)
    ensures |r| == |notes| && forall i :: 0 <= i < |notes| ==> r[i] == KeyedNote(key, notes[i])
  {
    seq(|notes|, i requires 0 <= i < |notes| => KeyedNote(key, notes[i]))
  }

  predicate SameCases(rows: seq<Value>, cases: seq<Case>) {
    |rows| == |cases| && forall i :: 0 <= i < |rows| ==> rows[i].Dict? && Field(rows[i], "case_key") == Words(cases[i].key)
  }

  ghost function NormalizeCases(rows: seq<Value>, cases: seq<Case>): Option<(seq<Value>, seq<KeyedNote>)>
    requires |rows| == |cases|
  {
    if rows == [] then Some(([], []))
    else
      var n := |rows| - 1;
      match (NormalizeCases(rows[..n], cases[..n]), NormalizeCase(WithoutKey(rows[n]), cases[n].payload))
      case (Some(done), Some(last)) => Some((done.0 + [WithKey(cases[n].key, last.0)], done.1 + Keyed(cases[n].key, last.1)))
      case _ => None
  }

  function Evaluations(v: Value): Option<seq<Value>> {
    if !Has(v, {"evaluations"}) then None
    else match v.fields["evaluations"] case Items(rows) => Some(rows) case _ => None
  }

  /** What normalize_batch_source_refs returns, or nothing when it raises. */
  ghost function NormalizeBatch(v: Value, cases: seq<Case>): Option<(Value, seq<KeyedNote>)> {
    if Evaluations(v).None? || !SameCases(Evaluations(v).value, cases) then None
    else match NormalizeCases(Evaluations(v).value, cases)
      case None => None
      case Some((rows, notes)) => Some((Envelope(Items(rows)), notes))
  }

  method NormalizeBatchSourceRefs(v: Value, cases: seq<Case>) returns (r: Option<(Value, seq<KeyedNote>)>)
    ensures r == NormalizeBatch(v, cases)
  {
    if Evaluations(v).None? || !SameCases(Evaluations(v).value, cases) { return None; }
    var rows := Evaluations(v).value;
    var derived: seq<Value> := [];
    var notes: seq<KeyedNote> := [];
    hide NormalizeCase;
    for i := 0 to |rows|
      invariant NormalizeCases(rows[..i], cases[..i]) == Some((derived, notes))
    {
      CasesStep(rows, cases, i);
      var one := NormalizeRequirementSourceRefs(WithoutKey(rows[i]), cases[i].payload);
      if one.None? {
        CasesFail(rows, cases, i + 1);
        return None;
      }
      derived := derived + [WithKey(cases[i].key, one.value.0)];
      notes := notes + Keyed(cases[i].key, one.value.1);
    }
    assert rows[..|rows|] == rows && cases[..|rows|] == cases;
    return Some((Envelope(Items(derived)), notes));
  }

  lemma CasesStep(rows: seq<Value>, cases: seq<Case>, i: nat)
    requires |rows| == |cases| && i < |rows|
    ensures NormalizeCases(rows[..i + 1], cases[..i + 1])
            == (match (NormalizeCases(rows[..i], cases[..i]), NormalizeCase(WithoutKey(rows[i]), cases[i].payload))
                case (Some(done), Some(last)) =>
                  Some((done.0 + [WithKey(cases[i].key, last.0)], done.1 + Keyed(cases[i].key, last.1)))
                case _ => None)
  {
    hide NormalizeCase;
    assert rows[..i + 1][..i] == rows[..i] && cases[..i + 1][..i] == cases[..i];
  }

  lemma {:induction false} CasesFail(rows: seq<Value>, cases: seq<Case>, i: nat)
    requires |rows| == |cases| && i <= |rows| && NormalizeCases(rows[..i], cases[..i]).None?
    ensures NormalizeCases(rows, cases).None?
    decreases |rows| - i
  {
    hide NormalizeCase;
    if i < |rows| {
      CasesStep(rows, cases, i);
      CasesFail(rows, cases, i + 1);
    } else {
      assert rows[..i] == rows && cases[..i] == cases;
    }
  }

  function NotesOf(key: string, notes: seq<KeyedNote>): seq<KeyedNote> {
    if notes == [] then []
    else (if notes[0].key == key then [notes[0]] else []) + NotesOf(key, notes[1..])
  }

  lemma {:induction false} NotesOfJoin(key: string, a: seq<KeyedNote>, b: seq<KeyedNote>)
    ensures NotesOf(key, a + b) == NotesOf(key, a) + NotesOf(key, b)
  {
    if a == [] { assert a + b == b; }
    else {
      assert (a + b)[0] == a[0] && (a + b)[1..] == a[1..] + b;
      NotesOfJoin(key, a[1..], b);
    }
  }

  lemma {:induction false} NotesOfKeyed(key: string, other: string, notes: seq<Note>)
    ensures NotesOf(key, Keyed(other, notes)) == if key == other then Keyed(other, notes) else []
  {
    if notes != [] {
      assert Keyed(other, notes)[1..] == Keyed(other, notes[1..]);
      NotesOfKeyed(key, other, notes[1..]);
      if key == other { assert Keyed(other, notes) == [KeyedNote(other, notes[0])] + Keyed(other, notes[1..]); }
    }
  }

  predicate DistinctKeys(cases: seq<Case>) {
    forall i, j :: 0 <= i < j < |cases| ==> cases[i].key != cases[j].key
  }

  /** The batch form is the per-case form applied at every position, and each case's notes can
      be picked out of the batch's again. */
  lemma {:induction false} BatchIsPerCase(rows: seq<Value>, cases: seq<Case>, i: nat)
    requires |rows| == |cases| && DistinctKeys(cases) && NormalizeCases(rows, cases).Some? && i < |cases|
    ensures
      var r := NormalizeCases(rows, cases).value;
      var one := NormalizeCase(WithoutKey(rows[i]), cases[i].payload);
      && |r.0| == |rows| && one.Some? && r.0[i] == WithKey(cases[i].key, one.value.0)
      && NotesOf(cases[i].key, r.1) == Keyed(cases[i].key, one.value.1)
  {
    hide NormalizeCase, WithKey, WithoutKey;
    var n := |rows| - 1;
    var done := NormalizeCases(rows[..n], cases[..n]).value;
    var last := NormalizeCase(WithoutKey(rows[n]), cases[n].payload).value;
    NotesOfJoin(cases[i].key, done.1, Keyed(cases[n].key, last.1));
    NotesOfKeyed(cases[i].key, cases[n].key, last.1);
    SizeOf(rows[..n], cases[..n]);
    if i < n {
      BatchIsPerCase(rows[..n], cases[..n], i);
      assert rows[..n][i] == rows[i] && cases[..n][i] == cases[i];
    } else {
      NoForeignNotes(rows[..n], cases[..n], cases[n].key);
    }
  }

  lemma {:induction false} SizeOf(rows: seq<Value>, cases: seq<Case>)
    requires |rows| == |cases| && NormalizeCases(rows, cases).Some?
    ensures |NormalizeCases(rows, cases).value.0| == |rows|
  {
    hide NormalizeCase;
    if rows != [] { SizeOf(rows[..|rows| - 1], cases[..|rows| - 1]); }
  }

  lemma {:induction false} NoForeignNotes(rows: seq<Value>, cases: seq<Case>, key: string)
    requires |rows| == |cases| && NormalizeCases(rows, cases).Some? && forall i :: 0 <= i < |cases| ==> cases[i].key != key
    ensures NotesOf(key, NormalizeCases(rows, cases).value.1) == []
  {
    hide NormalizeCase;
    if rows != [] {
      var n := |rows| - 1;
      NoForeignNotes(rows[..n], cases[..n], key);
      var done := NormalizeCases(rows[..n], cases[..n]).value;
      var last := NormalizeCase(WithoutKey(rows[n]), cases[n].payload).value;
      NotesOfJoin(key, done.1, Keyed(cases[n].key, last.1));
      NotesOfKeyed(key, cases[n].key, last.1);
    }
  }

  /** One case that cannot be normalised stops the whole batch, and nothing else does. */
  lemma {:induction false} BatchAcceptsExactly(rows: seq<Value>, cases: seq<Case>)
    requires |rows| == |cases|
    ensures NormalizeCases(rows, cases).Some?
            <==> forall i :: 0 <= i < |rows| ==> NormalizeCase(WithoutKey(rows[i]), cases[i].payload).Some?
  {
    hide NormalizeCase;
    if rows != [] {
      var n := |rows| - 1;
      BatchAcceptsExactly(rows[..n], cases[..n]);
      assert forall i :: 0 <= i < n ==> rows[..n][i] == rows[i] && cases[..n][i] == cases[i];
    }
  }

  // ----- The decoder proof ---------------------------------------------------------------------

  /** Hashes are injective, so each is kept as what it hashes. */
  datatype Proof<R, S, J> = Proof(
    version: string, request: R, response: S, jevRequests: map<string, J>, notes: seq<KeyedNote>,
    cases: map<string, Value>, all: map<string, Value>, preserved: bool, scoreChanged: bool, calls: nat)

  const VERSION := "exact_requirement_source_citation_v1"

  function DecoderProof<R, S, J>(request: R, response: S, jevRequests: map<string, J>,
                                 recommendations: map<string, Value>, notes: seq<KeyedNote>): Option<Proof<R, S, J>> {
    if notes == [] then None
    else Some(Proof(VERSION, request, response, jevRequests, notes, recommendations, recommendations, true, false, 0))
  }

  predicate VerifyCaseProof<R(==), S(==), J(==)>(proof: Proof<R, S, J>, key: string, request: R, response: S, jevRequest: J,
                                                 recommendation: Value, notes: seq<Note>) {
    && proof.version == VERSION && proof.request == request && proof.response == response
    && key in proof.jevRequests && proof.jevRequests[key] == jevRequest
    && key in proof.cases && proof.cases[key] == recommendation
    && NotesOf(key, proof.notes) == Keyed(key, notes)
    && proof.preserved && !proof.scoreChanged && proof.calls == 0
  }

  /** The proof of a batch vouches for one of its cases exactly with that batch's request and
      response, that case's input, its recommendation and its notes. */
  lemma ProofIsExact<R, S, J>(request: R, response: S, jevRequests: map<string, J>, recommendations: map<string, Value>,
                              rows: seq<Value>, cases: seq<Case>, i: nat,
                              request': R, response': S, jev': J, recommendation': Value, notes': seq<Note>)
    requires |rows| == |cases| && DistinctKeys(cases) && NormalizeCases(rows, cases).Some? && i < |cases|
    requires NormalizeCases(rows, cases).value.1 != []
    requires cases[i].key in jevRequests && cases[i].key in recommendations
    ensures
      var key := cases[i].key;
      var proof := DecoderProof(request, response, jevRequests, recommendations, NormalizeCases(rows, cases).value.1);
      && proof.Some?
      && NormalizeCase(WithoutKey(rows[i]), cases[i].payload).Some?
      && (VerifyCaseProof(proof.value, key, request', response', jev', recommendation', notes')
          <==> request' == request && response' == response && jev' == jevRequests[key]
               && recommendation' == recommendations[key]
               && notes' == NormalizeCase(WithoutKey(rows[i]), cases[i].payload).value.1)
  {
    hide NormalizeCase, NormalizeCases;
    BatchIsPerCase(rows, cases, i);
    var notes := NormalizeCase(WithoutKey(rows[i]), cases[i].payload).value.1;
    KeyedInjective(cases[i].key, notes, notes');
  }

  lemma KeyedInjective(key: string, a: seq<Note>, b: seq<Note>)
    ensures Keyed(key, a) == Keyed(key, b) <==> a == b
  {
  }
}
