/** The wire form and the row lists carry the same recommendations, and what an answer that
    has exactly the schema's keys decodes to. */
module WireRoundTrip {
  import opened Common
  import opened DateText
  import opened WireMap

  // ----- Encoding ---------------------------------------------------------------------------

  const SOURCE_INDEX := "source_index"

  function RowNumber(row: Value): nat {
    match Field(row, SOURCE_INDEX)
    case Int(n) => if n > 0 then n else 0
    case _ => 0
  }

  predicate RowShape(row: Value) {
    Has(row, ROW_KEYS + {SOURCE_INDEX}) && Field(row, SOURCE_INDEX).Int? && Field(row, SOURCE_INDEX).n > 0
  }

  function EncodeRow(row: Value): Value { Dict(Fields(row) - {SOURCE_INDEX}) }

  function EncodeRows(rows: seq<Value>): map<string, Value> {
    if rows == [] then map[]
    else
      var last := rows[|rows| - 1];
      EncodeRows(rows[..|rows| - 1])[WireKey(RowNumber(last)) := EncodeRow(last)]
  }

  ghost predicate RowsShape(rows: seq<Value>) {
    && (forall i :: 0 <= i < |rows| ==> RowShape(rows[i]))
    && (forall i, j :: 0 <= i < j < |rows| ==> RowNumber(rows[i]) != RowNumber(rows[j]))
  }

  ghost predicate CaseShape(v: Value) {
    && Has(v, CASE_KEYS + {"case_key"}) && Field(v, "case_key").Words?
    && Field(v, "requisitos").Items? && RowsShape(Field(v, "requisitos").items)
  }

  function CaseKey(v: Value): string {
    match Field(v, "case_key") case Words(s) => s case _ => ""
  }

  function CaseRows(v: Value): seq<Value> {
    match Field(v, "requisitos") case Items(rows) => rows case _ => []
  }

  function EncodeCase(v: Value): Value {
    Dict(map["resumen" := Field(v, "resumen"), "requisitos" := Dict(EncodeRows(CaseRows(v))),
             "acciones_recomendadas" := Field(v, "acciones_recomendadas")])
  }

  function EncodeCases(cases: seq<Value>): map<string, Value> {
    if cases == [] then map[]
    else
      var last := cases[|cases| - 1];
      EncodeCases(cases[..|cases| - 1])[CaseKey(last) := EncodeCase(last)]
  }

  function Encode(cases: seq<Value>): Value { Envelope(Dict(EncodeCases(cases))) }

  // ----- Rows -------------------------------------------------------------------------------

  lemma SameKey(a: nat, b: nat)
    requires a > 0 && b > 0 && WireKey(a) == WireKey(b)
    ensures a == b
  {
    WireKeyBack(a);
    WireKeyBack(b);
  }

  /** A case's rows in the order of their numbers. */
  function SortRows(rows: seq<Value>): seq<Value> {
    DecodeRows(Dict(EncodeRows(rows)), Ascending(Numbers(EncodeRows(rows))))
  }

  lemma {:induction false} EncodeRowsAt(rows: seq<Value>, i: nat)
    requires RowsShape(rows) && i < |rows|
    ensures WireKey(RowNumber(rows[i])) in EncodeRows(rows)
    ensures EncodeRows(rows)[WireKey(RowNumber(rows[i]))] == EncodeRow(rows[i])
  {
    hide WireKey, EncodeRow;
    if i < |rows| - 1 {
      EncodeRowsAt(rows[..|rows| - 1], i);
      var a, b := RowNumber(rows[i]), RowNumber(rows[|rows| - 1]);
      if WireKey(a) == WireKey(b) { SameKey(a, b); }
    }
  }

  lemma {:induction false} EncodeRowsKeys(rows: seq<Value>, k: string)
    requires k in EncodeRows(rows)
    ensures exists i :: 0 <= i < |rows| && k == WireKey(RowNumber(rows[i]))
  {
    hide WireKey, EncodeRow;
    var n := |rows| - 1;
    if k != WireKey(RowNumber(rows[n])) {
      EncodeRowsKeys(rows[..n], k);
      var i :| 0 <= i < n && k == WireKey(RowNumber(rows[..n][i]));
      assert rows[..n][i] == rows[i];
    }
  }

  lemma RowBack(row: Value)
    requires RowShape(row)
    ensures DecodeRow(RowNumber(row), EncodeRow(row)) == row
    ensures Has(EncodeRow(row), ROW_KEYS)
  {
  }

  lemma EncodedRowsAccepted(rows: seq<Value>)
    requires RowsShape(rows)
    ensures RowsAccepted(EncodeRows(rows))
  {
    hide WireKey, EncodeRow, IsWireKey, KeyNumber, Has;
    forall k | k in EncodeRows(rows) ensures IsWireKey(k) && Has(EncodeRows(rows)[k], ROW_KEYS) {
      EncodeRowsKeys(rows, k);
      var i :| 0 <= i < |rows| && k == WireKey(RowNumber(rows[i]));
      WireKeyBack(RowNumber(rows[i]));
      EncodeRowsAt(rows, i);
      RowBack(rows[i]);
    }
  }

  /** Every number among the encoded keys is the number of one of the rows. */
  lemma EncodedNumber(rows: seq<Value>, n: nat) returns (i: nat)
    requires RowsShape(rows) && n in Numbers(EncodeRows(rows))
    ensures i < |rows| && RowNumber(rows[i]) == n
  {
    hide EncodeRows, EncodeRow, WireKey, IsWireKey, KeyNumber;
    EncodeRowsKeys(rows, WireKey(n));
    i :| 0 <= i < |rows| && WireKey(n) == WireKey(RowNumber(rows[i]));
    SameKey(n, RowNumber(rows[i]));
  }

  /** Sorting returns one of the given rows at every position. */
  lemma SortedAt(rows: seq<Value>, p: nat) returns (i: nat)
    requires RowsShape(rows) && p < |SortRows(rows)|
    ensures i < |rows| && SortRows(rows)[p] == rows[i]
    ensures RowNumber(rows[i]) == Ascending(Numbers(EncodeRows(rows)))[p]
  {
    hide EncodeRows, WireKey, EncodeRow, DecodeRow, DecodeRows, Numbers, Ascending, RowShape, RowNumber;
    var encoded := EncodeRows(rows);
    var order := Ascending(Numbers(encoded));
    assert order[p] in Numbers(encoded);
    i := EncodedNumber(rows, order[p]);
    DecodeRowsAt(Dict(encoded), order, p);
    EncodeRowsAt(rows, i);
    RowBack(rows[i]);
  }

  /** Every given row is at some position of the sorted list. */
  lemma SortedHas(rows: seq<Value>, i: nat) returns (p: nat)
    requires RowsShape(rows) && i < |rows|
    ensures p < |SortRows(rows)| && SortRows(rows)[p] == rows[i]
  {
    var encoded := EncodeRows(rows);
    var n := RowNumber(rows[i]);
    EncodeRowsAt(rows, i);
    WireKeyBack(n);
    assert n in Numbers(encoded);
    var order := Ascending(Numbers(encoded));
    p :| 0 <= p < |order| && order[p] == n;
    hide WireKey, EncodeRow, DecodeRow, Numbers, Ascending;
    DecodeRowsAt(Dict(encoded), order, p);
    RowBack(rows[i]);
  }

  ghost predicate AscendingRows(rows: seq<Value>) {
    forall i, j :: 0 <= i < j < |rows| ==> RowNumber(rows[i]) < RowNumber(rows[j])
  }

  lemma SortedAscends(rows: seq<Value>)
    requires RowsShape(rows)
    ensures AscendingRows(SortRows(rows)) && RowsShape(SortRows(rows))
  {
    hide SortRows, RowShape, RowNumber;
    var s := SortRows(rows);
    forall p, q | 0 <= p < q < |s| ensures RowNumber(s[p]) < RowNumber(s[q]) {
      var i := SortedAt(rows, p);
      var j := SortedAt(rows, q);
      assert |s| == |Ascending(Numbers(EncodeRows(rows)))| by { SortedSize(rows); }
    }
    forall p | 0 <= p < |s| ensures RowShape(s[p]) { var i := SortedAt(rows, p); }
  }

  lemma SortedSize(rows: seq<Value>)
    ensures |SortRows(rows)| == |Ascending(Numbers(EncodeRows(rows)))|
  {
  }

  /** Two ascending lists with the same rows are the same list. */
  lemma {:induction false} AscendingUnique(a: seq<Value>, b: seq<Value>)
    requires AscendingRows(a) && AscendingRows(b)
    requires forall x :: x in a <==> x in b
    ensures a == b
    decreases |a|
  {
    hide RowNumber;
    assert |b| > 0 ==> b[0] in b;
    if a != [] {
      assert a[0] in b;
      var j :| 0 <= j < |b| && b[j] == a[0];
      assert b[0] in a;
      var i :| 0 <= i < |a| && a[i] == b[0];
      assert i == 0 && j == 0;
      SameRest(a, b);
      AscendingUnique(a[1..], b[1..]);
    }
  }

  lemma SameRest(a: seq<Value>, b: seq<Value>)
    requires AscendingRows(a) && AscendingRows(b) && a != [] && b != [] && a[0] == b[0]
    requires forall x :: x in a <==> x in b
    ensures forall x :: x in a[1..] <==> x in b[1..]
  {
    hide RowNumber;
    forall x | x in a[1..] ensures x in b[1..] { OtherRow(a, b, x); }
    forall x | x in b[1..] ensures x in a[1..] { OtherRow(b, a, x); }
  }

  lemma OtherRow(a: seq<Value>, b: seq<Value>, x: Value)
    requires AscendingRows(a) && AscendingRows(b) && a != [] && b != [] && a[0] == b[0]
    requires x in a[1..] && forall y :: y in a ==> y in b
    ensures x in b[1..]
  {
    hide RowNumber;
    var k :| 0 <= k < |a[1..]| && a[1..][k] == x;
    var i := k + 1;
    assert a[i] == x && a[i] in a;
    var j :| 0 <= j < |b| && b[j] == x;
    assert RowNumber(a[0]) < RowNumber(a[i]);
    assert j > 0;
    assert b[1..][j - 1] == x;
  }

  /** The sorted list has exactly the given rows, and a list already ascending is unchanged. */
  lemma SortedIsPermutation(rows: seq<Value>)
    requires RowsShape(rows)
    ensures forall x :: x in SortRows(rows) <==> x in rows
    ensures AscendingRows(rows) ==> SortRows(rows) == rows
  {
    hide SortRows, RowShape, RowNumber;
    forall x | x in SortRows(rows) ensures x in rows {
      var p :| 0 <= p < |SortRows(rows)| && SortRows(rows)[p] == x;
      var i := SortedAt(rows, p);
    }
    forall x | x in rows ensures x in SortRows(rows) {
      var i :| 0 <= i < |rows| && rows[i] == x;
      var p := SortedHas(rows, i);
    }
    SortedAscends(rows);
    if AscendingRows(rows) { AscendingUnique(rows, SortRows(rows)); }
  }

  // ----- Cases ------------------------------------------------------------------------------

  ghost predicate CasesShape(cases: seq<Value>) {
    && (forall i :: 0 <= i < |cases| ==> CaseShape(cases[i]))
    && (forall i, j :: 0 <= i < j < |cases| ==> CaseKey(cases[i]) != CaseKey(cases[j]))
  }

  function KeysOf(cases: seq<Value>): (keys: seq<string>)
    ensures |keys| == |cases| && forall i :: 0 <= i < |cases| ==> keys[i] == CaseKey(cases[i])
  {
    seq(|cases|, i requires 0 <= i < |cases| => CaseKey(cases[i]))
  }

  function SortCase(v: Value): Value {
    DecodedCase(CaseKey(v), Field(v, "resumen"), SortRows(CaseRows(v)), Field(v, "acciones_recomendadas"))
  }

  function SortCases(cases: seq<Value>): (r: seq<Value>)
    ensures |r| == |cases| && forall i :: 0 <= i < |cases| ==> r[i] == SortCase(cases[i])
  {
    seq(|cases|, i requires 0 <= i < |cases| => SortCase(cases[i]))
  }

  lemma {:induction false} EncodeCasesAt(cases: seq<Value>, i: nat)
    requires forall a, b :: 0 <= a < b < |cases| ==> CaseKey(cases[a]) != CaseKey(cases[b])
    requires i < |cases|
    ensures CaseKey(cases[i]) in EncodeCases(cases) && EncodeCases(cases)[CaseKey(cases[i])] == EncodeCase(cases[i])
  {
    hide EncodeCase, CaseKey;
    if i < |cases| - 1 { EncodeCasesAt(cases[..|cases| - 1], i); }
  }

  lemma {:induction false} EncodeCasesKeys(cases: seq<Value>, k: string)
    requires k in EncodeCases(cases)
    ensures exists i :: 0 <= i < |cases| && k == CaseKey(cases[i])
  {
    hide EncodeCase, CaseKey;
    var n := |cases| - 1;
    if k != CaseKey(cases[n]) {
      EncodeCasesKeys(cases[..n], k);
      var i :| 0 <= i < n && k == CaseKey(cases[..n][i]);
      assert cases[..n][i] == cases[i];
    }
  }

  lemma CaseBack(v: Value)
    requires CaseShape(v)
    ensures CaseAccepted(EncodeCase(v)) && DecodeCase(CaseKey(v), EncodeCase(v)) == SortCase(v)
  {
    var e := EncodeCase(v);
    EncodedRowsAccepted(CaseRows(v));
    hide RowsAccepted, EncodeRows, DecodeRows, Ascending, Numbers, RowsShape, DecodedCase;
    assert e.fields["requisitos"] == Dict(EncodeRows(CaseRows(v)));
    DecodeCaseValue(CaseKey(v), e);
  }

  /** Decoding an encoded list of cases gives the same cases with their rows sorted by
      number. */
  lemma DecodeEncode(cases: seq<Value>)
    requires CasesShape(cases)
    ensures Normalized(Encode(cases), KeysOf(cases)) == Some(Envelope(Items(SortCases(cases))))
  {
    var m, keys := EncodeCases(cases), KeysOf(cases);
    hide CaseShape, CaseKey, EncodeCase, CaseAccepted, SortCase, DecodeCase;
    forall k | k in keys ensures k in m {
      var i :| 0 <= i < |keys| && keys[i] == k;
      EncodeCasesAt(cases, i);
    }
    forall k | k in m ensures k in keys && CaseAccepted(m[k]) {
      EncodeCasesKeys(cases, k);
      var i :| 0 <= i < |cases| && k == CaseKey(cases[i]);
      assert keys[i] == k;
      EncodeCasesAt(cases, i);
      CaseBack(cases[i]);
    }
    forall i | 0 <= i < |cases| ensures DecodeCases(m, keys)[i] == SortCase(cases[i]) {
      DecodeCasesAt(m, keys, i);
      EncodeCasesAt(cases, i);
      CaseBack(cases[i]);
    }
    hide EncodeCases, DecodeCases;
    assert DecodeCases(m, keys) == SortCases(cases);
    assert Fields(Encode(cases))["evaluations"] == Dict(m);
    assert WireAccepted(Encode(cases), keys);
  }

  // ----- And back -----------------------------------------------------------------------------

  lemma DecodedRowBack(n: nat, row: Value)
    requires n > 0 && Has(row, ROW_KEYS)
    ensures RowNumber(DecodeRow(n, row)) == n && EncodeRow(DecodeRow(n, row)) == row
    ensures RowShape(DecodeRow(n, row))
  {
  }

  lemma DecodedRowAt(requirements: map<string, Value>, p: nat)
    requires RowsAccepted(requirements) && p < |Ascending(Numbers(requirements))|
    ensures
      var order := Ascending(Numbers(requirements));
      var row := DecodeRows(Dict(requirements), order)[p];
      && RowShape(row) && RowNumber(row) == order[p] && WireKey(order[p]) in requirements
      && EncodeRow(row) == requirements[WireKey(order[p])]
  {
    var order := Ascending(Numbers(requirements));
    assert order[p] in Numbers(requirements);
    DecodeRowsAt(Dict(requirements), order, p);
    hide WireKey, DecodeRow, DecodeRows, Numbers, Ascending;
    DecodedRowBack(order[p], requirements[WireKey(order[p])]);
  }

  lemma DecodedRowsShape(requirements: map<string, Value>)
    requires RowsAccepted(requirements)
    ensures
      var rows := DecodeRows(Dict(requirements), Ascending(Numbers(requirements)));
      RowsShape(rows) && AscendingRows(rows)
  {
    var order := Ascending(Numbers(requirements));
    var rows := DecodeRows(Dict(requirements), order);
    hide RowShape, RowNumber, DecodeRows, RowsAccepted, Numbers, Ascending;
    forall i | 0 <= i < |rows| ensures RowShape(rows[i]) && RowNumber(rows[i]) == order[i] { DecodedRowAt(requirements, i); }
  }

  lemma RowBackAt(requirements: map<string, Value>, k: string)
    requires RowsAccepted(requirements) && k in requirements
    ensures
      var encoded := EncodeRows(DecodeRows(Dict(requirements), Ascending(Numbers(requirements))));
      k in encoded && encoded[k] == requirements[k]
  {
    var order := Ascending(Numbers(requirements));
    var rows := DecodeRows(Dict(requirements), order);
    DecodedRowsShape(requirements);
    KeyNumberBack(k);
    assert KeyNumber(k) in order;
    var p :| 0 <= p < |order| && order[p] == KeyNumber(k);
    hide RowsShape, RowShape, RowNumber, DecodeRows, Ascending, Numbers, WireKey, KeyNumber, EncodeRows, EncodeRow;
    DecodedRowAt(requirements, p);
    EncodeRowsAt(rows, p);
  }

  /** Encoding decoded rows gives the requirement map back. */
  lemma RowsBack(requirements: map<string, Value>)
    requires RowsAccepted(requirements)
    ensures EncodeRows(DecodeRows(Dict(requirements), Ascending(Numbers(requirements)))) == requirements
  {
    hide RowsAccepted, DecodeRows, Ascending, Numbers, WireKey, EncodeRows, RowNumber, RowShape, EncodeRow;
    var rows := DecodeRows(Dict(requirements), Ascending(Numbers(requirements)));
    var encoded := EncodeRows(rows);
    forall k | k in requirements ensures k in encoded && encoded[k] == requirements[k] { RowBackAt(requirements, k); }
    forall k | k in encoded ensures k in requirements {
      EncodeRowsKeys(rows, k);
      var p :| 0 <= p < |rows| && k == WireKey(RowNumber(rows[p]));
      DecodedRowAt(requirements, p);
    }
    assert encoded == requirements;
  }

  /** The four entries of a decoded case. */
  lemma DecodedCaseFields(key: string, resumen: Value, rows: seq<Value>, acciones: Value)
    ensures
      var d := DecodedCase(key, resumen, rows, acciones);
      && CaseKey(d) == key && CaseRows(d) == rows
      && Field(d, "resumen") == resumen && Field(d, "acciones_recomendadas") == acciones
  {
  }

  lemma DecodedFields(key: string, v: Value)
    requires Has(v, CASE_KEYS) && v.fields["requisitos"].Dict?
    ensures
      var m := v.fields["requisitos"].fields;
      var d := DecodeCase(key, v);
      && CaseKey(d) == key && CaseRows(d) == DecodeRows(Dict(m), Ascending(Numbers(m)))
      && Field(d, "resumen") == v.fields["resumen"] && Field(d, "acciones_recomendadas") == v.fields["acciones_recomendadas"]
  {
    hide DecodeRows, Ascending, Numbers, DecodeCase, DecodedCase, CaseKey, CaseRows, Field;
    DecodeCaseValue(key, v);
    var m := v.fields["requisitos"].fields;
    DecodedCaseFields(key, v.fields["resumen"], DecodeRows(Dict(m), Ascending(Numbers(m))), v.fields["acciones_recomendadas"]);
  }

  lemma CaseEntries(v: Value, requirements: map<string, Value>)
    requires Has(v, CASE_KEYS) && v.fields["requisitos"] == Dict(requirements)
    ensures v == Dict(map["resumen" := v.fields["resumen"], "requisitos" := Dict(requirements),
                          "acciones_recomendadas" := v.fields["acciones_recomendadas"]])
  {
  }

  lemma CaseForth(key: string, v: Value)
    requires CaseAccepted(v)
    ensures CaseKey(DecodeCase(key, v)) == key && EncodeCase(DecodeCase(key, v)) == v
  {
    hide DecodeCase, DecodeRows, Ascending, Numbers, EncodeRows, RowsAccepted, CaseRows, CaseKey, Field;
    DecodedFields(key, v);
    RowsBack(v.fields["requisitos"].fields);
    CaseEntries(v, v.fields["requisitos"].fields);
  }

  /** Encoding what an accepted wire answer decodes to gives the answer back. */
  lemma EncodeDecode(v: Value, order: seq<string>)
    requires WireAccepted(v, order)
    ensures Normalized(v, order).Some? && Field(Normalized(v, order).value, "evaluations").Items?
    ensures Encode(Field(Normalized(v, order).value, "evaluations").items) == v
  {
    hide DecodeCases, EncodeCases, CaseAccepted;
    var m := v.fields["evaluations"].fields;
    assert v.fields == map["evaluations" := Dict(m)];
    CasesForth(m, order);
    EnvelopeField(Items(DecodeCases(m, order)));
    hide Field;
  }

  lemma EnvelopeField(v: Value)
    ensures Field(Envelope(v), "evaluations") == v
  {
  }

  lemma CaseForthAt(m: map<string, Value>, order: seq<string>, i: nat)
    requires i < |order| && order[i] in m && CaseAccepted(m[order[i]])
    ensures CaseKey(DecodeCases(m, order)[i]) == order[i] && EncodeCase(DecodeCases(m, order)[i]) == m[order[i]]
  {
    hide CaseAccepted, DecodeCase, EncodeCase, CaseKey, DecodeCases;
    DecodeCasesAt(m, order, i);
    CaseForth(order[i], m[order[i]]);
  }

  lemma CasesForth(m: map<string, Value>, order: seq<string>)
    requires Covers(order, m) && forall k :: k in m ==> CaseAccepted(m[k])
    ensures EncodeCases(DecodeCases(m, order)) == m
  {
    var cases := DecodeCases(m, order);
    var encoded := EncodeCases(cases);
    hide CaseAccepted, DecodeCase, EncodeCase, CaseKey, EncodeCases, DecodeCases;
    forall i | 0 <= i < |order| ensures order[i] in m && CaseKey(cases[i]) == order[i] && EncodeCase(cases[i]) == m[order[i]] {
      assert order[i] in order;
      CaseForthAt(m, order, i);
    }
    forall k | k in m ensures k in encoded && encoded[k] == m[k] {
      assert k in order;
      var i :| 0 <= i < |order| && order[i] == k;
      EncodeCasesAt(cases, i);
    }
    forall k | k in encoded ensures k in m {
      EncodeCasesKeys(cases, k);
      var i :| 0 <= i < |cases| && k == CaseKey(cases[i]);
    }
    assert encoded == m;
  }

  // ----- The two schemas ------------------------------------------------------------------------

  /** One case of the schema: its key and its requirement numbers in frozen order. */
  datatype Frozen = Frozen(key: string, numbers: seq<nat>)

  ghost predicate FrozenOk(schema: seq<Frozen>) {
    && (forall i, j :: 0 <= i < j < |schema| ==> schema[i].key != schema[j].key)
    && (forall i :: 0 <= i < |schema| ==> NumbersOk(schema[i].numbers))
  }

  ghost predicate NumbersOk(numbers: seq<nat>) {
    && (forall a, b :: 0 <= a < b < |numbers| ==> numbers[a] != numbers[b])
    && (forall a :: 0 <= a < |numbers| ==> numbers[a] > 0)
  }

  function SchemaKeys(schema: seq<Frozen>): (keys: seq<string>)
    ensures |keys| == |schema| && forall i :: 0 <= i < |schema| ==> keys[i] == schema[i].key
  {
    seq(|schema|, i requires 0 <= i < |schema| => schema[i].key)
  }

  /** legacy_map_schema_from_contexts: the case objects and the r-keys each must have. */
  ghost predicate HasSchemaKeys(v: Value, schema: seq<Frozen>) {
    && Has(v, {"evaluations"}) && v.fields["evaluations"].Dict?
    && Covers(SchemaKeys(schema), v.fields["evaluations"].fields)
    && forall i :: 0 <= i < |schema| ==> HasCaseKeys(Field(v.fields["evaluations"], schema[i].key), schema[i].numbers)
  }

  ghost predicate HasCaseKeys(v: Value, numbers: seq<nat>) {
    && Has(v, CASE_KEYS) && v.fields["requisitos"].Dict?
    && (forall k :: k in v.fields["requisitos"].fields <==> exists n :: n in numbers && WireKey(n) == k)
    && (forall k :: k in v.fields["requisitos"].fields ==> Has(v.fields["requisitos"].fields[k], ROW_KEYS))
  }

  function RowNumbers(rows: seq<Value>): (r: seq<nat>)
    ensures |r| == |rows| && forall i :: 0 <= i < |rows| ==> r[i] == RowNumber(rows[i])
  {
    seq(|rows|, i requires 0 <= i < |rows| => RowNumber(rows[i]))
  }

  /** schema_from_contexts: every case and requirement at its exact position. */
  ghost predicate MatchesTuple(cases: seq<Value>, schema: seq<Frozen>) {
    && |cases| == |schema|
    && forall i :: 0 <= i < |schema| ==> CaseKey(cases[i]) == schema[i].key && RowNumbers(CaseRows(cases[i])) == schema[i].numbers
  }

  ghost predicate IsAscending(s: seq<nat>) { forall a, b :: 0 <= a < b < |s| ==> s[a] < s[b] }

  function Elements(s: seq<nat>): set<nat> { set n | n in s }

  lemma {:induction false} AscendingNumbersUnique(a: seq<nat>, b: seq<nat>)
    requires IsAscending(a) && IsAscending(b) && (forall n :: n in a <==> n in b)
    ensures a == b
    decreases |a|
  {
    assert |b| > 0 ==> b[0] in b;
    if a != [] {
      assert a[0] in b;
      var j :| 0 <= j < |b| && b[j] == a[0];
      assert b[0] in a;
      var i :| 0 <= i < |a| && a[i] == b[0];
      assert i == 0 && j == 0;
      assert forall n :: n in a[1..] <==> n in a && n != a[0];
      assert forall n :: n in b[1..] <==> n in b && n != b[0];
      AscendingNumbersUnique(a[1..], b[1..]);
    }
  }

  lemma CaseKeysAccepted(v: Value, numbers: seq<nat>)
    requires HasCaseKeys(v, numbers) && NumbersOk(numbers)
    ensures CaseAccepted(v) && Ascending(Numbers(v.fields["requisitos"].fields)) == Ascending(Elements(numbers))
  {
    var m := v.fields["requisitos"].fields;
    forall k | k in m ensures IsWireKey(k) {
      var n :| n in numbers && WireKey(n) == k;
      WireKeyBack(n);
    }
    forall n | n in Numbers(m) ensures n in numbers {
      var k :| k in numbers && WireKey(k) == WireKey(n);
      SameKey(k, n);
    }
    forall n | n in numbers ensures n in Numbers(m) {
      assert WireKey(n) in m;
      WireKeyBack(n);
    }
    assert Numbers(m) == Elements(numbers);
  }

  lemma DecodedCaseNumbers(key: string, v: Value)
    requires CaseAccepted(v)
    ensures RowNumbers(CaseRows(DecodeCase(key, v))) == Ascending(Numbers(v.fields["requisitos"].fields))
  {
    var m := v.fields["requisitos"].fields;
    DecodedFields(key, v);
    DecodedNumbers(m);
    hide DecodeCase, DecodeRows, Ascending, Numbers, RowsAccepted, RowNumbers, CaseRows;
  }

  lemma DecodedNumbers(m: map<string, Value>)
    requires RowsAccepted(m)
    ensures RowNumbers(DecodeRows(Dict(m), Ascending(Numbers(m)))) == Ascending(Numbers(m))
  {
    hide RowsAccepted, RowNumber, DecodeRows, Ascending, Numbers, RowShape, EncodeRow, WireKey;
    var order := Ascending(Numbers(m));
    var rows := DecodeRows(Dict(m), order);
    forall p | 0 <= p < |order| ensures RowNumber(rows[p]) == order[p] { DecodedRowAt(m, p); }
  }

  /** An answer with exactly the schema's keys is accepted and decodes to exactly the frozen
      cases and requirement numbers. */
  lemma SchemaDecodes(v: Value, schema: seq<Frozen>)
    requires HasSchemaKeys(v, schema) && FrozenOk(schema)
    ensures WireAccepted(v, SchemaKeys(schema))
    ensures
      var cases := DecodeCases(v.fields["evaluations"].fields, SchemaKeys(schema));
      forall i :: 0 <= i < |schema| ==>
        CaseKey(cases[i]) == schema[i].key && RowNumbers(CaseRows(cases[i])) == Ascending(Elements(schema[i].numbers))
  {
    var m, keys := v.fields["evaluations"].fields, SchemaKeys(schema);
    hide CaseAccepted, HasCaseKeys, NumbersOk, DecodeCase, CaseKey, CaseRows, RowNumbers, Elements, DecodeCases;
    forall k | k in m ensures CaseAccepted(m[k]) {
      assert k in keys;
      var i :| 0 <= i < |keys| && keys[i] == k;
      CaseKeysAccepted(m[k], schema[i].numbers);
    }
    var cases := DecodeCases(m, keys);
    forall i | 0 <= i < |schema|
      ensures CaseKey(cases[i]) == schema[i].key && RowNumbers(CaseRows(cases[i])) == Ascending(Elements(schema[i].numbers))
    {
      assert keys[i] in keys;
      DecodeCasesAt(m, keys, i);
      CaseForth(keys[i], m[keys[i]]);
      CaseKeysAccepted(m[keys[i]], schema[i].numbers);
      DecodedCaseNumbers(keys[i], m[keys[i]]);
    }
  }

  /** Its positions are those of the strict tuple schema exactly when every case's frozen
      requirement numbers ascend. */
  lemma PositionsMatchExactly(v: Value, schema: seq<Frozen>)
    requires HasSchemaKeys(v, schema) && FrozenOk(schema)
    ensures MatchesTuple(DecodeCases(v.fields["evaluations"].fields, SchemaKeys(schema)), schema)
            <==> forall i :: 0 <= i < |schema| ==> IsAscending(schema[i].numbers)
  {
    hide HasSchemaKeys, FrozenOk, DecodeCases, CaseKey, CaseRows, RowNumbers, Ascending, Elements, IsAscending, WireAccepted;
    assert Has(v, {"evaluations"}) && v.fields["evaluations"].Dict? by { Enveloped(v, schema); }
    var cases := DecodeCases(v.fields["evaluations"].fields, SchemaKeys(schema));
    SchemaDecodes(v, schema);
    forall i | 0 <= i < |schema|
      ensures RowNumbers(CaseRows(cases[i])) == schema[i].numbers <==> IsAscending(schema[i].numbers)
    {
      AscendingOfSorted(schema[i].numbers);
    }
  }

  lemma Enveloped(v: Value, schema: seq<Frozen>)
    requires HasSchemaKeys(v, schema)
    ensures Has(v, {"evaluations"}) && v.fields["evaluations"].Dict?
  {
  }

  lemma AscendingOfSorted(numbers: seq<nat>)
    ensures Ascending(Elements(numbers)) == numbers <==> IsAscending(numbers)
  {
    if IsAscending(numbers) { AscendingNumbersUnique(Ascending(Elements(numbers)), numbers); }
  }

  // ----- A schema whose numbers do not ascend -------------------------------------------------------

  const CASE_KEY := "seace_prod2-1"

  const EMPTY_ROW := Dict(map["evidencia" := Words(""), "brecha" := Words(""), "accion" := Words(""), "evidence_refs" := Items([])])

  /** The types that the map schema gives the fields of a case and of its rows. */
  ghost predicate TypedCase(v: Value) {
    && Field(v, "resumen").Words? && Field(v, "acciones_recomendadas").Items? && Field(v, "requisitos").Dict?
    && forall k :: k in Fields(Field(v, "requisitos")) ==> TypedRow(Fields(Field(v, "requisitos"))[k])
  }

  predicate TypedRow(row: Value) {
    Field(row, "evidencia").Words? && Field(row, "brecha").Words? && Field(row, "accion").Words? && Field(row, "evidence_refs").Items?
  }

  function EmptyRows(numbers: seq<nat>): (rows: seq<Value>)
    ensures |rows| == |numbers| && forall i :: 0 <= i < |numbers| ==> rows[i] == DecodeRow(numbers[i], EMPTY_ROW)
  {
    seq(|numbers|, i requires 0 <= i < |numbers| => DecodeRow(numbers[i], EMPTY_ROW))
  }

  function EmptyCase(numbers: seq<nat>): Value { DecodedCase(CASE_KEY, Words(""), EmptyRows(numbers), Items([])) }

  lemma EmptyRowsShape(numbers: seq<nat>)
    requires NumbersOk(numbers)
    ensures RowsShape(EmptyRows(numbers)) && RowNumbers(EmptyRows(numbers)) == numbers
  {
    assert Has(EMPTY_ROW, ROW_KEYS);
    hide DecodeRow, RowShape, RowNumber;
    forall i | 0 <= i < |numbers| ensures RowShape(EmptyRows(numbers)[i]) && RowNumber(EmptyRows(numbers)[i]) == numbers[i] {
      DecodedRowBack(numbers[i], EMPTY_ROW);
    }
  }

  lemma EmptyRowKeys(numbers: seq<nat>, k: string)
    requires NumbersOk(numbers)
    ensures k in EncodeRows(EmptyRows(numbers)) <==> exists n :: n in numbers && WireKey(n) == k
  {
    var rows := EmptyRows(numbers);
    EmptyRowsShape(numbers);
    hide EncodeRows, EmptyRows, RowsShape, RowNumber, WireKey, EncodeRow, NumbersOk;
    if k in EncodeRows(rows) {
      EncodeRowsKeys(rows, k);
      var i :| 0 <= i < |rows| && k == WireKey(RowNumber(rows[i]));
      assert RowNumbers(rows)[i] == numbers[i] && numbers[i] in numbers;
    }
    if exists n :: n in numbers && WireKey(n) == k {
      var n :| n in numbers && WireKey(n) == k;
      var i :| 0 <= i < |numbers| && numbers[i] == n;
      assert RowNumbers(rows)[i] == numbers[i];
      EncodeRowsAt(rows, i);
    }
  }

  lemma EncodedCaseFields(c: Value)
    ensures
      var v := EncodeCase(c);
      Has(v, CASE_KEYS) && v.fields["requisitos"] == Dict(EncodeRows(CaseRows(c)))
  {
    hide EncodeRows, CaseRows, Field;
  }

  lemma EmptyCaseKeys(numbers: seq<nat>)
    requires NumbersOk(numbers)
    ensures HasCaseKeys(EncodeCase(EmptyCase(numbers)), numbers) && CaseKey(EmptyCase(numbers)) == CASE_KEY
  {
    var rows := EmptyRows(numbers);
    EmptyRowsShape(numbers);
    EncodedRowsAccepted(rows);
    DecodedCaseFields(CASE_KEY, Words(""), rows, Items([]));
    EncodedCaseFields(EmptyCase(numbers));
    hide EncodeRows, EmptyRows, RowsShape, DecodedCase, EncodeCase, Field, CaseKey, CaseRows, WireKey, IsWireKey, Has;
    forall k ensures k in EncodeRows(rows) <==> exists n :: n in numbers && WireKey(n) == k { EmptyRowKeys(numbers, k); }
  }

  /** Some schema's answers never stand at its positions: two requirements frozen as 2 and 1. */
  lemma PositionsCanDiffer() returns (v: Value, schema: seq<Frozen>)
    ensures schema == [Frozen(CASE_KEY, [2, 1])] && HasSchemaKeys(v, schema) && FrozenOk(schema)
    ensures TypedCase(Field(v.fields["evaluations"], CASE_KEY))
    ensures !MatchesTuple(DecodeCases(v.fields["evaluations"].fields, SchemaKeys(schema)), schema)
  {
    var numbers := [2, 1];
    assert numbers[0] > numbers[1];
    assert NumbersOk(numbers) && !IsAscending(numbers);
    v, schema := Encode([EmptyCase(numbers)]), [Frozen(CASE_KEY, numbers)];
    EmptyAnswer(numbers);
    EmptyCaseTyped(numbers);
    hide EmptyCase, Encode, HasCaseKeys, HasSchemaKeys, CaseKey, NumbersOk, DecodeCases, MatchesTuple, IsAscending, FrozenOk;
    assert Has(v, {"evaluations"}) && v.fields["evaluations"].Dict? by { Enveloped(v, schema); }
    PositionsMatchExactly(v, schema);
    assert !IsAscending(schema[0].numbers);
  }

  lemma EmptyAnswer(numbers: seq<nat>)
    requires NumbersOk(numbers)
    ensures HasSchemaKeys(Encode([EmptyCase(numbers)]), [Frozen(CASE_KEY, numbers)]) && FrozenOk([Frozen(CASE_KEY, numbers)])
  {
    EmptyCaseKeys(numbers);
    hide EmptyCase, Encode, EncodeCase, HasCaseKeys, CaseKey, NumbersOk, HasSchemaKeys;
    OneCaseKeys(EmptyCase(numbers), [Frozen(CASE_KEY, numbers)]);
  }

  lemma EmptyRowTyped(numbers: seq<nat>, k: string)
    requires NumbersOk(numbers) && k in EncodeRows(EmptyRows(numbers))
    ensures TypedRow(EncodeRows(EmptyRows(numbers))[k])
  {
    var rows := EmptyRows(numbers);
    EmptyRowsShape(numbers);
    hide EncodeRows, EmptyRows, RowsShape, RowNumber, WireKey, EncodeRow, NumbersOk;
    EncodeRowsKeys(rows, k);
    var i :| 0 <= i < |rows| && k == WireKey(RowNumber(rows[i]));
    EncodeRowsAt(rows, i);
    EmptyRowBack(numbers[i]);
  }

  lemma EmptyRowBack(n: nat)
    ensures TypedRow(EncodeRow(DecodeRow(n, EMPTY_ROW)))
  {
  }

  lemma EmptyCaseTyped(numbers: seq<nat>)
    requires NumbersOk(numbers)
    ensures
      var v := Encode([EmptyCase(numbers)]);
      v.Dict? && "evaluations" in v.fields && TypedCase(Field(v.fields["evaluations"], CASE_KEY))
  {
    var c, rows := EmptyCase(numbers), EmptyRows(numbers);
    DecodedCaseFields(CASE_KEY, Words(""), rows, Items([]));
    OneEncoded(c);
    hide EmptyRows, EncodeRows, CaseKey, CaseRows, DecodedCase, TypedRow;
    forall k | k in EncodeRows(rows) ensures TypedRow(EncodeRows(rows)[k]) { EmptyRowTyped(numbers, k); }
  }

  lemma OneEncoded(c: Value)
    ensures EncodeCases([c]) == map[CaseKey(c) := EncodeCase(c)]
  {
    hide EncodeCase, CaseKey;
    assert [c][..0] == [] && [c][0] == c;
    assert EncodeCases([]) == map[];
    assert EncodeCases([c]) == EncodeCases([c][..0])[CaseKey(c) := EncodeCase(c)];
  }

  lemma OneCaseKeys(c: Value, schema: seq<Frozen>)
    requires |schema| == 1 && schema[0].key == CaseKey(c) && HasCaseKeys(EncodeCase(c), schema[0].numbers)
    ensures HasSchemaKeys(Encode([c]), schema)
  {
    hide EncodeCase, HasCaseKeys, CaseKey;
    OneEncoded(c);
    var m := EncodeCases([c]);
    var v := Encode([c]);
    assert Fields(v)["evaluations"] == Dict(m);
    assert Has(v, {"evaluations"});
  }
}
