/** The wire form of shared recommendations in scripts/dinaut_recommendation_schema.py:
    objects keyed by case and by "r" and requirement number, decoded to lists. */
module WireMap {
  import opened Common
  import opened DateText

  /** A parsed JSON value; dictionaries compare without regard to order. */
  datatype Value =
    | Nothing
    | Int(n: int)
    | Words(s: string)
    | Items(items: seq<Value>)
    | Dict(fields: map<string, Value>)

  const ROW_KEYS: set<string> := {"evidencia", "brecha", "accion", "evidence_refs"}
  const CASE_KEYS: set<string> := {"resumen", "requisitos", "acciones_recomendadas"}

  predicate Has(v: Value, keys: set<string>) { v.Dict? && v.fields.Keys == keys }

  // ----- Keys -----------------------------------------------------------------------------

  function WireKey(n: nat): string { "r" + Dec(n) }

  predicate IsWireKey(k: string) {
    |k| >= 2 && k[0] == 'r' && Digits(k[1..], |k| - 1) && k[1] != '0'
  }

  function KeyNumber(k: string): nat
    requires IsWireKey(k)
  {
    Num(k[1..])
  }

  lemma WireKeyBack(n: nat)
    requires n > 0
    ensures IsWireKey(WireKey(n)) && KeyNumber(WireKey(n)) == n
  {
    NumDec(n);
    assert WireKey(n)[1..] == Dec(n);
  }

  lemma KeyNumberBack(k: string)
    requires IsWireKey(k)
    ensures KeyNumber(k) > 0 && WireKey(KeyNumber(k)) == k
  {
    DecNum(k[1..]);
    assert k == "r" + k[1..];
  }

  /** Numbers in ascending order. */
  function Ascending(s: set<nat>): (r: seq<nat>)
    ensures forall n :: n in r <==> n in s
    ensures |r| == |s|
    ensures forall i, j :: 0 <= i < j < |r| ==> r[i] < r[j]
    decreases |s|
  {
    if s == {} then []
    else
      var least := Least(s);
      [least] + Ascending(s - {least})
  }

  function Least(s: set<nat>): (r: nat)
    requires s != {}
    ensures r in s && forall n :: n in s ==> r <= n
    decreases |s|
  {
    LeastExists(s);
    var n :| n in s && forall k :: k in s ==> n <= k;
    n
  }

  lemma {:induction false} LeastOf(s: set<nat>) returns (least: nat)
    requires s != {}
    ensures least in s && forall n :: n in s ==> least <= n
    decreases |s|
  {
    var x :| x in s;
    var rest := s - {x};
    least := x;
    if rest != {} {
      var y := LeastOf(rest);
      least := if x < y then x else y;
    }
    forall n | n in s ensures least <= n { assert n == x || n in rest; }
  }

  lemma LeastExists(s: set<nat>)
    requires s != {}
    ensures exists n :: n in s && forall k :: k in s ==> n <= k
  {
    var least := LeastOf(s);
  }

  // ----- Decoding ---------------------------------------------------------------------------

  function Field(v: Value, k: string): Value { if v.Dict? && k in v.fields then v.fields[k] else Nothing }

  function Fields(v: Value): map<string, Value> { if v.Dict? then v.fields else map[] }

  function Numbers(requirements: map<string, Value>): (r: set<nat>)
    ensures forall k :: k in requirements && IsWireKey(k) ==> KeyNumber(k) in r
    ensures forall n :: n in r ==> n > 0 && WireKey(n) in requirements && IsWireKey(WireKey(n)) && KeyNumber(WireKey(n)) == n
  {
    assert forall k :: k in requirements && IsWireKey(k) ==> KeyNumber(k) > 0 && WireKey(KeyNumber(k)) == k by {
      forall k | k in requirements && IsWireKey(k) ensures KeyNumber(k) > 0 && WireKey(KeyNumber(k)) == k { KeyNumberBack(k); }
    }
    set k | k in requirements && IsWireKey(k) :: KeyNumber(k)
  }

  predicate RowsAccepted(requirements: map<string, Value>) {
    forall k :: k in requirements ==> IsWireKey(k) && Has(requirements[k], ROW_KEYS)
  }

  predicate CaseAccepted(v: Value) {
    Has(v, CASE_KEYS) && v.fields["requisitos"].Dict? && RowsAccepted(v.fields["requisitos"].fields)
  }

  function DecodeRow(n: nat, row: Value): Value { Dict(Fields(row)["source_index" := Int(n)]) }

  function DecodeRows(requirements: Value, order: seq<nat>): (rows: seq<Value>)
    ensures |rows| == |order|
  {
    if order == [] then []
    else
      var last := order[|order| - 1];
      DecodeRows(requirements, order[..|order| - 1]) + [DecodeRow(last, Field(requirements, WireKey(last)))]
  }

  function DecodedCase(key: string, resumen: Value, rows: seq<Value>, acciones: Value): Value {
    Dict(map["case_key" := Words(key), "resumen" := resumen, "requisitos" := Items(rows), "acciones_recomendadas" := acciones])
  }

  function DecodeCase(key: string, v: Value): Value {
    var requirements := Field(v, "requisitos");
    DecodedCase(key, Field(v, "resumen"), DecodeRows(requirements, Ascending(Numbers(Fields(requirements)))),
                Field(v, "acciones_recomendadas"))
  }

  function DecodeCases(cases: map<string, Value>, order: seq<string>): (rows: seq<Value>)
    ensures |rows| == |order|
  {
    if order == [] then []
    else
      var last := order[|order| - 1];
      DecodeCases(cases, order[..|order| - 1]) + [DecodeCase(last, Field(Dict(cases), last))]
  }

  lemma {:induction false} DecodeCasesAt(cases: map<string, Value>, order: seq<string>, i: nat)
    requires i < |order|
    ensures DecodeCases(cases, order)[i] == DecodeCase(order[i], Field(Dict(cases), order[i]))
  {
    hide DecodeCase;
    if i < |order| - 1 { DecodeCasesAt(cases, order[..|order| - 1], i); }
  }

  lemma {:induction false} DecodeRowsAt(requirements: Value, order: seq<nat>, i: nat)
    requires i < |order|
    ensures DecodeRows(requirements, order)[i] == DecodeRow(order[i], Field(requirements, WireKey(order[i])))
  {
    hide DecodeRow, WireKey;
    if i < |order| - 1 { DecodeRowsAt(requirements, order[..|order| - 1], i); }
  }

  lemma DecodeRowsSnoc(requirements: Value, order: seq<nat>, i: nat)
    requires i < |order|
    ensures DecodeRows(requirements, order[..i + 1])
            == DecodeRows(requirements, order[..i]) + [DecodeRow(order[i], Field(requirements, WireKey(order[i])))]
  {
    hide DecodeRow, WireKey, Field;
    assert order[..i + 1][..i] == order[..i];
  }

  lemma NoRows(requirements: Value)
    ensures DecodeRows(requirements, []) == []
  {
  }

  lemma DecodeCaseValue(key: string, v: Value)
    requires Has(v, CASE_KEYS) && v.fields["requisitos"].Dict?
    ensures
      var requirements := v.fields["requisitos"];
      DecodeCase(key, v) == DecodedCase(key, v.fields["resumen"], DecodeRows(requirements, Ascending(Numbers(requirements.fields))),
                                        v.fields["acciones_recomendadas"])
  {
  }

  ghost predicate Covers(order: seq<string>, cases: map<string, Value>) {
    && (forall i, j :: 0 <= i < j < |order| ==> order[i] != order[j])
    && (forall k :: k in order <==> k in cases)
  }

  function Envelope(v: Value): Value { Dict(map["evaluations" := v]) }

  ghost predicate WireAccepted(v: Value, order: seq<string>) {
    && Has(v, {"evaluations"}) && v.fields["evaluations"].Dict?
    && Covers(order, v.fields["evaluations"].fields)
    && (forall k :: k in v.fields["evaluations"].fields ==> CaseAccepted(v.fields["evaluations"].fields[k]))
  }

  /** What normalize_map_output returns for the case keys in `order`: the requested ones, or
      the order of the object itself. */
  ghost function Normalized(v: Value, order: seq<string>): Option<Value> {
    if Has(v, {"evaluations"}) && v.fields["evaluations"].Items? then Some(v)
    else if WireAccepted(v, order) then Some(Envelope(Items(DecodeCases(v.fields["evaluations"].fields, order))))
    else None
  }

  lemma OrderedKey(requirements: map<string, Value>, i: nat)
    requires i < |Ascending(Numbers(requirements))|
    ensures WireKey(Ascending(Numbers(requirements))[i]) in requirements
  {
    assert Ascending(Numbers(requirements))[i] in Numbers(requirements);
  }

  lemma RowsAcceptedInOrder(requirements: map<string, Value>)
    requires forall k :: k in requirements ==> IsWireKey(k)
    ensures
      var order := Ascending(Numbers(requirements));
      RowsAccepted(requirements) <==> forall j :: 0 <= j < |order| ==> RowAt(requirements, order[j])
  {
    var order := Ascending(Numbers(requirements));
    hide WireKey, KeyNumber, IsWireKey, Ascending, Numbers, Has;
    if forall j :: 0 <= j < |order| ==> RowAt(requirements, order[j]) {
      forall k | k in requirements ensures Has(requirements[k], ROW_KEYS) { RowOfKey(requirements, order, k); }
    }
    if RowsAccepted(requirements) {
      forall j | 0 <= j < |order| ensures RowAt(requirements, order[j]) { OrderedKey(requirements, j); }
    }
  }

  lemma RowOfKey(requirements: map<string, Value>, order: seq<nat>, k: string)
    requires k in requirements && IsWireKey(k) && order == Ascending(Numbers(requirements))
    requires forall j :: 0 <= j < |order| ==> RowAt(requirements, order[j])
    ensures Has(requirements[k], ROW_KEYS)
  {
    KeyNumberBack(k);
    assert KeyNumber(k) in order;
    hide WireKey, KeyNumber, IsWireKey, Ascending, Numbers, Has;
    var j :| 0 <= j < |order| && order[j] == KeyNumber(k);
    assert RowAt(requirements, order[j]);
  }

  method RowsInOrder(requirements: map<string, Value>, order: seq<nat>) returns (rows: Option<seq<Value>>)
    requires forall j :: 0 <= j < |order| ==> WireKey(order[j]) in requirements
    ensures rows.Some? <==> forall j :: 0 <= j < |order| ==> RowAt(requirements, order[j])
    ensures rows.Some? ==> rows.value == DecodeRows(Dict(requirements), order)
  {
    hide WireKey, DecodeRow, DecodeRows, Has;
    NoRows(Dict(requirements));
    var ordered: seq<Value> := [];
    for i := 0 to |order|
      invariant forall j :: 0 <= j < i ==> RowAt(requirements, order[j])
      invariant ordered == DecodeRows(Dict(requirements), order[..i])
    {
      var row := requirements[WireKey(order[i])];
      if !Has(row, ROW_KEYS) { return None; }
      DecodeRowsSnoc(Dict(requirements), order, i);
      ordered := ordered + [DecodeRow(order[i], row)];
    }
    assert order[..|order|] == order;
    return Some(ordered);
  }

  method RowsOf(requirements: map<string, Value>) returns (rows: Option<seq<Value>>)
    ensures rows.Some? <==> RowsAccepted(requirements)
    ensures rows.Some? ==> rows.value == DecodeRows(Dict(requirements), Ascending(Numbers(requirements)))
  {
    if !(forall k :: k in requirements ==> IsWireKey(k)) { return None; }
    var order := Ascending(Numbers(requirements));
    RowsAcceptedInOrder(requirements);
    forall j | 0 <= j < |order| ensures WireKey(order[j]) in requirements { OrderedKey(requirements, j); }
    rows := RowsInOrder(requirements, order);
  }

  predicate RowAt(requirements: map<string, Value>, n: nat) {
    WireKey(n) in requirements && Has(requirements[WireKey(n)], ROW_KEYS)
  }

  method OneCase(key: string, one: Value) returns (r: Option<Value>)
    ensures r.Some? <==> CaseAccepted(one)
    ensures r.Some? ==> r.value == DecodeCase(key, one)
  {
    hide DecodeRows, Numbers, Ascending, DecodedCase, DecodeCase, RowsAccepted;
    if !Has(one, CASE_KEYS) || !one.fields["requisitos"].Dict? { return None; }
    var ordered := RowsOf(one.fields["requisitos"].fields);
    if ordered.None? { return None; }
    DecodeCaseValue(key, one);
    return Some(DecodedCase(key, one.fields["resumen"], ordered.value, one.fields["acciones_recomendadas"]));
  }

  /** The loop over the cases, once the keys are known to be the requested ones. */
  method CaseRowsOf(cases: map<string, Value>, order: seq<string>) returns (rows: Option<seq<Value>>)
    requires forall k :: k in order ==> k in cases
    ensures rows.Some? <==> forall k :: k in order ==> CaseAccepted(cases[k])
    ensures rows.Some? ==> rows.value == DecodeCases(cases, order)
  {
    hide CaseAccepted, DecodeCase;
    var done: seq<Value> := [];
    for i := 0 to |order|
      invariant forall k :: k in order[..i] ==> CaseAccepted(cases[k])
      invariant done == DecodeCases(cases, order[..i])
    {
      assert order[i] in order;
      var one := OneCase(order[i], cases[order[i]]);
      if one.None? { return None; }
      assert order[..i + 1][..i] == order[..i];
      done := done + [one.value];
    }
    assert order[..|order|] == order;
    return Some(done);
  }

  /** normalize_map_output. */
  method NormalizeMapOutput(v: Value, order: seq<string>) returns (r: Option<Value>)
    ensures r == Normalized(v, order)
  {
    hide CaseAccepted, DecodeCases;
    if !Has(v, {"evaluations"}) { return None; }
    if v.fields["evaluations"].Items? { return Some(v); }
    if !v.fields["evaluations"].Dict? { return None; }
    var cases := v.fields["evaluations"].fields;
    var seen: set<string> := {};
    for i := 0 to |order|
      invariant forall k :: k in seen <==> k in order[..i]
      invariant forall a, b :: 0 <= a < b < i ==> order[a] != order[b]
    {
      if order[i] in seen { assert !Covers(order, cases); return None; }
      seen := seen + {order[i]};
    }
    assert order[..|order|] == order;
    if seen != cases.Keys {
      assert !Covers(order, cases);
      return None;
    }
    var rows := CaseRowsOf(cases, order);
    return if rows.Some? then Some(Envelope(Items(rows.value))) else None;
  }
}
