/** schema_from_contexts of scripts/dinaut_recommendation_schema.py: which frozen contexts
    make a schema, and the positions the schema fixes. */
module RecommendationSchema {
  import opened Common
  import opened DateText
  import opened WireMap
  import opened WireRoundTrip

  /** The columnar documentary profile; a row holds one text per column. */
  datatype Profile = Profile(columns: seq<string>, documents: seq<seq<string>>)

  datatype Context = Context(key: string, profile: Profile, numbers: seq<int>)

  datatype CaseSchema = CaseSchema(frozen: Frozen, refs: seq<string>)

  /** A positive number without leading zeros, after a prefix of length n. */
  predicate NumberedFrom(s: string, n: nat) {
    |s| > n && Digits(s[n..], |s| - n) && s[n] != '0'
  }

  predicate IsAlias(s: string) { NumberedFrom(s, 1) && s[0] == 'D' }

  predicate IsCaseKey(s: string) {
    NumberedFrom(s, 12) && (s[..12] == "seace_prod2-" || s[..12] == "seace_prod6-")
  }

  ghost predicate RefsOf(p: Profile, refs: seq<string>) {
    && Distinct(p.columns) && |refs| == |p.documents| && Distinct(refs)
    && exists c :: 0 <= c < |p.columns| && p.columns[c] == "ref" && RefsIn(p, c, refs)
  }

  ghost predicate RefsIn(p: Profile, c: nat, refs: seq<string>)
    requires c < |p.columns| && |refs| <= |p.documents|
  {
    forall i :: 0 <= i < |refs| ==> |p.documents[i]| == |p.columns| && refs[i] == p.documents[i][c] && IsAlias(refs[i])
  }

  method IndexOf(columns: seq<string>, name: string) returns (found: Option<nat>)
    ensures found.Some? ==> found.value < |columns| && columns[found.value] == name
    ensures found.None? ==> name !in columns
  {
    for i := 0 to |columns|
      invariant name !in columns[..i]
    {
      if columns[i] == name { return Some(i); }
    }
    assert columns[..|columns|] == columns;
    return None;
  }

  method AllDistinct(names: seq<string>) returns (yes: bool)
    ensures yes <==> Distinct(names)
  {
    for i := 0 to |names|
      invariant Distinct(names[..i])
    {
      if names[i] in names[..i] {
        assert !Distinct(names);
        return false;
      }
    }
    assert names[..|names|] == names;
    return true;
  }

  /** _document_refs: accepted exactly when some list of aliases is the profile's. */
  method DocumentRefs(p: Profile) returns (refs: Option<seq<string>>)
    ensures refs.Some? ==> RefsOf(p, refs.value)
    ensures refs.None? ==> forall r :: !RefsOf(p, r)
  {
    var apart := AllDistinct(p.columns);
    var column := IndexOf(p.columns, "ref");
    if !apart || column.None? { return None; }
    var c := column.value;
    var found: seq<string> := [];
    for i := 0 to |p.documents|
      invariant |found| == i && RefsIn(p, c, found) && Distinct(found)
    {
      var row := p.documents[i];
      if |row| != |p.columns| || !IsAlias(row[c]) || row[c] in found {
        forall r ensures !RefsOf(p, r) { OneRefColumn(p, c, i, found, r); }
        return None;
      }
      found := found + [row[c]];
    }
    return Some(found);
  }

  /** No list fits a profile whose row i cannot join the aliases before it. */
  lemma OneRefColumn(p: Profile, c: nat, i: nat, found: seq<string>, r: seq<string>)
    requires c < |p.columns| && p.columns[c] == "ref" && i < |p.documents|
    requires |found| == i && RefsIn(p, c, found)
    requires |p.documents[i]| != |p.columns| || !IsAlias(p.documents[i][c]) || p.documents[i][c] in found
    ensures !RefsOf(p, r)
  {
  }

  ghost predicate ContextOk(c: Context, profile: Profile) {
    IsCaseKey(c.key) && c.profile == profile && c.numbers != [] && Distinct(c.numbers)
    && forall i :: 0 <= i < |c.numbers| ==> c.numbers[i] >= 1
  }

  ghost predicate CasePosition(c: Context, s: CaseSchema) {
    && s.frozen.key == c.key && |s.frozen.numbers| == |c.numbers|
    && (forall a :: 0 <= a < |c.numbers| ==> s.frozen.numbers[a] == c.numbers[a])
    && RefsOf(c.profile, s.refs)
  }

  method Positions(numbers: seq<int>) returns (positions: Option<seq<nat>>)
    ensures positions.Some? <==> numbers != [] && Distinct(numbers) && forall i :: 0 <= i < |numbers| ==> numbers[i] >= 1
    ensures positions.Some? ==> |positions.value| == |numbers| && forall i :: 0 <= i < |numbers| ==> positions.value[i] == numbers[i]
  {
    if numbers == [] { return None; }
    var done: seq<nat> := [];
    var seen: set<int> := {};
    for i := 0 to |numbers|
      invariant |done| == i && forall a :: 0 <= a < i ==> done[a] == numbers[a] && numbers[a] >= 1
      invariant forall x :: x in seen <==> x in numbers[..i]
      invariant Distinct(numbers[..i])
    {
      if numbers[i] < 1 { return None; }
      if numbers[i] in seen {
        assert !Distinct(numbers);
        return None;
      }
      seen := seen + {numbers[i]};
      done := done + [numbers[i]];
    }
    assert numbers[..|numbers|] == numbers;
    return Some(done);
  }

  /** schema_from_contexts, for contexts under distinct keys. */
  method SchemaFromContexts(contexts: seq<Context>) returns (schema: Option<seq<CaseSchema>>)
    requires forall i, j :: 0 <= i < j < |contexts| ==> contexts[i].key != contexts[j].key
    ensures schema.Some? <==>
              && 1 <= |contexts| <= 5 && (forall i :: 0 <= i < |contexts| ==> ContextOk(contexts[i], contexts[0].profile))
              && exists refs :: RefsOf(contexts[0].profile, refs)
    ensures schema.Some? ==> |schema.value| == |contexts| && forall i :: 0 <= i < |contexts| ==> CasePosition(contexts[i], schema.value[i])
    ensures schema.Some? ==> FrozenOk(FrozenCases(schema.value))
  {
    if !(1 <= |contexts| <= 5) { return None; }
    var cases: seq<CaseSchema> := [];
    for i := 0 to |contexts|
      invariant |cases| == i && forall j :: 0 <= j < i ==> ContextOk(contexts[j], contexts[0].profile) && CasePosition(contexts[j], cases[j])
    {
      var c := contexts[i];
      if !IsCaseKey(c.key) { return None; }
      var refs := DocumentRefs(c.profile);
      if refs.None? || c.profile != contexts[0].profile { return None; }
      var positions := Positions(c.numbers);
      if positions.None? { return None; }
      cases := cases + [CaseSchema(Frozen(c.key, positions.value), refs.value)];
      assert CasePosition(c, cases[i]);
    }
    FrozenFromPositions(contexts, cases);
    return Some(cases);
  }

  function FrozenCases(schema: seq<CaseSchema>): (r: seq<Frozen>)
    ensures |r| == |schema| && forall i :: 0 <= i < |schema| ==> r[i] == schema[i].frozen
  {
    seq(|schema|, i requires 0 <= i < |schema| => schema[i].frozen)
  }

  lemma FrozenFromPositions(contexts: seq<Context>, cases: seq<CaseSchema>)
    requires |contexts| == |cases| && forall i, j :: 0 <= i < j < |contexts| ==> contexts[i].key != contexts[j].key
    requires forall i :: 0 <= i < |cases| ==> ContextOk(contexts[i], contexts[0].profile) && CasePosition(contexts[i], cases[i])
    ensures FrozenOk(FrozenCases(cases))
  {
  }

  /** A context that schema_from_contexts accepts, and an answer with its schema's keys and types
      that does not stand at its positions. */
  method AcceptedPositionsDiffer() returns (contexts: seq<Context>, schema: seq<CaseSchema>, ghost answer: Value)
    ensures |contexts| == 1 && ContextOk(contexts[0], contexts[0].profile) && RefsOf(contexts[0].profile, ["D1"])
    ensures |schema| == 1 && CasePosition(contexts[0], schema[0])
    ensures HasSchemaKeys(answer, FrozenCases(schema)) && TypedCase(Field(answer.fields["evaluations"], contexts[0].key))
    ensures !MatchesTuple(DecodeCases(answer.fields["evaluations"].fields, SchemaKeys(FrozenCases(schema))), FrozenCases(schema))
  {
    var profile := Profile(["ref"], [["D1"]]);
    contexts := [Context(CASE_KEY, profile, [2, 1])];
    OneDocument(profile);
    OneContext(contexts[0], profile);
    hide RefsOf, ContextOk, DecodeCases, MatchesTuple, HasSchemaKeys, TypedCase, FrozenOk;
    var made := SchemaFromContexts(contexts);
    schema := made.value;
    ghost var frozen;
    answer, frozen := PositionsCanDiffer();
    assert schema[0].frozen == Frozen(CASE_KEY, [2, 1]);
    assert FrozenCases(schema) == frozen;
  }

  lemma OneDocument(p: Profile)
    requires p == Profile(["ref"], [["D1"]])
    ensures RefsOf(p, ["D1"])
  {
    assert "D1"[1..] == "1";
    assert IsAlias("D1");
    assert p.columns[0] == "ref" && RefsIn(p, 0, ["D1"]);
  }

  lemma OneContext(c: Context, profile: Profile)
    requires c == Context(CASE_KEY, profile, [2, 1])
    ensures ContextOk(c, profile)
  {
    assert CASE_KEY[12..] == "1" && CASE_KEY[..12] == "seace_prod2-";
  }
}
