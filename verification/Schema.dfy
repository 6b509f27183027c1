/**
 The Agent Pack schema language (server/agentpack/schema.go): a contract checker for schema
 documents and a value validator, mutually recursive, both bounded by depth 16.
 */
module Schema {
  import opened Prelude
  import opened JsonValues

  const MAX_DEPTH: nat := 16

  /** A raw document either decodes into the known fields or does not. */
  datatype Raw = Malformed | Doc(schema: Fields)

  /** oneOf: missing, not an array of documents, or a list (possibly empty). */
  datatype OneOf = Absent | Undecodable | Branches(list: seq<Raw>)

  datatype Fields = Fields(
    typ: string, default: Option<Json>, required: seq<string>, properties: map<string, Raw>,
    additional: Option<bool>, enum: seq<Json>, oneOf: OneOf, items: Option<Raw>,
    minimum: Option<real>, maximum: Option<real>)

  /** The validator's errors: the value does not fit, or the schema itself is at fault. */
  datatype Outcome = Fits | Mismatch | Fault

  ghost predicate OneOfDecodes(o: OneOf) { o.Absent? || (o.Branches? && o.list != []) }

  // ----- declarative meaning -----

  /** How enum candidates are compared: as values, or as reflect.DeepEqual sees them. */
  datatype Equality = Value | Code

  ghost predicate Equal(q: Equality, a: Json, b: Json) { if q.Value? then SameValue(a, b) else CodeEqual(a, b) }

  ghost predicate IsInteger(x: real, n: int) { x == n as real }

  /** A value of the scalar type; bounds are inclusive and count for numbers only. */
  ghost predicate ScalarConforms(s: Fields, v: Json) {
    match s.typ
    case "string" => v.Str?
    case "boolean" => v.Bool?
    case "null" => v.Null?
    case _ =>
      && v.Num? && (s.typ == "integer" ==> exists n :: IsInteger(v.number, n))
      && (s.minimum.Some? ==> v.number >= s.minimum.value) && (s.maximum.Some? ==> v.number <= s.maximum.value)
  }

  ghost predicate ScalarType(typ: string) { typ in ["string", "boolean", "null", "number", "integer"] }

  ghost predicate EnumAllows(q: Equality, s: Fields, v: Json) {
    s.enum != [] ==> exists i :: 0 <= i < |s.enum| && Equal(q, s.enum[i], v)
  }

  ghost predicate ExactlyOne(q: Equality, list: seq<Raw>, v: Json)
    decreases list, 1
  {
    exists k :: 0 <= k < |list| && ConformsOnly(q, list, v, k)
  }

  ghost predicate ConformsOnly(q: Equality, list: seq<Raw>, v: Json, k: nat)
    requires k < |list|
    decreases list, 0
  {
    Conforms(q, list[k], v) && forall j :: 0 <= j < |list| && j != k ==> !Conforms(q, list[j], v)
  }

  ghost predicate ObjectConforms(q: Equality, s: Fields, v: Json)
    decreases s, 0
  {
    && v.Obj?
    && (forall i :: 0 <= i < |s.required| ==> s.required[i] in v.fields)
    && (forall k :: k in v.fields ==>
          if k in s.properties then Conforms(q, s.properties[k], v.fields[k]) else s.additional != Some(false))
  }

  ghost predicate ArrayConforms(q: Equality, s: Fields, v: Json)
    decreases s, 0
  {
    v.Arr? && (s.items.Some? ==> forall i :: 0 <= i < |v.items| ==> Conforms(q, s.items.value, v.items[i]))
  }

  ghost predicate TypeConforms(q: Equality, s: Fields, v: Json)
    decreases s, 1
  {
    if s.typ == "object" then ObjectConforms(q, s, v)
    else if s.typ == "array" then ArrayConforms(q, s, v)
    else if ScalarType(s.typ) then ScalarConforms(s, v)
    else s.typ == "" && s.oneOf.Branches?
  }

  /** The value has the declared type, is one of the enum, and fits exactly one oneOf branch. */
  ghost predicate Conforms(q: Equality, raw: Raw, v: Json)
    decreases raw, 2
  {
    && raw.Doc? && OneOfDecodes(raw.schema.oneOf)
    && (raw.schema.oneOf.Branches? ==> ExactlyOne(q, raw.schema.oneOf.list, v))
    && EnumAllows(q, raw.schema, v) && TypeConforms(q, raw.schema, v)
  }

  // ----- declarative well-formedness of a document -----

  ghost predicate EnumOk(q: Equality, raw: Raw)
    requires raw.Doc?
  {
    && (forall i :: 0 <= i < |raw.schema.enum| ==> Conforms(q, raw, raw.schema.enum[i]))
    && (forall i, j :: 0 <= i < j < |raw.schema.enum| ==> !Equal(q, raw.schema.enum[i], raw.schema.enum[j]))
  }

  /** A required boolean without a default must accept false. */
  ghost predicate ImplicitDefaultOk(q: Equality, raw: Raw) {
    raw.Doc? && raw.schema.typ == "boolean" && raw.schema.default.None? ==> Conforms(q, raw, Bool(false))
  }

  ghost predicate ObjectOk(q: Equality, s: Fields, depth: nat, complex: bool, root: bool)
    decreases s, 0
  {
    && s.additional.Some? && !(s.additional.value && (root || !complex))
    && (forall i :: 0 <= i < |s.required| ==> s.required[i] in s.properties)
    && (forall k :: k in s.properties ==> WellFormed(q, s.properties[k], depth + 1, complex, false))
    && (forall k :: k in s.properties && k in s.required ==> ImplicitDefaultOk(q, s.properties[k]))
  }

  ghost predicate TypeOk(q: Equality, s: Fields, depth: nat, complex: bool, root: bool)
    decreases s, 1
  {
    if s.typ == "object" then ObjectOk(q, s, depth, complex, root)
    else if s.typ == "array" then s.items.Some? && WellFormed(q, s.items.value, depth + 1, complex, false)
    else if s.typ == "null" || s.typ == "" then true
    else ScalarType(s.typ) && (s.minimum.Some? && s.maximum.Some? ==> s.minimum.value <= s.maximum.value)
  }

  ghost predicate WellFormed(q: Equality, raw: Raw, depth: nat, complex: bool, root: bool)
    decreases raw, 2
  {
    && depth <= 16 && raw.Doc? && OneOfDecodes(raw.schema.oneOf)
    && (raw.schema.typ != "" || raw.schema.oneOf.Branches?)
    && (raw.schema.oneOf.Branches? ==> complex)
    && (!root && !complex ==> raw.schema.typ != "object" && raw.schema.typ != "array" && raw.schema.typ != "null")
    && (raw.schema.oneOf.Branches? ==> forall i :: 0 <= i < |raw.schema.oneOf.list| ==>
          WellFormed(q, raw.schema.oneOf.list[i], depth + 1, complex, false))
    && EnumOk(q, raw)
    && (raw.schema.default.Some? ==> Conforms(q, raw, raw.schema.default.value))
    && TypeOk(q, raw.schema, depth, complex, root)
  }

  /** No enum candidate anywhere in the document nests a number. */
  ghost predicate FlatEnums(raw: Raw)
    decreases raw
  {
    raw.Doc? ==>
      && (forall i :: 0 <= i < |raw.schema.enum| ==> Flat(raw.schema.enum[i]))
      && (raw.schema.oneOf.Branches? ==> forall i :: 0 <= i < |raw.schema.oneOf.list| ==> FlatEnums(raw.schema.oneOf.list[i]))
      && (forall k :: k in raw.schema.properties ==> FlatEnums(raw.schema.properties[k]))
      && (raw.schema.items.Some? ==> FlatEnums(raw.schema.items.value))
  }

  /** A document accepted under any mode is accepted by the validator's own mode. */
  lemma {:induction false} Relax(q: Equality, raw: Raw, depth: nat, complex: bool, root: bool)
    requires WellFormed(q, raw, depth, complex, root)
    ensures WellFormed(q, raw, depth, true, false)
    decreases raw
  {
    var s := raw.schema;
    assert TypeOk(q, s, depth, complex, root);
    if s.typ == "object" {
      assert ObjectOk(q, s, depth, complex, root);
      forall k | k in s.properties ensures WellFormed(q, s.properties[k], depth + 1, true, false) {
        assert WellFormed(q, s.properties[k], depth + 1, complex, false);
        Relax(q, s.properties[k], depth + 1, complex, false);
      }
      assert ObjectOk(q, s, depth, true, false);
    } else if s.typ == "array" {
      Relax(q, s.items.value, depth + 1, complex, false);
    }
    assert TypeOk(q, s, depth, true, false);
  }

  // ----- the validator and the contract checker -----

  function Fuel(depth: nat): nat { if depth > MAX_DEPTH then 0 else MAX_DEPTH + 1 - depth }

  /** The enum loop of the validator. */
  method InEnum(s: Fields, v: Json) returns (matched: bool)
    ensures matched <==> exists i :: 0 <= i < |s.enum| && CodeEqual(s.enum[i], v)
  {
    for i := 0 to |s.enum|
      invariant forall x :: 0 <= x < i ==> !CodeEqual(s.enum[x], v)
    {
      if CodeEqual(s.enum[i], v) { return true; }
    }
    matched := false;
  }

  /** What the validator promises of its result. */
  ghost predicate Verdict(out: Outcome, conforms: bool, wellFormed: bool) {
    && (out.Fits? ==> conforms)
    && (wellFormed ==> (out.Fits? <==> conforms) && !out.Fault?)
  }

  ghost function Hits(results: seq<bool>): nat {
    if results == [] then 0 else Hits(results[..|results| - 1]) + if results[|results| - 1] then 1 else 0
  }

  ghost predicate OnlyAt(results: seq<bool>, k: nat) {
    k < |results| && results[k] && forall j :: 0 <= j < |results| && j != k ==> !results[j]
  }

  lemma {:induction false} NoHits(results: seq<bool>)
    ensures Hits(results) == 0 <==> forall j :: 0 <= j < |results| ==> !results[j]
  {
    if results != [] {
      var init := results[..|results| - 1];
      NoHits(init);
      assert forall j :: 0 <= j < |init| ==> init[j] == results[j];
    }
  }

  lemma {:induction false} OneHit(results: seq<bool>)
    ensures Hits(results) == 1 <==> exists k :: OnlyAt(results, k)
  {
    if results == [] { return; }
    var n := |results| - 1;
    var init := results[..n];
    NoHits(init);
    OneHit(init);
    assert forall j :: 0 <= j < n ==> init[j] == results[j];
    if results[n] {
      assert Hits(init) == 0 <==> OnlyAt(results, n);
      assert forall k :: OnlyAt(results, k) ==> k == n;
    } else {
      assert forall k :: OnlyAt(init, k) <==> OnlyAt(results, k);
    }
  }

  lemma HitsMeanExactlyOne(results: seq<bool>, list: seq<Raw>, v: Json)
    requires |results| == |list| && forall j :: 0 <= j < |list| ==> (results[j] <==> Conforms(Code, list[j], v))
    ensures Hits(results) == 1 <==> ExactlyOne(Code, list, v)
  {
    OneHit(results);
    forall k | 0 <= k < |list| ensures OnlyAt(results, k) <==> ConformsOnly(Code, list, v, k) { }
  }

  /** Both calls of the oneOf loop on one branch. */
  method CheckBranch(branch: Raw, v: Json, depth: nat) returns (valid: bool, fits: bool)
    requires depth <= MAX_DEPTH
    ensures valid <==> WellFormed(Code, branch, depth + 1, true, false)
    ensures valid ==> (fits <==> Conforms(Code, branch, v))
    decreases Fuel(depth), 1
  {
    valid := ValidateSchemaContract(branch, depth + 1, true, false);
    if !valid { return false, false; }
    var out := ValidateSchemaValue(branch, v, depth + 1);
    fits := out.Fits?;
  }

  /** The oneOf loop: count the matching branches; every branch must itself be a valid document. */
  method CheckOneOf(list: seq<Raw>, v: Json, depth: nat) returns (out: Outcome)
    requires depth <= MAX_DEPTH
    ensures Verdict(out, ExactlyOne(Code, list, v), forall i :: 0 <= i < |list| ==> WellFormed(Code, list[i], depth + 1, true, false))
    decreases Fuel(depth), 2
  {
    var matches := 0;
    ghost var results: seq<bool> := [];
    for i := 0 to |list|
      invariant |results| == i && matches == Hits(results)
      invariant forall j :: 0 <= j < i ==> (results[j] <==> Conforms(Code, list[j], v))
    {
      var valid, fits := CheckBranch(list[i], v, depth);
      if !valid { return Fault; }
      assert (results + [fits])[..i] == results;
      results := results + [fits];
      if fits { matches := matches + 1; }
    }
    HitsMeanExactlyOne(results, list, v);
    out := if matches == 1 then Fits else Mismatch;
  }

  method CheckObject(s: Fields, v: Json, depth: nat) returns (out: Outcome)
    requires depth <= MAX_DEPTH
    ensures Verdict(out, ObjectConforms(Code, s, v), forall k :: k in s.properties ==> WellFormed(Code, s.properties[k], depth + 1, true, false))
    decreases Fuel(depth), 2
  {
    if !v.Obj? { return Mismatch; }
    for i := 0 to |s.required|
      invariant forall x :: 0 <= x < i ==> s.required[x] in v.fields
    {
      if s.required[i] !in v.fields { return Mismatch; }
    }
    var left := v.fields.Keys;
    while left != {}
      invariant left <= v.fields.Keys
      invariant forall k :: k in v.fields && k !in left && k !in s.properties ==> s.additional != Some(false)
      invariant forall k :: k in v.fields && k !in left && k in s.properties ==> Conforms(Code, s.properties[k], v.fields[k])
      decreases left
    {
      var key :| key in left;
      if key !in s.properties {
        if s.additional == Some(false) { return Mismatch; }
      } else {
        var child := ValidateSchemaValue(s.properties[key], v.fields[key], depth + 1);
        if !child.Fits? { return child; }
      }
      left := left - {key};
    }
    out := Fits;
  }

  method CheckArray(s: Fields, v: Json, depth: nat) returns (out: Outcome)
    requires depth <= MAX_DEPTH
    ensures Verdict(out, ArrayConforms(Code, s, v), s.items.Some? ==> WellFormed(Code, s.items.value, depth + 1, true, false))
    decreases Fuel(depth), 2
  {
    if !v.Arr? { return Mismatch; }
    if s.items.Some? {
      for i := 0 to |v.items|
        invariant forall x :: 0 <= x < i ==> Conforms(Code, s.items.value, v.items[x])
      {
        var child := ValidateSchemaValue(s.items.value, v.items[i], depth + 1);
        if !child.Fits? { return child; }
      }
    }
    out := Fits;
  }

  method CheckType(s: Fields, v: Json, depth: nat) returns (out: Outcome)
    requires depth <= MAX_DEPTH && OneOfDecodes(s.oneOf)
    ensures Verdict(out, TypeConforms(Code, s, v), TypeOk(Code, s, depth, true, false) && (s.typ != "" || s.oneOf.Branches?))
    ensures ScalarVerdict(s, v, out)
    decreases Fuel(depth), 3
  {
    if s.typ == "object" {
      out := CheckObject(s, v, depth);
      assert TypeOk(Code, s, depth, true, false) ==> ObjectOk(Code, s, depth, true, false);
    } else if s.typ == "array" {
      out := CheckArray(s, v, depth);
    } else {
      out := CheckScalar(s, v);
    }
  }

  /** The cases of the type switch without recursion. */
  method CheckScalar(s: Fields, v: Json) returns (out: Outcome)
    requires OneOfDecodes(s.oneOf) && s.typ != "object" && s.typ != "array"
    ensures out.Fault? <==> !ScalarType(s.typ) && (s.typ != "" || !s.oneOf.Branches?)
    ensures out.Fits? <==> if ScalarType(s.typ) then ScalarConforms(s, v) else s.typ == "" && s.oneOf.Branches?
  {
    if s.typ == "string" { return if v.Str? then Fits else Mismatch; }
    if s.typ == "boolean" { return if v.Bool? then Fits else Mismatch; }
    if s.typ == "null" { return if v.Null? then Fits else Mismatch; }
    if s.typ == "number" || s.typ == "integer" {
      if !v.Num? { return Mismatch; }
      var number := v.number;
      TruncMeans(number);
      if s.typ == "integer" && Trunc(number) != number { return Mismatch; }
      if s.minimum.Some? && number < s.minimum.value { return Mismatch; }
      if s.maximum.Some? && number > s.maximum.value { return Mismatch; }
      return Fits;
    }
    if s.typ == "" && s.oneOf.Branches? { return Fits; }
    return Fault;
  }

  /** math.Trunc */
  function Trunc(x: real): real { if x < 0.0 then 0.0 - (0.0 - x).Floor as real else x.Floor as real }

  lemma TruncMeans(x: real)
    ensures Trunc(x) == x <==> exists n :: IsInteger(x, n)
  {
    if Trunc(x) == x { assert IsInteger(x, if x < 0.0 then -((0.0 - x).Floor) else x.Floor); }
    if exists n :: IsInteger(x, n) {
      var n :| IsInteger(x, n);
      assert (0.0 - x) == (-n) as real;
    }
  }

  /** A document of one type: no enum, no oneOf. */
  ghost predicate TypeOnly(raw: Raw) { raw.Doc? && raw.schema.oneOf.Absent? && raw.schema.enum == [] }

  /** The verdict on a scalar type, case by case. */
  ghost predicate ScalarVerdict(s: Fields, v: Json, out: Outcome) {
    && (s.typ == "number" ==> (out.Fits? <==> v.Num? && InRange(s, v.number)))
    && (s.typ == "integer" ==> (out.Fits? <==> v.Num? && InRange(s, v.number) && exists n :: IsInteger(v.number, n)))
    && (s.typ == "string" ==> (out.Fits? <==> v.Str?))
    && (s.typ == "boolean" ==> (out.Fits? <==> v.Bool?))
    && (s.typ == "null" ==> (out.Fits? <==> v.Null?))
  }

  ghost predicate InRange(s: Fields, x: real) {
    (s.minimum.None? || s.minimum.value <= x) && (s.maximum.None? || x <= s.maximum.value)
  }

  /** validateSchemaValue */
  method ValidateSchemaValue(raw: Raw, v: Json, depth: nat) returns (out: Outcome)
    ensures Verdict(out, Conforms(Code, raw, v), WellFormed(Code, raw, depth, true, false))
    ensures TypeOnly(raw) && depth <= 16 ==> ScalarVerdict(raw.schema, v, out)
    decreases Fuel(depth), 4
  {
    if depth > MAX_DEPTH || raw.Malformed? { return Fault; }
    var s := raw.schema;
    if s.oneOf.Undecodable? || (s.oneOf.Branches? && s.oneOf.list == []) { return Fault; }
    if s.oneOf.Branches? {
      var branch := CheckOneOf(s.oneOf.list, v, depth);
      if !branch.Fits? { return branch; }
    }
    if s.enum != [] {
      var matched := InEnum(s, v);
      if !matched { return Mismatch; }
    }
    out := CheckType(s, v, depth);
  }

  /** validateSchemaContract */
  method ValidateSchemaContract(raw: Raw, depth: nat, complex: bool, root: bool) returns (ok: bool)
    ensures ok <==> WellFormed(Code, raw, depth, complex, root)
    decreases Fuel(depth), 6
  {
    if depth > MAX_DEPTH || raw.Malformed? { return false; }
    var s := raw.schema;
    if s.oneOf.Undecodable? || (s.oneOf.Branches? && s.oneOf.list == []) { return false; }
    if s.typ == "" && !s.oneOf.Branches? { return false; }
    if !complex && s.oneOf.Branches? { return false; }
    if !root && !complex && (s.typ == "object" || s.typ == "array" || s.typ == "null") { return false; }
    if s.oneOf.Branches? {
      ok := ContractBranches(s.oneOf.list, depth, complex);
      if !ok { return false; }
    }
    // A document that is well formed is also well formed in the validator's mode, so a candidate
    // or default it rejects really does not conform.
    if WellFormed(Code, raw, depth, complex, root) { Relax(Code, raw, depth, complex, root); }
    ok := ContractEnum(raw, depth);
    if !ok { return false; }
    if s.default.Some? {
      var fits := ValidateSchemaValue(raw, s.default.value, depth);
      if !fits.Fits? { return false; }
    }
    ok := ContractType(s, depth, complex, root);
  }

  method ContractBranches(list: seq<Raw>, depth: nat, complex: bool) returns (ok: bool)
    requires depth <= MAX_DEPTH
    ensures ok <==> forall i :: 0 <= i < |list| ==> WellFormed(Code, list[i], depth + 1, complex, false)
    decreases Fuel(depth), 5
  {
    for i := 0 to |list|
      invariant forall x :: 0 <= x < i ==> WellFormed(Code, list[x], depth + 1, complex, false)
    {
      ok := ValidateSchemaContract(list[i], depth + 1, complex, false);
      if !ok { return; }
    }
    ok := true;
  }

  ghost function Normalized(enum: seq<Json>): set<Json> { set c | c in enum :: Normalize(c) }

  /** No two candidates are equal for the code. */
  ghost predicate Distinct(enum: seq<Json>) { forall x, y :: 0 <= x < y < |enum| ==> !Equal(Code, enum[x], enum[y]) }

  lemma DistinctSnoc(enum: seq<Json>, i: nat)
    requires i < |enum| && Distinct(enum[..i])
    ensures Normalized(enum[..i + 1]) == Normalized(enum[..i]) + {Normalize(enum[i])}
    ensures Distinct(enum[..i + 1]) <==> Normalize(enum[i]) !in Normalized(enum[..i])
    ensures Normalize(enum[i]) in Normalized(enum[..i]) ==> !Distinct(enum)
  {
    assert enum[..i + 1] == enum[..i] + [enum[i]];
    if Normalize(enum[i]) in Normalized(enum[..i]) {
      var x :| 0 <= x < i && Normalize(enum[..i][x]) == Normalize(enum[i]);
      assert Equal(Code, enum[x], enum[i]) && enum[..i + 1][x] == enum[x];
    } else {
      forall x | 0 <= x < i ensures !Equal(Code, enum[x], enum[i]) { assert enum[..i][x] in enum[..i]; }
    }
  }

  /** validateSchemaEnum: every candidate fits the schema, and no two are equal. */
  method ContractEnum(raw: Raw, depth: nat) returns (ok: bool)
    requires raw.Doc?
    ensures ok ==> EnumOk(Code, raw)
    ensures WellFormed(Code, raw, depth, true, false) ==> ok
    decreases Fuel(depth), 5
  {
    var enum := raw.schema.enum;
    var seen: set<Json> := {};
    for i := 0 to |enum|
      invariant seen == Normalized(enum[..i]) && Distinct(enum[..i])
      invariant forall x :: 0 <= x < i ==> Conforms(Code, raw, enum[x])
    {
      WellFormedEnum(raw, depth, i);
      var fits := ValidateSchemaValue(raw, enum[i], depth);
      if !fits.Fits? { return false; }
      DistinctSnoc(enum, i);
      if Normalize(enum[i]) in seen { return false; }
      seen := seen + {Normalize(enum[i])};
    }
    EnumChecked(raw);
    ok := true;
  }

  lemma WellFormedEnum(raw: Raw, depth: nat, i: nat)
    requires raw.Doc? && i < |raw.schema.enum|
    ensures WellFormed(Code, raw, depth, true, false) ==> Conforms(Code, raw, raw.schema.enum[i]) && Distinct(raw.schema.enum)
  {
  }

  lemma EnumChecked(raw: Raw)
    requires raw.Doc? && Distinct(raw.schema.enum[..|raw.schema.enum|])
    requires forall x :: 0 <= x < |raw.schema.enum| ==> Conforms(Code, raw, raw.schema.enum[x])
    ensures EnumOk(Code, raw)
  {
    assert raw.schema.enum[..|raw.schema.enum|] == raw.schema.enum;
  }

  method ContractType(s: Fields, depth: nat, complex: bool, root: bool) returns (ok: bool)
    requires depth <= MAX_DEPTH
    ensures ok <==> TypeOk(Code, s, depth, complex, root)
    decreases Fuel(depth), 5
  {
    if s.typ == "object" {
      ok := ContractObject(s, depth, complex, root);
    } else if s.typ == "array" {
      if s.items.None? { return false; }
      ok := ValidateSchemaContract(s.items.value, depth + 1, complex, false);
    } else if s.typ == "null" || s.typ == "" {
      ok := true;
    } else {
      ok := s.typ == "string" || s.typ == "boolean" || s.typ == "number" || s.typ == "integer";
      if s.minimum.Some? && s.maximum.Some? && s.minimum.value > s.maximum.value { ok := false; }
    }
  }

  /** One declared property: its own contract, and the implicit default of a required boolean. */
  method ContractProperty(child: Raw, required: bool, depth: nat, complex: bool) returns (ok: bool)
    requires depth <= MAX_DEPTH
    ensures ok <==> PropertyOk(child, required, depth, complex)
    decreases Fuel(depth), 2
  {
    ok := ValidateSchemaContract(child, depth + 1, complex, false);
    if !ok || !required { return; }
    if child.schema.typ == "boolean" && child.schema.default.None? {
      if WellFormed(Code, child, depth + 1, complex, false) { Relax(Code, child, depth + 1, complex, false); }
      var fits := ValidateSchemaValue(child, Bool(false), depth + 1);
      ok := fits.Fits?;
    }
  }

  ghost predicate PropertyOk(child: Raw, required: bool, depth: nat, complex: bool) {
    WellFormed(Code, child, depth + 1, complex, false) && (required ==> ImplicitDefaultOk(Code, child))
  }

  method ContractObject(s: Fields, depth: nat, complex: bool, root: bool) returns (ok: bool)
    requires depth <= MAX_DEPTH
    ensures ok <==> ObjectOk(Code, s, depth, complex, root)
    decreases Fuel(depth), 4
  {
    if s.additional.None? || (s.additional.value && (root || !complex)) { return false; }
    for i := 0 to |s.required|
      invariant forall x :: 0 <= x < i ==> s.required[x] in s.properties
    {
      if s.required[i] !in s.properties { return false; }
    }
    ok := ContractProperties(s, depth, complex);
    ObjectFromProperties(s, depth, complex, root);
  }

  lemma ObjectFromProperties(s: Fields, depth: nat, complex: bool, root: bool)
    requires s.additional.Some? && !(s.additional.value && (root || !complex))
    requires forall i :: 0 <= i < |s.required| ==> s.required[i] in s.properties
    ensures ObjectOk(Code, s, depth, complex, root) <==>
            forall k :: k in s.properties ==> PropertyOk(s.properties[k], k in s.required, depth, complex)
  {
    if ObjectOk(Code, s, depth, complex, root) {
      forall k | k in s.properties ensures PropertyOk(s.properties[k], k in s.required, depth, complex) {
        assert WellFormed(Code, s.properties[k], depth + 1, complex, false);
      }
    } else if forall k :: k in s.properties ==> PropertyOk(s.properties[k], k in s.required, depth, complex) {
      forall k | k in s.properties
        ensures WellFormed(Code, s.properties[k], depth + 1, complex, false) && (k in s.required ==> ImplicitDefaultOk(Code, s.properties[k])) {
        assert PropertyOk(s.properties[k], k in s.required, depth, complex);
      }
    }
  }

  method ContractProperties(s: Fields, depth: nat, complex: bool) returns (ok: bool)
    requires depth <= MAX_DEPTH
    ensures ok <==> forall k :: k in s.properties ==> PropertyOk(s.properties[k], k in s.required, depth, complex)
    decreases Fuel(depth), 3
  {
    var left := s.properties.Keys;
    while left != {}
      invariant left <= s.properties.Keys
      invariant forall k :: k in s.properties && k !in left ==> PropertyOk(s.properties[k], k in s.required, depth, complex)
      decreases left
    {
      var key :| key in left;
      ok := ContractProperty(s.properties[key], key in s.required, depth, complex);
      if !ok { return false; }
      left := left - {key};
    }
    ok := true;
  }

  // ----- main results -----

  ghost predicate AcceptedBy(q: Equality, raw: Raw, allowComplex: bool) {
    raw.Doc? && raw.schema.typ == "object" && raw.schema.additional == Some(false) && WellFormed(q, raw, 0, allowComplex, true)
  }

  /** validateExtensionSchemaDocument: an object root, closed, then the contract. */
  method ValidateExtensionSchemaDocument(raw: Raw, allowComplex: bool) returns (ok: bool)
    ensures ok <==> AcceptedBy(Code, raw, allowComplex)
  {
    if raw.Malformed? || raw.schema.typ != "object" || raw.schema.additional != Some(false) { return false; }
    ok := ValidateSchemaContract(raw, 0, allowComplex, true);
  }

  /**
   End to end: once a document is accepted, the validator's verdict on every JSON value is the
   meaning of the document under the code's comparison, and it never blames the schema.  Without
   nested numbers in enums that is the meaning by value.
   */
  method AcceptedThenValidated(raw: Raw, allowComplex: bool, v: Json) returns (accepted: bool, out: Outcome)
    ensures accepted ==> (out.Fits? <==> Conforms(Code, raw, v)) && (out.Mismatch? <==> !Conforms(Code, raw, v)) && !out.Fault?
    ensures accepted && FlatEnums(raw) ==> (out.Fits? <==> Conforms(Value, raw, v))
    ensures accepted <==> AcceptedBy(Code, raw, allowComplex)
    ensures FlatEnums(raw) ==> (accepted <==> AcceptedBy(Value, raw, allowComplex))
  {
    accepted := ValidateExtensionSchemaDocument(raw, allowComplex);
    if accepted { Relax(Code, raw, 0, allowComplex, true); }
    out := ValidateSchemaValue(raw, v, 0);
    if FlatEnums(raw) {
      FlatConforms(raw, v);
      FlatWellFormed(raw, 0, allowComplex, true);
    }
  }

  // ----- flat enums: the code's comparison gives the meaning by value -----

  /** Without numbers inside candidates both comparisons agree, on every document and every value. */
  lemma {:induction false} FlatConforms(raw: Raw, v: Json)
    requires FlatEnums(raw)
    ensures Conforms(Code, raw, v) <==> Conforms(Value, raw, v)
    decreases raw, 1
  {
    if raw.Malformed? { return; }
    var s := raw.schema;
    FlatEnumAllows(s.enum, s, v);
    FlatTypeConforms(s, v);
    if s.oneOf.Branches? {
      var list := s.oneOf.list;
      forall i | 0 <= i < |list| ensures Conforms(Code, list[i], v) <==> Conforms(Value, list[i], v) {
        FlatConforms(list[i], v);
      }
      SameBranches(list, v);
    }
  }

  lemma SameBranches(list: seq<Raw>, v: Json)
    requires forall i :: 0 <= i < |list| ==> (Conforms(Code, list[i], v) <==> Conforms(Value, list[i], v))
    ensures ExactlyOne(Code, list, v) <==> ExactlyOne(Value, list, v)
  {
    forall k | 0 <= k < |list| ensures ConformsOnly(Code, list, v, k) <==> ConformsOnly(Value, list, v, k) { }
  }

  lemma FlatEnumAllows(enum: seq<Json>, s: Fields, v: Json)
    requires s.enum == enum && forall i :: 0 <= i < |enum| ==> Flat(enum[i])
    ensures EnumAllows(Code, s, v) <==> EnumAllows(Value, s, v)
  {
    forall i | 0 <= i < |enum| ensures CodeEqual(enum[i], v) <==> SameValue(enum[i], v) { FlatEquality(enum[i], v); }
  }

  lemma FlatTypeConforms(s: Fields, v: Json)
    requires FlatEnums(Doc(s))
    ensures TypeConforms(Code, s, v) <==> TypeConforms(Value, s, v)
    decreases s, 0
  {
    if s.typ == "object" && v.Obj? {
      forall k | k in v.fields && k in s.properties
        ensures Conforms(Code, s.properties[k], v.fields[k]) <==> Conforms(Value, s.properties[k], v.fields[k]) {
        FlatConforms(s.properties[k], v.fields[k]);
      }
      assert ObjectConforms(Code, s, v) <==> ObjectConforms(Value, s, v);
    } else if s.typ == "array" && v.Arr? && s.items.Some? {
      forall i | 0 <= i < |v.items| ensures Conforms(Code, s.items.value, v.items[i]) <==> Conforms(Value, s.items.value, v.items[i]) {
        FlatConforms(s.items.value, v.items[i]);
      }
      assert ArrayConforms(Code, s, v) <==> ArrayConforms(Value, s, v);
    }
  }

  lemma FlatEnumOk(raw: Raw)
    requires FlatEnums(raw) && raw.Doc?
    ensures EnumOk(Code, raw) <==> EnumOk(Value, raw)
  {
    var enum := raw.schema.enum;
    forall i | 0 <= i < |enum| ensures Conforms(Code, raw, enum[i]) <==> Conforms(Value, raw, enum[i]) { FlatConforms(raw, enum[i]); }
    forall i, j | 0 <= i < j < |enum| ensures Equal(Code, enum[i], enum[j]) <==> Equal(Value, enum[i], enum[j]) {
      FlatEquality(enum[i], enum[j]);
    }
  }

  lemma FlatMoves(q: Equality, q': Equality, raw: Raw, v: Json)
    requires FlatEnums(raw) && Conforms(q, raw, v)
    ensures Conforms(q', raw, v)
  {
    FlatConforms(raw, v);
  }

  lemma FlatEnumMoves(q: Equality, q': Equality, raw: Raw)
    requires FlatEnums(raw) && raw.Doc? && EnumOk(q, raw)
    ensures EnumOk(q', raw)
  {
    FlatEnumOk(raw);
  }

  lemma FlatDefaultMoves(q: Equality, q': Equality, raw: Raw)
    requires FlatEnums(raw) && ImplicitDefaultOk(q, raw)
    ensures ImplicitDefaultOk(q', raw)
  {
    FlatConforms(raw, Bool(false));
  }

  lemma {:induction false} FlatTransfer(q: Equality, q': Equality, raw: Raw, depth: nat, complex: bool, root: bool)
    requires FlatEnums(raw) && WellFormed(q, raw, depth, complex, root)
    ensures WellFormed(q', raw, depth, complex, root)
    decreases raw, 1
  {
    var s := raw.schema;
    FlatEnumMoves(q, q', raw);
    FlatTypeTransfer(q, q', s, depth, complex, root);
    if s.default.Some? { FlatMoves(q, q', raw, s.default.value); }
    if s.oneOf.Branches? {
      forall i | 0 <= i < |s.oneOf.list| ensures WellFormed(q', s.oneOf.list[i], depth + 1, complex, false) {
        FlatTransfer(q, q', s.oneOf.list[i], depth + 1, complex, false);
      }
    }
  }

  lemma FlatTypeTransfer(q: Equality, q': Equality, s: Fields, depth: nat, complex: bool, root: bool)
    requires FlatEnums(Doc(s)) && TypeOk(q, s, depth, complex, root)
    ensures TypeOk(q', s, depth, complex, root)
    decreases s, 0
  {
    if s.typ == "object" {
      forall k | k in s.properties
        ensures WellFormed(q', s.properties[k], depth + 1, complex, false)
        ensures k in s.required ==> ImplicitDefaultOk(q', s.properties[k]) {
        FlatTransfer(q, q', s.properties[k], depth + 1, complex, false);
        if k in s.required { FlatDefaultMoves(q, q', s.properties[k]); }
      }
      assert ObjectOk(q', s, depth, complex, root);
    } else if s.typ == "array" {
      FlatTransfer(q, q', s.items.value, depth + 1, complex, false);
    }
  }

  lemma FlatWellFormed(raw: Raw, depth: nat, complex: bool, root: bool)
    requires FlatEnums(raw)
    ensures WellFormed(Code, raw, depth, complex, root) <==> WellFormed(Value, raw, depth, complex, root)
  {
    if WellFormed(Code, raw, depth, complex, root) { FlatTransfer(Code, Value, raw, depth, complex, root); }
    if WellFormed(Value, raw, depth, complex, root) { FlatTransfer(Value, Code, raw, depth, complex, root); }
  }

  // ----- why enums must be flat -----

  lemma {:induction false} SameValueParts(v: Json, w: Json)
    requires SameValue(v, w)
    ensures v.Arr? <==> w.Arr?
    ensures v.Arr? ==> |v.items| == |w.items| && forall i :: 0 <= i < |v.items| ==> SameValue(v.items[i], w.items[i])
    ensures v.Obj? <==> w.Obj?
    ensures v.Obj? ==> v.fields.Keys == w.fields.Keys && forall k :: k in v.fields ==> SameValue(v.fields[k], w.fields[k])
  {
    if v.Arr? {
      forall i | 0 <= i < |v.items| ensures SameValue(v.items[i], w.items[i]) {
        assert Erase(v).items[i] == Erase(w).items[i];
      }
    } else if v.Obj? {
      assert Erase(v).fields.Keys == v.fields.Keys && Erase(w).fields.Keys == w.fields.Keys;
      forall k | k in v.fields ensures SameValue(v.fields[k], w.fields[k]) {
        assert Erase(v).fields[k] == Erase(w).fields[k];
      }
    }
  }

  /** The meaning depends on the value only, not on how its numbers were written. */
  lemma {:induction false} MeaningRespectsValue(raw: Raw, v: Json, w: Json)
    requires SameValue(v, w) && Conforms(Value, raw, v)
    ensures Conforms(Value, raw, w)
    decreases raw
  {
    var s := raw.schema;
    if s.oneOf.Branches? {
      var list := s.oneOf.list;
      assert ExactlyOne(Value, list, v);
      var k :| 0 <= k < |list| && ConformsOnly(Value, list, v, k);
      MeaningRespectsValue(list[k], v, w);
      forall j | 0 <= j < |list| && j != k ensures !Conforms(Value, list[j], w) {
        if Conforms(Value, list[j], w) { MeaningRespectsValue(list[j], w, v); }
      }
      assert ConformsOnly(Value, list, w, k);
    }
    TypeRespectsValue(s, v, w);
  }

  lemma TypeRespectsValue(s: Fields, v: Json, w: Json)
    requires SameValue(v, w) && TypeConforms(Value, s, v)
    ensures TypeConforms(Value, s, w)
    decreases s
  {
    SameValueParts(v, w);
    if s.typ == "object" {
      assert ObjectConforms(Value, s, v);
      forall k | k in w.fields && k in s.properties ensures Conforms(Value, s.properties[k], w.fields[k]) {
        assert Conforms(Value, s.properties[k], v.fields[k]);
        MeaningRespectsValue(s.properties[k], v.fields[k], w.fields[k]);
      }
      assert ObjectConforms(Value, s, w);
    } else if s.typ == "array" {
      assert ArrayConforms(Value, s, v);
      if s.items.Some? {
        forall i | 0 <= i < |w.items| ensures Conforms(Value, s.items.value, w.items[i]) {
          MeaningRespectsValue(s.items.value, v.items[i], w.items[i]);
        }
      }
      assert ArrayConforms(Value, s, w);
    }
  }

  /**
   An enum of a decoded document decides membership of every value exactly when its candidates are
   flat: as soon as one nests a number, that very value, arriving as plain floats, is refused.
   */
  lemma EnumExactIff(s: Fields)
    requires forall x :: 0 <= x < |s.enum| ==> FromDocument(s.enum[x])
    ensures (forall i :: 0 <= i < |s.enum| ==> Flat(s.enum[i])) <==> forall v :: EnumAllows(Code, s, v) <==> EnumAllows(Value, s, v)
  {
    if i :| 0 <= i < |s.enum| && !Flat(s.enum[i]) {
      NestedNumberIsMissed(s.enum, i);
      assert Equal(Value, s.enum[i], Erase(s.enum[i]));
      assert EnumAllows(Value, s, Erase(s.enum[i])) && !EnumAllows(Code, s, Erase(s.enum[i]));
    } else {
      forall v ensures EnumAllows(Code, s, v) <==> EnumAllows(Value, s, v) { FlatEnumAllows(s.enum, s, v); }
    }
  }

  /** A candidate with a nested number conforms by value as plain floats, and the validator refuses it. */
  method NestedNumberIsRejected(raw: Raw, depth: nat, i: nat) returns (out: Outcome)
    requires WellFormed(Value, raw, depth, true, false) && i < |raw.schema.enum| && !Flat(raw.schema.enum[i])
    requires forall x :: 0 <= x < |raw.schema.enum| ==> FromDocument(raw.schema.enum[x])
    ensures Conforms(Value, raw, Erase(raw.schema.enum[i])) && !out.Fits?
  {
    NestedNumberIsMissed(raw.schema.enum, i);
    MeaningRespectsValue(raw, raw.schema.enum[i], Erase(raw.schema.enum[i]));
    out := ValidateSchemaValue(raw, Erase(raw.schema.enum[i]), depth);
  }

  const NUMBER := Fields("number", None, [], map[], None, [], Absent, None, None, None)

  /** An array of numbers whose only allowed value is [1]. */
  const SIZES := NUMBER.(typ := "array", enum := [Arr([Num(1.0, Some("1"))])], items := Some(Doc(NUMBER)))

  /** A task input with one property, sizes. */
  const SIZED := NUMBER.(typ := "object", properties := map["sizes" := Doc(SIZES)], additional := Some(false))

  lemma EraseOne(n: real, literal: Option<string>)
    ensures Erase(Arr([Num(n, literal)])) == Arr([Num(n, None)])
  {
    assert Erase(Arr([Num(n, literal)])).items[0] == Num(n, None);
  }

  lemma SizesFit(q: Equality, literal: Option<string>)
    ensures WellFormed(q, Doc(NUMBER), 2, true, false) && Conforms(q, Doc(NUMBER), Num(1.0, literal))
    ensures ArrayConforms(q, SIZES, Arr([Num(1.0, literal)]))
    ensures EnumAllows(q, SIZES, Arr([Num(1.0, Some("1"))]))
    ensures EnumAllows(Value, SIZES, Arr([Num(1.0, literal)]))
    ensures !EnumAllows(Code, SIZES, Arr([Num(1.0, None)]))
  {
    assert Equal(q, SIZES.enum[0], Arr([Num(1.0, Some("1"))]));
    EraseOne(1.0, literal);
    EraseOne(1.0, Some("1"));
    assert Equal(Value, SIZES.enum[0], Arr([Num(1.0, literal)]));
  }

  lemma SizedIsWellFormed()
    ensures WellFormed(Code, Doc(SIZED), 0, true, true)
  {
    SizesFit(Code, Some("1"));
    assert Conforms(Code, Doc(SIZES), SIZES.enum[0]);
    assert TypeOk(Code, SIZES, 1, true, false);
    assert WellFormed(Code, Doc(SIZES), 1, true, false);
    assert ObjectOk(Code, SIZED, 0, true, true);
  }

  /** One accepted document, and one value it allows and the validator refuses. */
  method AcceptedThenRefused() returns (accepted: bool, out: Outcome)
    ensures accepted && Conforms(Value, Doc(SIZED), Obj(map["sizes" := Arr([Num(1.0, None)])])) && out.Mismatch?
  {
    var v := Obj(map["sizes" := Arr([Num(1.0, None)])]);
    SizedIsWellFormed();
    SizesFit(Value, None);
    assert Conforms(Value, Doc(SIZES), v.fields["sizes"]) && !Conforms(Code, Doc(SIZES), v.fields["sizes"]);
    assert ObjectConforms(Value, SIZED, v) && !ObjectConforms(Code, SIZED, v);
    accepted, out := AcceptedThenValidated(Doc(SIZED), true, v);
  }
}
