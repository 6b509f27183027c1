/** JSON values as the Agent Pack schema code sees them, and its two notions of equality. */
module JsonValues {
  import opened Prelude

  /**
   A number keeps its literal text when it was decoded with UseNumber (schema documents);
   task inputs and outputs carry plain floats.
   */
  datatype Json =
    | Null
    | Bool(value: bool)
    | Num(number: real, literal: Option<string>)
    | Str(text: string)
    | Arr(items: seq<Json>)
    | Obj(fields: map<string, Json>)

  /** normalizeJSONNumber: only a number at the top level loses its literal. */
  function Normalize(j: Json): Json { if j.Num? then Num(j.number, None) else j }

  /** reflect.DeepEqual(normalizeJSONNumber(a), normalizeJSONNumber(b)) */
  predicate CodeEqual(a: Json, b: Json) { Normalize(a) == Normalize(b) }

  /** The value itself, without any literal text. */
  function Erase(j: Json): Json {
    match j
    case Num(n, _) => Num(n, None)
    case Arr(s) => Arr(seq(|s|, i requires 0 <= i < |s| => Erase(s[i])))
    case Obj(f) => Obj(map k | k in f :: Erase(f[k]))
    case _ => j
  }

  /** Equality of JSON values, as a reader of the schema understands it. */
  predicate SameValue(a: Json, b: Json) { Erase(a) == Erase(b) }

  predicate NoNumbers(j: Json) {
    match j
    case Num(_, _) => false
    case Arr(s) => forall i :: 0 <= i < |s| ==> NoNumbers(s[i])
    case Obj(f) => forall k :: k in f ==> NoNumbers(f[k])
    case _ => true
  }

  /** Numbers appear only as the whole value. */
  predicate Flat(j: Json) { j.Num? || NoNumbers(j) }

  /** Every number still carries its literal text, as in a decoded schema document. */
  predicate FromDocument(j: Json) {
    match j
    case Num(_, lit) => lit.Some?
    case Arr(s) => forall i :: 0 <= i < |s| ==> FromDocument(s[i])
    case Obj(f) => forall k :: k in f ==> FromDocument(f[k])
    case _ => true
  }

  lemma {:induction false} EraseNoNumbers(j: Json)
    requires NoNumbers(j) || NoNumbers(Erase(j))
    ensures Erase(j) == j && NoNumbers(j)
  {
    match j
    case Arr(s) =>
      forall i | 0 <= i < |s| ensures Erase(s[i]) == s[i] && NoNumbers(s[i]) {
        if !NoNumbers(j) { assert NoNumbers(Erase(j).items[i]); }
        EraseNoNumbers(s[i]);
      }
      assert Erase(j).items == s;
    case Obj(f) =>
      forall k | k in f ensures Erase(f[k]) == f[k] && NoNumbers(f[k]) {
        if !NoNumbers(j) { assert NoNumbers(Erase(j).fields[k]); }
        EraseNoNumbers(f[k]);
      }
      assert Erase(j).fields == f;
    case _ =>
  }

  lemma CodeEqualIsSameValue(a: Json, b: Json)
    requires CodeEqual(a, b)
    ensures SameValue(a, b)
  {
  }

  /** On flat candidates the code's comparison is value equality. */
  lemma FlatEquality(c: Json, v: Json)
    requires Flat(c)
    ensures CodeEqual(c, v) <==> SameValue(c, v)
  {
    if CodeEqual(c, v) { CodeEqualIsSameValue(c, v); }
    if SameValue(c, v) && !c.Num? {
      EraseNoNumbers(c);
      EraseNoNumbers(v);
    }
  }

  lemma {:induction false} ErasedNumberShows(c: Json)
    requires !NoNumbers(c)
    ensures !FromDocument(Erase(c))
  {
    match c
    case Arr(s) =>
      var i :| 0 <= i < |s| && !NoNumbers(s[i]);
      ErasedNumberShows(s[i]);
      assert Erase(c).items[i] == Erase(s[i]);
    case Obj(f) =>
      var k :| k in f && !NoNumbers(f[k]);
      ErasedNumberShows(f[k]);
      assert Erase(c).fields[k] == Erase(f[k]);
    case _ =>
  }

  lemma {:induction false} EraseTwice(j: Json)
    ensures Erase(Erase(j)) == Erase(j)
  {
    match j
    case Arr(s) =>
      forall i | 0 <= i < |s| ensures Erase(Erase(j).items[i]) == Erase(s[i]) { EraseTwice(s[i]); }
      assert Erase(Erase(j)).items == Erase(j).items;
    case Obj(f) =>
      forall k | k in f ensures Erase(Erase(j).fields[k]) == Erase(f[k]) { EraseTwice(f[k]); }
      assert Erase(Erase(j)).fields == Erase(j).fields;
    case _ =>
  }

  /**
   A candidate with a nested number makes the enum check wrong: the same value arriving as
   plain floats equals no candidate of the document.
   */
  lemma NestedNumberIsMissed(enum: seq<Json>, i: nat)
    requires i < |enum| && !Flat(enum[i]) && forall x :: 0 <= x < |enum| ==> FromDocument(enum[x])
    ensures SameValue(enum[i], Erase(enum[i]))
    ensures forall x :: 0 <= x < |enum| ==> !CodeEqual(enum[x], Erase(enum[i]))
  {
    EraseTwice(enum[i]);
    ErasedNumberShows(enum[i]);
  }
}
