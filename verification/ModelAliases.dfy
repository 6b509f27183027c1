/** Model usage aliases on the command line (server/agent/model_usage_alias.go, server/model/model_usage.go). */
module ModelAliases {
  import opened Prelude
  import opened GoText
  import opened Sorting

  datatype Identity = Identity(provider: string, model: string)

  type Aliases = map<string, Identity>

  const MAX_ALIASES := 128

  /** Text of one line, without blanks at the ends. */
  ghost predicate CleanText(s: string) {
    && s != "" && !IsSpace(s[0]) && !IsSpace(s[|s| - 1])
    && forall i :: 0 <= i < |s| ==> s[i] as int !in {0, 10, 13}
  }

  ghost predicate ValidAlias(raw: string, id: Identity) {
    CleanText(raw) && Free(raw, '=') && CleanText(id.provider) && Free(id.provider, '/') && CleanText(id.model)
  }

  ghost predicate ValidAliases(m: Aliases) { |m| <= 128 && forall raw :: raw in m ==> ValidAlias(raw, m[raw]) }

  /** One of the three checks: not empty, trimmed, and none of these characters. */
  method CheckText(s: string, banned: string) returns (ok: bool)
    ensures ok <==> s != "" && !IsSpace(s[0]) && !IsSpace(s[|s| - 1]) && forall i :: 0 <= i < |s| ==> s[i] !in banned
  {
    var lo, hi := TrimMeans(s, IsSpace);
    if s == "" || TrimSpace(s) != s { return false; }
    for i := 0 to |s|
      invariant forall k :: 0 <= k < i ==> s[k] !in banned
    {
      if s[i] in banned { return false; }
    }
    return true;
  }

  /** ValidateModelUsageAliases */
  method ValidateModelUsageAliases(m: Aliases) returns (ok: bool)
    ensures ok <==> ValidAliases(m)
  {
    if |m| > MAX_ALIASES { return false; }
    var todo := m.Keys;
    while todo != {}
      invariant todo <= m.Keys && forall raw :: raw in m && raw !in todo ==> ValidAlias(raw, m[raw])
      decreases todo
    {
      var raw :| raw in todo;
      ok := ValidateAlias(raw, m[raw]);
      if !ok { return; }
      todo := todo - {raw};
    }
    ok := true;
  }

  method ValidateAlias(raw: string, id: Identity) returns (ok: bool)
    ensures ok <==> ValidAlias(raw, id)
  {
    ok := CheckText(raw, "\0\r\n=");
    if !ok { return; }
    ok := CheckText(id.provider, "\0\r\n/");
    if !ok { return; }
    ok := CheckText(id.model, "\0\r\n");
  }

  function Line(raw: string, id: Identity): string { raw + "=" + (id.provider + "/" + id.model) }

  /** The two cuts of the parsing loop. */
  function ParseLine(value: string): Option<(string, Identity)> {
    var (raw, target, ok) := Cut(value, '=');
    var (provider, model, targetOK) := Cut(target, '/');
    if !ok || !targetOK then None else Some((raw, Identity(provider, model)))
  }

  /** A line reads back exactly when the raw name has no "=" and the provider no "/". */
  lemma LineRoundTrip(raw: string, id: Identity)
    ensures ParseLine(Line(raw, id)) == Some((raw, id)) <==> Free(raw, '=') && Free(id.provider, '/')
  {
    if Free(raw, '=') && Free(id.provider, '/') {
      CutUnique(raw, id.provider + "/" + id.model, '=');
      CutUnique(id.provider, id.model, '/');
    }
  }

  /** What is parsed writes back as it was. */
  lemma ParsedLineReads(value: string)
    ensures ParseLine(value).Some? ==> Line(ParseLine(value).value.0, ParseLine(value).value.1) == value
  {
  }

  // ----- parsing -----

  type Reader = string -> Option<(string, Identity)>

  /** m is what the first n lines say, without a repeated name. */
  ghost predicate Says(read: Reader, values: seq<string>, n: nat, m: Aliases)
    requires n <= |values|
  {
    && (forall i :: 0 <= i < n ==> read(values[i]).Some? && Entry(m, read(values[i]).value))
    && (forall i, j :: 0 <= i < j < n ==> read(values[i]).value.0 != read(values[j]).value.0)
    && (forall raw :: raw in m ==> Named(read, values, n, raw))
  }

  ghost predicate Named(read: Reader, values: seq<string>, n: nat, raw: string)
    requires n <= |values| && forall i :: 0 <= i < n ==> read(values[i]).Some?
  {
    exists i :: 0 <= i < n && read(values[i]).value.0 == raw
  }

  ghost predicate Entry(m: Aliases, e: (string, Identity)) { e.0 in m && m[e.0] == e.1 }

  lemma SaysUnique(read: Reader, values: seq<string>, n: nat, a: Aliases, b: Aliases)
    requires n <= |values| && Says(read, values, n, a) && Says(read, values, n, b)
    ensures a == b
  {
    forall raw | raw in a ensures raw in b && a[raw] == b[raw] {
      var i :| 0 <= i < n && read(values[i]).value.0 == raw;
      assert Entry(a, read(values[i]).value) && Entry(b, read(values[i]).value);
    }
    forall raw | raw in b ensures raw in a {
      var i :| 0 <= i < n && read(values[i]).value.0 == raw;
      assert Entry(a, read(values[i]).value);
    }
  }

  lemma SaysSnoc(read: Reader, values: seq<string>, n: nat, m: Aliases)
    requires n < |values| && Says(read, values, n, m) && read(values[n]).Some? && read(values[n]).value.0 !in m
    ensures Says(read, values, n + 1, m[read(values[n]).value.0 := read(values[n]).value.1])
  {
    var e := read(values[n]).value;
    var next := m[e.0 := e.1];
    forall i | 0 <= i < n ensures Entry(next, read(values[i]).value) && read(values[i]).value.0 != e.0 {
      assert Entry(m, read(values[i]).value);
    }
    forall raw | raw in next ensures Named(read, values, n + 1, raw) {
      if raw != e.0 { assert Named(read, values, n, raw); }
    }
  }

  /** The loop of ParseModelUsageAliases. */
  method ReadAll(read: Reader, values: seq<string>) returns (r: Option<Aliases>)
    ensures r.Some? ==> Says(read, values, |values|, r.value)
    ensures r.None? ==> forall m :: !Says(read, values, |values|, m)
  {
    var m: Aliases := map[];
    for i := 0 to |values|
      invariant Says(read, values, i, m)
    {
      var e := read(values[i]);
      if e.None? { return None; }
      if e.value.0 in m {
        ghost var k :| 0 <= k < i && read(values[k]).value.0 == e.value.0;
        assert forall m' :: !Says(read, values, |values|, m');
        return None;
      }
      SaysSnoc(read, values, i, m);
      m := m[e.value.0 := e.value.1];
    }
    return Some(m);
  }

  /** ParseModelUsageAliases succeeds exactly with the valid map that the lines say. */
  method ParseModelUsageAliases(values: seq<string>) returns (r: Option<Aliases>)
    ensures forall m :: r == Some(m) <==> Says(ParseLine, values, |values|, m) && ValidAliases(m)
  {
    r := ReadAll(ParseLine, values);
    if r.Some? {
      forall m | Says(ParseLine, values, |values|, m) ensures m == r.value {
        SaysUnique(ParseLine, values, |values|, m, r.value);
      }
      var ok := ValidateModelUsageAliases(r.value);
      if !ok { return None; }
    }
  }

  // ----- formatting -----

  ghost predicate Distinct(s: seq<string>) { forall i, j :: 0 <= i < j < |s| ==> s[i] != s[j] }

  /** values are the lines of m in the order of raws. */
  ghost predicate Formats(m: Aliases, raws: seq<string>, values: seq<string>) {
    && |values| == |raws| && Distinct(raws) && (forall raw :: raw in raws <==> raw in m)
    && (forall i :: 0 <= i < |raws| ==> values[i] == Line(raws[i], m[raws[i]]))
  }

  /** Collecting the keys of the map, in any order. */
  method RawModels(m: Aliases) returns (raws: seq<string>)
    ensures Distinct(raws) && forall raw :: raw in raws <==> raw in m
  {
    raws := [];
    var todo := m.Keys;
    while todo != {}
      invariant todo <= m.Keys && Distinct(raws)
      invariant forall raw :: raw in raws <==> raw in m && raw !in todo
      decreases todo
    {
      var raw :| raw in todo;
      raws, todo := raws + [raw], todo - {raw};
    }
  }

  lemma SortedDistinct(raws: seq<string>)
    requires Distinct(raws)
    ensures Distinct(Sort(raws, Lex)) && Ordered(Sort(raws, Lex), Lex) && forall raw :: raw in Sort(raws, Lex) <==> raw in raws
  {
    LexIsOrder();
    SortSorts(raws, Lex);
    var s := Sort(raws, Lex);
    forall raw ensures raw in s <==> raw in raws { assert raw in multiset(s) <==> raw in multiset(raws); }
    forall raw ensures multiset(raws)[raw] <= 1 { AtMostOnce(raws, raw); }
    DistinctIfOnce(s);
  }

  lemma {:induction false} AtMostOnce(s: seq<string>, x: string)
    requires Distinct(s)
    ensures multiset(s)[x] <= 1
  {
    if s != [] {
      var n := |s| - 1;
      AtMostOnce(s[..n], x);
      assert s == s[..n] + [s[n]];
      if s[n] == x { assert x !in s[..n]; }
    }
  }

  lemma DistinctIfOnce(s: seq<string>)
    requires forall x :: multiset(s)[x] <= 1
    ensures Distinct(s)
  {
    forall i, j | 0 <= i < j < |s| ensures s[i] != s[j] {
      assert s == s[..i] + [s[i]] + s[i + 1..j] + [s[j]] + s[j + 1..];
      assert multiset(s)[s[i]] <= 1;
    }
  }

  /** FormatModelUsageAliases: the lines of a valid map, by ascending raw name. */
  method FormatModelUsageAliases(m: Aliases) returns (r: Option<seq<string>>, ghost raws: seq<string>)
    ensures r.Some? <==> ValidAliases(m)
    ensures r.Some? ==> Formats(m, raws, r.value) && Ordered(raws, Lex)
  {
    raws := [];
    var ok := ValidateModelUsageAliases(m);
    if !ok { return None, raws; }
    var keys := RawModels(m);
    SortedDistinct(keys);
    var sorted := Sort(keys, Lex);
    raws := sorted;
    var lines := Lines(m, sorted);
    r := Some(lines);
  }

  method Lines(m: Aliases, raws: seq<string>) returns (lines: seq<string>)
    requires forall raw :: raw in raws ==> raw in m
    ensures |lines| == |raws| && forall i :: 0 <= i < |raws| ==> lines[i] == Line(raws[i], m[raws[i]])
  {
    lines := [];
    for i := 0 to |raws|
      invariant |lines| == i && forall k :: 0 <= k < i ==> lines[k] == Line(raws[k], m[raws[k]])
    {
      lines := lines + [Line(raws[i], m[raws[i]])];
    }
  }

  /** Parsing the formatted lines gives the map back. */
  lemma FormattedSays(m: Aliases, raws: seq<string>, values: seq<string>)
    requires ValidAliases(m) && Formats(m, raws, values)
    ensures Says(ParseLine, values, |values|, m)
  {
    forall i | 0 <= i < |values| ensures ParseLine(values[i]) == Some((raws[i], m[raws[i]])) { ReadsBack(m, raws, values, i); }
    ReadBackSays(ParseLine, m, raws, values);
  }

  lemma ReadsBack(m: Aliases, raws: seq<string>, values: seq<string>, i: nat)
    requires ValidAliases(m) && Formats(m, raws, values) && i < |values|
    ensures ParseLine(values[i]) == Some((raws[i], m[raws[i]]))
  {
    assert raws[i] in raws;
    assert ValidAlias(raws[i], m[raws[i]]);
    LineRoundTrip(raws[i], m[raws[i]]);
  }

  lemma ReadBackSays(read: Reader, m: Aliases, raws: seq<string>, values: seq<string>)
    requires |values| == |raws| && Distinct(raws) && forall raw :: raw in raws <==> raw in m
    requires forall i :: 0 <= i < |values| ==> read(values[i]) == Some((raws[i], m[raws[i]]))
    ensures Says(read, values, |values|, m)
  {
  }

  /** The command line carries every valid map unchanged. */
  method RoundTrip(m: Aliases) returns (r: Option<Aliases>)
    requires ValidAliases(m)
    ensures r == Some(m)
  {
    var lines, raws := FormatModelUsageAliases(m);
    FormattedSays(m, raws, lines.value);
    r := ParseModelUsageAliases(lines.value);
  }
}
