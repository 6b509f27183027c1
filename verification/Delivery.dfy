/** Delivery contracts: validation (server/agentpack/catalog.go) and matching (server/agentpack/delivery.go). */
module Delivery {
  import opened Prelude
  import opened GoText
  import opened Sorting

  /** `mimeValid` stands for validateContractMIMEType. */
  datatype DeliverySpec = DeliverySpec(path: string, role: string, mimeType: string, mimeValid: bool)

  // ----- globs -----

  /** pathpkg.Match for patterns without "?", "[" and "\": `*` is any run of characters other than "/". */
  predicate Glob(pattern: string, name: string)
    decreases |pattern| + |name|
  {
    if pattern == [] then name == []
    else if pattern[0] == '*' then
      Glob(pattern[1..], name) || (name != [] && name[0] != '/' && Glob(pattern, name[1..]))
    else name != [] && name[0] == pattern[0] && Glob(pattern[1..], name[1..])
  }

  /** name is prefix, a run without "/", suffix. */
  predicate Framed(prefix: string, suffix: string, name: string) {
    && |prefix| + |suffix| <= |name|
    && name[..|prefix|] == prefix
    && name[|name| - |suffix|..] == suffix
    && Free(name[|prefix|..|name| - |suffix|], '/')
  }

  lemma {:induction false} GlobLiteral(pattern: string, name: string)
    requires Free(pattern, '*')
    ensures Glob(pattern, name) <==> pattern == name
  {
    if pattern != [] && name != [] {
      GlobLiteral(pattern[1..], name[1..]);
      assert pattern == [pattern[0]] + pattern[1..] && name == [name[0]] + name[1..];
    }
  }

  lemma {:induction false} GlobStar(pattern: string, name: string)
    requires pattern != [] && pattern[0] == '*' && Free(pattern[1..], '*')
    ensures Glob(pattern, name) <==> Framed([], pattern[1..], name)
    decreases |name|
  {
    GlobLiteral(pattern[1..], name);
    if name != [] {
      GlobStar(pattern, name[1..]);
      FramedStep(pattern[1..], name);
    }
  }

  lemma FramedStep(suffix: string, name: string)
    requires name != []
    ensures Framed([], suffix, name) <==> suffix == name || (name[0] != '/' && Framed([], suffix, name[1..]))
  {
    if |suffix| < |name| {
      assert name == [name[0]] + name[1..];
      assert name[1..][|name| - 1 - |suffix|..] == name[|name| - |suffix|..];
      assert name[0..|name| - |suffix|] == [name[0]] + name[1..][0..|name| - 1 - |suffix|];
    }
  }

  /** With one wildcard, a match is prefix, run, suffix. */
  lemma {:induction false} GlobFramed(pattern: string, name: string)
    requires !Free(pattern, '*') && Free(Suffix(pattern), '*')
    ensures Glob(pattern, name) <==> Framed(Prefix(pattern), Suffix(pattern), name)
    decreases |pattern|
  {
    var i := IndexOf(pattern, '*');
    if i == 0 {
      GlobStar(pattern, name);
    } else {
      var rest := pattern[1..];
      assert rest[i - 1] == '*' && pattern[..i] == [pattern[0]] + rest[..i - 1];
      FirstIs(rest, '*', i - 1);
      assert Suffix(rest) == Suffix(pattern) && Prefix(pattern) == [pattern[0]] + Prefix(rest);
      if name != [] {
        GlobFramed(rest, name[1..]);
        assert name == [name[0]] + name[1..];
        FramedCons(pattern[0], Prefix(rest), Suffix(rest), name[0], name[1..]);
      }
    }
  }

  lemma FramedCons(h: char, a: string, b: string, c: char, name: string)
    ensures Framed([h] + a, b, [c] + name) <==> h == c && Framed(a, b, name)
  {
    var x, n := [h] + a, [c] + name;
    if |a| + |b| <= |name| {
      assert n[..|x|] == [c] + name[..|a|];
      assert n[|n| - |b|..] == name[|name| - |b|..];
      assert n[|x|..|n| - |b|] == name[|a|..|name| - |b|];
      if n[..|x|] == x { assert h == n[0] && a == n[..|x|][1..]; }
    }
  }

  lemma FirstIs(s: string, c: char, i: nat)
    requires i < |s| && s[i] == c && forall k :: 0 <= k < i ==> s[k] != c
    ensures IndexOf(s, c) == i
  {
  }

  // ----- validation -----

  /** splitDeliveryPattern */
  function Prefix(pattern: string): string { var i := IndexOf(pattern, '*'); if i < 0 then pattern else pattern[..i] }

  function Suffix(pattern: string): string { var i := IndexOf(pattern, '*'); if i < 0 then [] else pattern[i + 1..] }

  /** strings.ReplaceAll(s, "\\", "/") */
  function Slashed(s: string): string { seq(|s|, i requires 0 <= i < |s| => if s[i] == '\\' then '/' else s[i]) }

  function Normalized(raw: string): string { TrimSpace(Slashed(raw)) }

  /** The file is below output/, by components that stay there. */
  ghost predicate UnderOutput(raw: string) {
    Free(raw, '\\') && Descends(raw) && |Split(raw)| > 1 && Split(raw)[0] == "output"
  }

  ghost predicate Blank(s: string) { forall i :: 0 <= i < |s| ==> IsSpace(s[i]) }

  /** At most one "*", in the basename, and no other special character. */
  ghost predicate OneWildcard(pattern: string) {
    && (forall i, j :: 0 <= i < j < |pattern| && pattern[i] == '*' ==> pattern[j] != '*' && pattern[j] != '/')
    && Free(pattern, '?') && Free(pattern, '[')
  }

  ghost predicate ValidSpec(spec: DeliverySpec) {
    !Blank(spec.role) && spec.mimeValid && UnderOutput(spec.path) && OneWildcard(Normalized(spec.path))
  }

  /** validateOutputArtifactPath */
  method ValidateOutputArtifactPath(raw: string) returns (ok: bool)
    ensures ok <==> UnderOutput(raw)
  {
    BelowOutput(raw);
    if TrimSpace(raw) == [] || (raw != [] && raw[0] == '/') || IndexOf(raw, '\\') >= 0 { return false; }
    var components := Split(raw);
    for i := 0 to |components|
      invariant forall x :: 0 <= x < i ==> components[x] != ".."
    {
      if components[i] == ".." { return false; }
    }
    var clean := Clean(raw);
    ok := clean == raw && clean != "." && clean != "output" && "output/" <= clean;
  }

  lemma BelowOutput(raw: string)
    ensures Descends(raw) && Split(raw)[0] == "output" && |Split(raw)| > 1 <==> Clean(raw) == raw && "output/" <= raw && ".." !in Split(raw)
    ensures "output/" <= raw ==> TrimSpace(raw) != [] && raw[0] != '/'
  {
    CleanFixed(raw);
    InOutput(raw);
    if "output/" <= raw {
      assert raw[0] == 'o';
      NotBlank(raw, 0);
    }
  }

  lemma InOutput(raw: string)
    ensures "output/" <= raw <==> Split(raw)[0] == "output" && |Split(raw)| > 1
  {
    SplitJoin(raw);
    if Split(raw)[0] == "output" && |Split(raw)| > 1 { assert raw == "output" + "/" + Join(Split(raw)[1..]); }
    if "output/" <= raw {
      SplitComponent("output", raw[6..]);
      assert raw == "output" + raw[6..];
    }
  }

  lemma NotBlank(s: string, i: nat)
    requires i < |s| && !IsSpace(s[i])
    ensures TrimSpace(s) != []
  {
    var lo, hi := TrimMeans(s, IsSpace);
  }

  lemma BlankTrims(s: string)
    ensures TrimSpace(s) == [] <==> Blank(s)
  {
    var lo, hi := TrimMeans(s, IsSpace);
    if !Blank(s) {
      var i :| 0 <= i < |s| && !IsSpace(s[i]);
      NotBlank(s, i);
    }
  }

  /** validateDeliverySpec */
  method ValidateDeliverySpec(spec: DeliverySpec) returns (ok: bool)
    ensures ok <==> ValidSpec(spec)
  {
    BlankTrims(spec.role);
    if TrimSpace(spec.role) == [] || !spec.mimeValid { return false; }
    ok := ValidateOutputArtifactPath(spec.path);
    if !ok { return false; }
    var pattern := Normalized(spec.path);
    Wildcards(pattern);
    if Count(pattern, '*') > 1 || IndexOf(pattern, '?') >= 0 || IndexOf(pattern, '[') >= 0 { return false; }
    var wildcard := IndexOf(pattern, '*');
    ok := !(wildcard >= 0 && wildcard < LastIndexOf(pattern, '/'));
  }

  lemma Wildcards(p: string)
    ensures OneWildcard(p) <==>
      Count(p, '*') <= 1 && Free(p, '?') && Free(p, '[') && !(0 <= IndexOf(p, '*') < LastIndexOf(p, '/'))
  {
    var i := IndexOf(p, '*');
    if i >= 0 {
      CountSplit(p, '*', i);
      assert Free(p[..i], '*');
      assert forall k :: i < k < |p| ==> p[k] == p[i + 1..][k - i - 1];
    }
  }

  /** Backslashes separate components like slashes. */
  lemma {:induction false} SlashedJoins(parts: seq<string>)
    requires |parts| > 0 && forall i :: 0 <= i < |parts| ==> Free(parts[i], '\\')
    ensures Slashed(Backslashed(parts)) == Join(parts)
    decreases |parts|
  {
    if |parts| > 1 {
      SlashedJoins(parts[1..]);
      assert Slashed(Backslashed(parts)) == parts[0] + "/" + Slashed(Backslashed(parts[1..]));
    }
  }

  ghost function Backslashed(parts: seq<string>): string
    requires |parts| > 0
  {
    if |parts| == 1 then parts[0] else parts[0] + "\\" + Backslashed(parts[1..])
  }

  /** What matching relies on: at most one wildcard, in the basename, and no other special character. */
  ghost predicate Supported(pattern: string) {
    && Free(pattern, '?') && Free(pattern, '[') && Free(pattern, '\\')
    && Free(Suffix(pattern), '*') && Free(Suffix(pattern), '/')
  }

  lemma ValidSupported(spec: DeliverySpec)
    requires ValidSpec(spec)
    ensures Supported(Normalized(spec.path)) && Normalized(spec.path) != []
  {
    NormalizedSlashes(spec.path);
    BelowOutput(spec.path);
    InOutput(spec.path);
    assert Slashed(spec.path) == spec.path;
  }

  lemma NormalizedSlashes(raw: string)
    ensures Free(Normalized(raw), '\\')
  {
    var lo, hi := TrimMeans(Slashed(raw), IsSpace);
  }

  /** deliveryPatternsOverlap */
  predicate Overlap(left: string, right: string) {
    if Free(left, '*') && Free(right, '*') then left == right
    else if Free(left, '*') then Glob(right, left)
    else if Free(right, '*') then Glob(left, right)
    else
      && (Prefix(right) <= Prefix(left) || Prefix(left) <= Prefix(right))
      && (EndsWith(Suffix(left), Suffix(right)) || EndsWith(Suffix(right), Suffix(left)))
  }

  predicate EndsWith(s: string, t: string) { |t| <= |s| && s[|s| - |t|..] == t }

  /** The part up to and including the last "/". */
  function Dir(p: string): string { p[..LastIndexOf(p, '/') + 1] }

  // ----- the overlap check against real overlap -----

  ghost predicate Meet(left: string, right: string) { exists name :: Glob(left, name) && Glob(right, name) }

  lemma DirAppend(a: string, x: string)
    requires Free(x, '/')
    ensures Dir(a + x) == Dir(a)
  {
    var s := a + x;
    var k := LastIndexOf(a, '/');
    assert forall i :: |a| <= i < |s| ==> s[i] == x[i - |a|];
    assert forall i :: 0 <= i < |a| ==> s[i] == a[i];
    var r := LastIndexOf(s, '/');
    assert k >= 0 ==> s[k] == '/';
    assert r == k;
    assert s[..k + 1] == a[..k + 1];
  }

  /** A pattern taken apart at its wildcard. */
  lemma Wildcard(pattern: string)
    requires !Free(pattern, '*')
    ensures pattern == Prefix(pattern) + ("*" + Suffix(pattern))
  {
  }

  /** A name is matched only by patterns of its own directory. */
  lemma GlobSameDir(pattern: string, name: string)
    requires Supported(pattern) && Glob(pattern, name)
    ensures Dir(pattern) == Dir(name)
  {
    if Free(pattern, '*') {
      GlobLiteral(pattern, name);
    } else {
      GlobFramed(pattern, name);
      PrefixDir(pattern);
      FramedDir(Prefix(pattern), Suffix(pattern), name);
    }
  }

  lemma FramedDir(a: string, b: string, name: string)
    requires Framed(a, b, name) && Free(b, '/')
    ensures Dir(name) == Dir(a)
  {
  }

  /** The overlap test misses no real overlap. */
  lemma OverlapComplete(left: string, right: string, name: string)
    requires Supported(left) && Supported(right) && Glob(left, name) && Glob(right, name)
    ensures Overlap(left, right)
  {
    if Free(left, '*') {
      GlobLiteral(left, name);
      if Free(right, '*') { GlobLiteral(right, name); }
    } else if Free(right, '*') {
      GlobLiteral(right, name);
    } else {
      GlobFramed(left, name);
      GlobFramed(right, name);
      FramedCompatible(Prefix(left), Suffix(left), Prefix(right), Suffix(right), name);
    }
  }

  lemma FramedCompatible(a: string, b: string, c: string, d: string, name: string)
    requires Framed(a, b, name) && Framed(c, d, name)
    ensures c <= a || a <= c
    ensures EndsWith(b, d) || EndsWith(d, b)
  {
  }

  /** In one directory a reported overlap is real. */
  lemma OverlapSound(left: string, right: string)
    requires Supported(left) && Supported(right) && Dir(left) == Dir(right) && Overlap(left, right)
    ensures Meet(left, right)
  {
    if Free(left, '*') {
      GlobLiteral(left, left);
      if Free(right, '*') { GlobLiteral(right, left); }
    } else if Free(right, '*') {
      GlobLiteral(right, right);
    } else {
      PrefixDir(left);
      PrefixDir(right);
      var name := CommonName(Prefix(left), Suffix(left), Prefix(right), Suffix(right));
      GlobFramed(left, name);
      GlobFramed(right, name);
    }
  }

  /** The longer prefix with the longer suffix. */
  lemma CommonName(a: string, b: string, c: string, d: string) returns (name: string)
    requires Dir(a) == Dir(c) && Free(b, '/') && Free(d, '/')
    requires (c <= a || a <= c) && (EndsWith(b, d) || EndsWith(d, b))
    ensures Framed(a, b, name) && Framed(c, d, name)
  {
    var p := if |a| <= |c| then c else a;
    var s := if |b| <= |d| then d else b;
    assert LastIndexOf(a, '/') == |Dir(a)| - 1 == LastIndexOf(c, '/');
    LongFrame(a, b, p, s);
    LongFrame(c, d, p, s);
    name := p + s;
  }

  lemma PrefixDir(pattern: string)
    requires Supported(pattern) && !Free(pattern, '*')
    ensures Dir(pattern) == Dir(Prefix(pattern))
  {
    Wildcard(pattern);
    DirAppend(Prefix(pattern), "*" + Suffix(pattern));
  }

  lemma LongFrame(a: string, b: string, p: string, s: string)
    requires a <= p && EndsWith(s, b) && Free(p[|a|..], '/') && Free(s, '/')
    ensures Framed(a, b, p + s)
  {
  }

  /** Patterns really meet exactly when the test reports an overlap and they share their directory. */
  lemma OverlapExact(left: string, right: string)
    requires Supported(left) && Supported(right)
    ensures Meet(left, right) <==> Overlap(left, right) && Dir(left) == Dir(right)
  {
    if Meet(left, right) {
      var name :| Glob(left, name) && Glob(right, name);
      OverlapComplete(left, right, name);
      GlobSameDir(left, name);
      GlobSameDir(right, name);
    } else if Overlap(left, right) && Dir(left) == Dir(right) {
      OverlapSound(left, right);
    }
  }

  lemma WildcardAt(a: string, b: string)
    requires Free(a, '*')
    ensures var p := a + ("*" + b); !Free(p, '*') && Prefix(p) == a && Suffix(p) == b
  {
    var p := a + ("*" + b);
    assert p[|a|] == '*';
    assert forall k :: 0 <= k < |a| ==> p[k] == a[k];
    FirstIs(p, '*', |a|);
  }

  /** Across directories the test can report an overlap that does not exist. */
  lemma FalseAlarm(a: string, b: string)
    requires Free(a, '*') && Free(b, '*') && Supported(a + "*") && Supported(a + b + "/*")
    ensures Overlap(a + "*", a + b + "/*") && !Meet(a + "*", a + b + "/*")
  {
    assert a + "*" == a + ("*" + []) && a + b + "/*" == a + b + "/" + ("*" + []);
    WildcardAt(a, []);
    WildcardAt(a + b + "/", []);
    DeeperDir(a, b);
    OverlapExact(a + "*", a + b + "/*");
  }

  lemma DeeperDir(a: string, b: string)
    ensures Dir(a + ("*" + [])) != Dir(a + b + "/" + ("*" + []))
  {
    DirAppend(a, "*" + []);
    DirAppend(a + b + "/", "*" + []);
    assert LastIndexOf(a + b + "/", '/') == |a + b|;
    assert |Dir(a)| <= |a|;
  }

  // ----- the contract -----

  ghost predicate ValidContract(contract: seq<DeliverySpec>) {
    (forall i :: 0 <= i < |contract| ==> ValidSpec(contract[i])) && Apart(contract)
  }

  /** The same pattern, or reported as overlapping. */
  ghost predicate Clash(a: DeliverySpec, b: DeliverySpec) {
    Normalized(a.path) == Normalized(b.path) || Overlap(Normalized(a.path), Normalized(b.path))
  }

  ghost predicate Apart(contract: seq<DeliverySpec>) {
    forall i, j :: 0 <= i < j < |contract| ==> !Clash(contract[i], contract[j])
  }

  lemma OverlapSymmetric(left: string, right: string)
    ensures Overlap(left, right) == Overlap(right, left)
  {
  }

  ghost predicate Taken(seen: seq<string>, current: string) {
    exists k :: 0 <= k < |seen| && (seen[k] == current || Overlap(seen[k], current))
  }

  /** The first n entries are in order, and these are their patterns. */
  ghost predicate Checked(contract: seq<DeliverySpec>, n: nat, seen: seq<string>) {
    && n <= |contract| && |seen| == n && (forall k :: 0 <= k < n ==> seen[k] == Normalized(contract[k].path))
    && ValidContract(contract[..n])
  }

  lemma CheckedSnoc(contract: seq<DeliverySpec>, n: nat, seen: seq<string>)
    requires n < |contract| && Checked(contract, n, seen)
    ensures var current := Normalized(contract[n].path);
      if ValidSpec(contract[n]) && !Taken(seen, current) then Checked(contract, n + 1, seen + [current]) else !ValidContract(contract)
  {
    var current := Normalized(contract[n].path);
    if Taken(seen, current) {
      var k :| 0 <= k < n && (seen[k] == current || Overlap(seen[k], current));
      assert Clash(contract[k], contract[n]);
    } else if ValidSpec(contract[n]) {
      var next := contract[..n + 1];
      forall i, j | 0 <= i < j < |next| ensures !Clash(next[i], next[j]) {
        if j < n { assert !Clash(contract[..n][i], contract[..n][j]); }
      }
      forall i | 0 <= i < |next| ensures ValidSpec(next[i]) { if i < n { assert ValidSpec(contract[..n][i]); } }
    }
  }

  /** validateDeliveryContract: each entry is validated, then compared with the patterns of all earlier ones. */
  method ValidateDeliveryContract(contract: seq<DeliverySpec>) returns (ok: bool)
    ensures ok <==> ValidContract(contract)
  {
    var seen: seq<string> := [];
    for i := 0 to |contract|
      invariant Checked(contract, i, seen)
    {
      CheckedSnoc(contract, i, seen);
      ok := ValidateDeliverySpec(contract[i]);
      if !ok { return false; }
      var current := Normalized(contract[i].path);
      var clashes := ClashesEarlier(seen, current);
      if clashes { return false; }
      seen := seen + [current];
    }
    assert contract[..|contract|] == contract;
    return true;
  }

  method ClashesEarlier(seen: seq<string>, current: string) returns (clashes: bool)
    ensures clashes <==> Taken(seen, current)
  {
    for j := 0 to |seen|
      invariant forall k :: 0 <= k < j ==> seen[k] != current && !Overlap(seen[k], current)
    {
      if current == seen[j] || Overlap(seen[j], current) { return true; }
    }
    return false;
  }

  /** Whether a contract is valid does not depend on list order. */
  lemma OrderFree(a: seq<DeliverySpec>, b: seq<DeliverySpec>)
    requires multiset(a) == multiset(b)
    ensures ValidContract(a) <==> ValidContract(b)
  {
    forall x, y ensures Clash(x, y) == Clash(y, x) { OverlapSymmetric(Normalized(x.path), Normalized(y.path)); }
    var clash := (x, y) => Clash(x, y);
    assert Apart(a) == Pairwise(a, clash) && Apart(b) == Pairwise(b, clash);
    PairwiseReordered(a, b, clash);
    PairwiseReordered(b, a, clash);
    assert forall i :: 0 <= i < |a| ==> a[i] in multiset(b);
    assert forall i :: 0 <= i < |b| ==> b[i] in multiset(a);
  }

  // ----- matching -----

  /** What the matcher must do on supported patterns; on any other it may do anything. */
  ghost predicate PathMatch(match_: (string, string) -> bool) {
    forall pattern, name :: Supported(pattern) ==> match_(pattern, name) == Glob(pattern, name)
  }

  /** The path is accepted for matching at all. */
  ghost predicate Canonical(path: string) { Descends(path) }

  ghost predicate Hits(match_: (string, string) -> bool, spec: DeliverySpec, path: string) {
    Normalized(spec.path) != [] && match_(Normalized(spec.path), path)
  }

  /** MatchDeliverySpec: the one spec that hits, or none. */
  method MatchDeliverySpec(match_: (string, string) -> bool, contract: seq<DeliverySpec>, raw: string)
    returns (r: Option<DeliverySpec>)
    ensures r.Some? ==> r.value in contract && Canonical(Normalized(raw)) && Hits(match_, r.value, Normalized(raw))
    ensures r.None? && Canonical(Normalized(raw)) ==>
      || (forall s :: s in contract ==> !Hits(match_, s, Normalized(raw)))
      || exists i, j :: 0 <= i < j < |contract| && Hits(match_, contract[i], Normalized(raw)) && Hits(match_, contract[j], Normalized(raw))
    ensures r.Some? ==>
      forall i, j :: 0 <= i < j < |contract| ==> !(Hits(match_, contract[i], Normalized(raw)) && Hits(match_, contract[j], Normalized(raw)))
    ensures PathMatch(match_) && ValidContract(contract) ==>
      forall s :: s in contract && Canonical(Normalized(raw)) ==>
        (r == Some(s) <==> Glob(Normalized(s.path), Normalized(raw)))
  {
    var path := Normalized(raw);
    var cleaned := CleanOrNone(path);
    if cleaned.None? { return None; }
    r := None;
    ghost var at := -1;
    for i := 0 to |contract|
      invariant r.None? ==> forall k :: 0 <= k < i ==> !Hits(match_, contract[k], path)
      invariant r.Some? ==> 0 <= at < i && contract[at] == r.value && Hits(match_, r.value, path)
      invariant r.Some? ==> forall k :: 0 <= k < i && k != at ==> !Hits(match_, contract[k], path)
    {
      var pattern := Normalized(contract[i].path);
      if pattern != "" && match_(pattern, cleaned.value) {
        if r.Some? {
          if PathMatch(match_) && ValidContract(contract) { MatchIsUnique(match_, contract, at, i, path); }
          return None;
        }
        r, at := Some(contract[i]), i;
      }
    }
    if PathMatch(match_) && ValidContract(contract) {
      forall s | s in contract ensures Hits(match_, s, path) == Glob(Normalized(s.path), path) {
        ValidSupported(s);
      }
    }
  }

  /** The path checks of MatchDeliverySpec. */
  method CleanOrNone(path: string) returns (r: Option<string>)
    ensures r == if Canonical(path) then Some(path) else None
  {
    if path == "" || "/" <= path {
      EmptyComponent(path);
      return None;
    }
    CleanFixed(path);
    var cleaned := Clean(path);
    if cleaned != path || cleaned == "." || cleaned == ".." || "../" <= cleaned { return None; }
    return Some(cleaned);
  }

  lemma EmptyComponent(path: string)
    requires path == "" || "/" <= path
    ensures !Descends(path)
  {
    assert Split(path)[0] == "";
  }

  /** Under a validated contract no path is hit twice. */
  lemma MatchIsUnique(match_: (string, string) -> bool, contract: seq<DeliverySpec>, i: nat, j: nat, path: string)
    requires PathMatch(match_) && ValidContract(contract) && i < j < |contract|
    ensures !(Hits(match_, contract[i], path) && Hits(match_, contract[j], path))
  {
    ValidSupported(contract[i]);
    ValidSupported(contract[j]);
    var l, r := Normalized(contract[i].path), Normalized(contract[j].path);
    if Glob(l, path) && Glob(r, path) {
      OverlapComplete(l, r, path);
    }
  }
}
