/**
 Names and labels of runtime objects (server/agent/kubernetes_naming.go, runtime_names.go and
 kubernetes_identity.go).

 `hash` stands for the leading hex digits of a SHA-256 digest and `lower` for strings.ToLower; nothing
 is assumed of either beyond the length and alphabet of a hex string.
 */
module Naming {
  import opened GoText

  predicate LowerAlnum(c: char) { 'a' <= c <= 'z' || '0' <= c <= '9' }

  predicate Alnum(c: char) { LowerAlnum(c) || 'A' <= c <= 'Z' }

  predicate KubeChar(c: char) { LowerAlnum(c) || c == '-' }

  predicate DockerChar(c: char) { KubeChar(c) || c == '_' || c == '.' }

  predicate LabelChar(c: char) { Alnum(c) || c == '-' || c == '_' || c == '.' }

  predicate Hyphen(c: char) { c == '-' }

  predicate HyphenDotUnderscore(c: char) { c == '-' || c == '.' || c == '_' }

  predicate All(s: string, ok: char -> bool) { forall i :: 0 <= i < |s| ==> ok(s[i]) }

  ghost predicate HexHash(hash: string -> string, n: nat) { forall s :: |hash(s)| == n && All(hash(s), LowerAlnum) }

  /** A label of section 2.1 of RFC 1123: letters, digits and "-", neither first nor last a "-", at most 63. */
  ghost predicate DnsLabel(s: string) {
    0 < |s| <= 63 && All(s, KubeChar) && LowerAlnum(s[0]) && LowerAlnum(s[|s| - 1])
  }

  /** validation.IsValidLabelValue, for a non-empty value */
  predicate LabelSyntax(s: string) { 0 < |s| <= 63 && All(s, LabelChar) && Alnum(s[0]) && Alnum(s[|s| - 1]) }

  /** A Docker object name: a letter or digit, then letters, digits, "_", "." and "-". */
  ghost predicate DockerName(s: string) { 0 < |s| <= 128 && All(s, DockerChar) && LowerAlnum(s[0]) }

  /** The classes by ASCII code point. */
  lemma Classes(c: char)
    ensures LowerAlnum(c) <==> 48 <= c as int <= 57 || 97 <= c as int <= 122
    ensures Alnum(c) <==> 48 <= c as int <= 57 || 65 <= c as int <= 90 || 97 <= c as int <= 122
    ensures KubeChar(c) <==> c as int == 45 || LowerAlnum(c)
    ensures DockerChar(c) <==> 45 <= c as int <= 46 || c as int == 95 || LowerAlnum(c)
    ensures LabelChar(c) <==> 45 <= c as int <= 46 || c as int == 95 || Alnum(c)
    ensures Hyphen(c) <==> KubeChar(c) && !LowerAlnum(c)
    ensures HyphenDotUnderscore(c) <==> DockerChar(c) && !LowerAlnum(c)
  {
  }

  /** regexp ReplaceAllString of runs outside the class by "-". */
  function Collapsed(s: string, ok: char -> bool): string
    decreases |s|
  {
    if s == [] then []
    else if ok(s[0]) then [s[0]] + Collapsed(s[1..], ok)
    else ['-'] + Collapsed(AfterRun(s, ok), ok)
  }

  function AfterRun(s: string, ok: char -> bool): (r: string)
    ensures |r| <= |s| && (s != [] && !ok(s[0]) ==> |r| < |s|)
  {
    if s == [] || ok(s[0]) then s else AfterRun(s[1..], ok)
  }

  lemma {:induction false} CollapsedAll(s: string, ok: char -> bool)
    requires ok('-')
    ensures All(Collapsed(s, ok), ok)
    decreases |s|
  {
    if s != [] { if ok(s[0]) { CollapsedAll(s[1..], ok); } else { CollapsedAll(AfterRun(s, ok), ok); } }
  }

  ghost predicate NoneOf(s: string, ok: char -> bool) { forall i :: 0 <= i < |s| ==> !ok(s[i]) }

  /** A whole run outside the class becomes one "-", and what is around it is kept. */
  lemma {:induction false} CollapsedRun(a: string, run: string, b: string, ok: char -> bool)
    requires All(a, ok) && run != [] && NoneOf(run, ok) && All(b, ok)
    ensures Collapsed(a + run + b, ok) == a + "-" + b
  {
    if a == [] {
      assert a + run + b == run + b;
      SkipsRun(run, b, ok);
      CollapsedSame(b, ok);
    } else {
      CollapsedRun(a[1..], run, b, ok);
      assert (a + run + b)[1..] == a[1..] + run + b;
      assert a == [a[0]] + a[1..];
    }
  }

  lemma {:induction false} SkipsRun(run: string, b: string, ok: char -> bool)
    requires NoneOf(run, ok) && (b == [] || ok(b[0]))
    ensures AfterRun(run + b, ok) == b
  {
    if run == [] {
      assert run + b == b;
    } else {
      SkipsRun(run[1..], b, ok);
      assert (run + b)[1..] == run[1..] + b;
    }
  }

  /** Trimming keeps the alphabet, and leaves no cut character at either end. */
  lemma TrimmedAll(s: string, cut: char -> bool, ok: char -> bool)
    requires All(s, ok)
    ensures var t := Trim(s, cut);
      && |t| <= |s| && All(t, ok)
      && (t != [] ==> !cut(t[0]) && !cut(t[|t| - 1]))
      && (s != [] && !cut(s[0]) ==> t != [] && t[0] == s[0])
  {
    var lo, hi := TrimMeans(s, cut);
    if s != [] && !cut(s[0]) { assert lo == 0 && hi > 0; }
  }

  /** strings.Trim(s[:n], cutset) where the name is too long */
  function Shortened(s: string, n: nat, cut: char -> bool): string { if |s| > n then Trim(s[..n], cut) else s }

  /** What is cut off a long name is past the limit, or a run of trimmed characters just before it. */
  lemma ShortenedMeans(s: string, n: nat, cut: char -> bool)
    requires s != [] ==> !cut(s[0])
    ensures var t := Shortened(s, n, cut);
      && t <= s && |t| <= n
      && (forall i :: |t| <= i < n && i < |s| ==> |s| > n && cut(s[i]))
      && (|s| > n && t != [] ==> !cut(t[|t| - 1]))
  {
    if |s| > n {
      var lo, hi := TrimMeans(s[..n], cut);
      assert n > 0 ==> !cut(s[..n][0]);
      assert s[..n][lo..hi] == s[lo..hi];
    }
  }

  lemma ShortenedAll(s: string, n: nat, cut: char -> bool, ok: char -> bool)
    requires n > 0 && All(s, ok) && (s != [] ==> !cut(s[0]) && !cut(s[|s| - 1]))
    ensures var t := Shortened(s, n, cut);
      && |t| <= n && All(t, ok) && (s != [] ==> t != [])
      && (t != [] ==> !cut(t[0]) && !cut(t[|t| - 1]))
  {
    if |s| > n { TrimmedAll(s[..n], cut, ok); }
  }

  // ----- Kubernetes names -----

  function Underscores(s: string): string { seq(|s|, i requires 0 <= i < |s| => if s[i] == '_' then '-' else s[i]) }

  /** Lower-cased, "_" to "-", unsafe runs to "-", trimmed. */
  function Cleaned(lower: string -> string, value: string): string {
    Trim(Collapsed(Underscores(lower(value)), KubeChar), Hyphen)
  }

  lemma CleanedMeans(lower: string -> string, value: string)
    ensures var t := Cleaned(lower, value); All(t, KubeChar) && (t != [] ==> LowerAlnum(t[0]) && LowerAlnum(t[|t| - 1]))
  {
    var c := Collapsed(Underscores(lower(value)), KubeChar);
    CollapsedAll(Underscores(lower(value)), KubeChar);
    TrimmedAll(c, Hyphen, KubeChar);
  }

  const UNKNOWN: string := "unknown"

  /** kubernetesSafeNamePart */
  function SafeNamePart(lower: string -> string, value: string): string {
    var v := Cleaned(lower, TrimSpace(value));
    if v == "" then UNKNOWN else Shortened(v, 24, Hyphen)
  }

  /** A non-empty piece of a DNS label. */
  ghost predicate Piece(s: string, n: nat) { 0 < |s| <= n && All(s, KubeChar) && LowerAlnum(s[0]) && LowerAlnum(s[|s| - 1]) }

  lemma SafePartMeans(lower: string -> string, value: string)
    ensures Piece(SafeNamePart(lower, value), 24)
  {
    var v := Cleaned(lower, TrimSpace(value));
    CleanedMeans(lower, TrimSpace(value));
    ShortenedAll(v, 24, Hyphen, KubeChar);
    UnknownIsPiece();
  }

  lemma {:induction false} CollapsedSame(s: string, ok: char -> bool)
    requires All(s, ok)
    ensures Collapsed(s, ok) == s
  {
    if s != [] {
      CollapsedSame(s[1..], ok);
      assert s == [s[0]] + s[1..];
    }
  }

  /** A short identity that is already safe is kept as it is. */
  lemma SafePartKeeps(lower: string -> string, value: string)
    requires Piece(value, 24) && lower(value) == value
    ensures SafeNamePart(lower, value) == value
  {
    assert !IsSpace(value[0]) && !IsSpace(value[|value| - 1]);
    var lo, hi := TrimMeans(value, IsSpace);
    assert Underscores(value) == value;
    CollapsedSame(value, KubeChar);
    var lo', hi' := TrimMeans(value, Hyphen);
  }

  /** Of an identity made of safe pieces around one unsafe run, the pieces stay, with "-" between them. */
  lemma SafePartJoins(lower: string -> string, a: string, run: string, b: string)
    requires Piece(a, 24) && Piece(b, 24) && run != [] && NoneOf(run, LowerAlnum) && |a| + 1 + |b| <= 24
    requires (run == "_" || run == "-" || (NoneOf(run, Hyphen) && Free(run, '_'))) && lower(a + run + b) == a + run + b
    ensures SafeNamePart(lower, a + run + b) == a + "-" + b
  {
    var s, t := a + run + b, a + "-" + b;
    assert s[0] == a[0] && s[|s| - 1] == b[|b| - 1] && t[0] == a[0] && t[|t| - 1] == b[|b| - 1];
    var lo, hi := TrimMeans(s, IsSpace);
    assert TrimSpace(s) == s;
    JoinsWith(a, run, b);
    var lo', hi' := TrimMeans(t, Hyphen);
  }

  lemma JoinsWith(a: string, run: string, b: string)
    requires All(a, KubeChar) && All(b, KubeChar) && run != [] && NoneOf(run, LowerAlnum)
    requires run == "_" || run == "-" || (NoneOf(run, Hyphen) && Free(run, '_'))
    ensures Collapsed(Underscores(a + run + b), KubeChar) == a + "-" + b
  {
    if run == "_" || run == "-" {
      assert Underscores(a + run + b) == a + "-" + b;
      CollapsedSame(a + "-" + b, KubeChar);
    } else {
      assert Underscores(a + run + b) == a + run + b;
      CollapsedRun(a, run, b, KubeChar);
    }
  }

  /** An identity without a letter or digit is called unknown. */
  lemma SafePartUnknown(lower: string -> string, value: string)
    requires NoneOf(lower(TrimSpace(value)), LowerAlnum)
    ensures SafeNamePart(lower, value) == "unknown"
  {
    var s := Underscores(lower(TrimSpace(value)));
    CollapsedHyphens(s);
    var lo, hi := TrimMeans(Collapsed(s, KubeChar), Hyphen);
  }

  lemma {:induction false} CollapsedHyphens(s: string)
    requires NoneOf(s, LowerAlnum)
    ensures All(Collapsed(s, KubeChar), Hyphen)
    decreases |s|
  {
    if s != [] {
      if KubeChar(s[0]) { CollapsedHyphens(s[1..]); } else { RestOfRun(s); CollapsedHyphens(AfterRun(s, KubeChar)); }
    }
  }

  lemma {:induction false} RestOfRun(s: string)
    requires NoneOf(s, LowerAlnum)
    ensures NoneOf(AfterRun(s, KubeChar), LowerAlnum)
  {
    if s != [] && !KubeChar(s[0]) { RestOfRun(s[1..]); }
  }

  lemma UnknownIsPiece()
    ensures Piece(UNKNOWN, 7)
  {
  }

  /** kubernetesIdentityName */
  function KubernetesIdentityName(lower: string -> string, hash: string -> string, prefix: string, identity: string): string
    requires |prefix| + |hash(identity)| <= 60
  {
    var part := SafeNamePart(lower, identity);
    var short := Shortened(part, 63 - |prefix| - |hash(identity)| - 2, Hyphen);
    prefix + "-" + (if short == "" then UNKNOWN else short) + "-" + hash(identity)
  }

  lemma Joined(prefix: string, part: string, suffix: string)
    requires Piece(prefix, 63) && Piece(part, 63) && Piece(suffix, 63) && |prefix| + |part| + |suffix| <= 61
    ensures DnsLabel(prefix + "-" + part + "-" + suffix)
  {
  }

  /** Every generated Job and PVC name is a DNS label. */
  lemma KubernetesNameIsLabel(lower: string -> string, hash: string -> string, prefix: string, identity: string)
    requires HexHash(hash, 10) && Piece(prefix, 50)
    ensures DnsLabel(KubernetesIdentityName(lower, hash, prefix, identity))
  {
    var part := SafeNamePart(lower, identity);
    SafePartMeans(lower, identity);
    ShortenedAll(part, 63 - |prefix| - 10 - 2, Hyphen, KubeChar);
    Joined(prefix, Shortened(part, 63 - |prefix| - 12, Hyphen), hash(identity));
  }

  /** The two prefixes in use qualify, and leave every safe part whole. */
  lemma KubernetesPrefixes(lower: string -> string, hash: string -> string, identity: string)
    requires HexHash(hash, 10)
    ensures Piece("creator-agent-job", 50) && Piece("creator-agent-workspace", 50)
    ensures forall prefix :: |prefix| <= 27 ==>
      KubernetesIdentityName(lower, hash, prefix, identity) == prefix + "-" + SafeNamePart(lower, identity) + "-" + hash(identity)
  {
    SafePartMeans(lower, identity);
  }

  /** Equal names come from identities with equal digests. */
  lemma NameKeepsHash(lower: string -> string, hash: string -> string, prefix: string, a: string, b: string)
    requires HexHash(hash, 10) && |prefix| <= 50
    requires KubernetesIdentityName(lower, hash, prefix, a) == KubernetesIdentityName(lower, hash, prefix, b)
    ensures hash(a) == hash(b)
  {
    var s, t := KubernetesIdentityName(lower, hash, prefix, a), KubernetesIdentityName(lower, hash, prefix, b);
    assert s[|s| - 10..] == hash(a) && t[|t| - 10..] == hash(b);
  }

  // ----- Kubernetes labels -----

  /** kubernetesLabelValue */
  function LabelValue(lower: string -> string, hash: string -> string, raw: string): string {
    var value := TrimSpace(raw);
    if value == "" then UNKNOWN
    else if LabelSyntax(value) then value
    else
      var safe := Shortened(Cleaned(lower, value), 52, Hyphen);
      if safe == "" then hash(value) else safe + "-" + hash(value)
  }

  lemma LabelValueIsValid(lower: string -> string, hash: string -> string, raw: string)
    requires HexHash(hash, 10)
    ensures LabelSyntax(LabelValue(lower, hash, raw))
  {
    var value := TrimSpace(raw);
    UnknownIsPiece();
    CleanedMeans(lower, value);
    ShortenedAll(Cleaned(lower, value), 52, Hyphen, KubeChar);
    var safe := Shortened(Cleaned(lower, value), 52, Hyphen);
    if safe != [] { LabelJoined(safe, hash(value)); }
  }

  lemma LabelJoined(safe: string, h: string)
    requires Piece(safe, 52) && |h| == 10 && All(h, LowerAlnum)
    ensures LabelSyntax(safe + "-" + h)
  {
  }

  /** Label syntax is exactly the fixed points of the encoding, among non-empty values. */
  lemma LabelFixed(lower: string -> string, hash: string -> string, s: string)
    requires HexHash(hash, 10)
    ensures s != [] ==> (LabelValue(lower, hash, s) == s <==> LabelSyntax(s))
  {
    LabelValueIsValid(lower, hash, s);
    if LabelSyntax(s) {
      var lo, hi := TrimMeans(s, IsSpace);
      assert !IsSpace(s[0]) && !IsSpace(s[|s| - 1]);
    }
  }

  ghost predicate LabelPoint(c: int) { 45 <= c <= 46 || c == 95 || AlnumPoint(c) }

  ghost predicate AlnumPoint(c: int) { 48 <= c <= 57 || 65 <= c <= 90 || 97 <= c <= 122 }

  /** Kept are exactly the label values in Kubernetes syntax, by code points. */
  lemma LabelKept(lower: string -> string, hash: string -> string, s: string)
    requires HexHash(hash, 10) && s != []
    ensures LabelValue(lower, hash, s) == s <==>
      |s| <= 63 && AlnumPoint(s[0] as int) && AlnumPoint(s[|s| - 1] as int) && forall i :: 0 <= i < |s| ==> LabelPoint(s[i] as int)
  {
    LabelFixed(lower, hash, s);
  }

  /** The verifier accepts exactly the valid label values. */
  lemma VerifiedLabel(lower: string -> string, hash: string -> string, value: string)
    requires HexHash(hash, 10)
    ensures ValidRuntimeIdentityLabel(lower, hash, value) <==> LabelSyntax(value)
  {
    LabelFixed(lower, hash, value);
  }

  /** A label that had to be changed carries the digest of the value. */
  lemma LabelKeepsHash(lower: string -> string, hash: string -> string, raw: string)
    requires TrimSpace(raw) != [] && !LabelSyntax(TrimSpace(raw))
    ensures var s, h := LabelValue(lower, hash, raw), hash(TrimSpace(raw)); |h| <= |s| && s[|s| - |h|..] == h
  {
  }

  /** Of a value with one unsafe run the pieces stay in the label, in front of the digest. */
  lemma LabelShows(lower: string -> string, hash: string -> string, a: string, run: string, b: string)
    requires Piece(a, 52) && Piece(b, 52) && |a| + 1 + |b| <= 52 && run != [] && NoneOf(run, LabelChar)
    requires lower(a + run + b) == a + run + b
    ensures LabelValue(lower, hash, a + run + b) == a + "-" + b + "-" + hash(a + run + b)
  {
    var s, t := a + run + b, a + "-" + b;
    assert s[0] == a[0] && s[|s| - 1] == b[|b| - 1] && t[0] == a[0] && t[|t| - 1] == b[|b| - 1] && s[|a|] == run[0];
    var lo, hi := TrimMeans(s, IsSpace);
    assert TrimSpace(s) == s && !LabelSyntax(s);
    assert Underscores(s) == s;
    CollapsedRun(a, run, b, KubeChar);
    var lo', hi' := TrimMeans(t, Hyphen);
  }

  /** validRuntimeIdentityLabel */
  predicate ValidRuntimeIdentityLabel(lower: string -> string, hash: string -> string, value: string) {
    value != "" && value == LabelValue(lower, hash, value) && |value| <= 63
  }

  /** Encoding is idempotent, so every stamped label passes the verifier. */
  lemma StampedLabelsPass(lower: string -> string, hash: string -> string, raw: string)
    requires HexHash(hash, 10)
    ensures ValidRuntimeIdentityLabel(lower, hash, LabelValue(lower, hash, raw))
  {
    LabelValueIsValid(lower, hash, raw);
    LabelFixed(lower, hash, LabelValue(lower, hash, raw));
  }

  // ----- Docker names -----

  function DockerPart(lower: string -> string, identity: string): string {
    Trim(Collapsed(lower(TrimSpace(identity)), DockerChar), HyphenDotUnderscore)
  }

  /** dockerIdentityName */
  function DockerIdentityName(lower: string -> string, hash: string -> string, prefix: string, identity: string): string
    requires |prefix| + |hash(identity)| <= 126
  {
    var short := Shortened(DockerPart(lower, identity), 128 - |prefix| - |hash(identity)| - 2, HyphenDotUnderscore);
    prefix + "-" + (if short == "" then UNKNOWN else short) + "-" + hash(identity)
  }

  lemma DockerNameIsValid(lower: string -> string, hash: string -> string, prefix: string, identity: string)
    requires HexHash(hash, 16) && Piece(prefix, 100)
    ensures DockerName(DockerIdentityName(lower, hash, prefix, identity))
  {
    var c := Collapsed(lower(TrimSpace(identity)), DockerChar);
    CollapsedAll(lower(TrimSpace(identity)), DockerChar);
    TrimmedAll(c, HyphenDotUnderscore, DockerChar);
    var part := DockerPart(lower, identity);
    ShortenedAll(part, 128 - |prefix| - 18, HyphenDotUnderscore, DockerChar);
    var short := Shortened(part, 128 - |prefix| - 18, HyphenDotUnderscore);
    UnknownIsPiece();
    DockerJoined(prefix, if short == "" then UNKNOWN else short, hash(identity));
  }

  lemma DockerNameKeepsHash(lower: string -> string, hash: string -> string, prefix: string, a: string, b: string)
    requires HexHash(hash, 16) && |prefix| <= 100
    requires DockerIdentityName(lower, hash, prefix, a) == DockerIdentityName(lower, hash, prefix, b)
    ensures hash(a) == hash(b)
  {
    var s, t := DockerIdentityName(lower, hash, prefix, a), DockerIdentityName(lower, hash, prefix, b);
    assert s[|s| - 16..] == hash(a) && t[|t| - 16..] == hash(b);
  }

  lemma DockerJoined(prefix: string, part: string, suffix: string)
    requires Piece(prefix, 100) && All(part, DockerChar) && All(suffix, LowerAlnum) && |prefix| + |part| + |suffix| <= 126
    ensures DockerName(prefix + "-" + part + "-" + suffix)
  {
  }

  /** The identity appears in its container name: whole if it is short and safe. */
  lemma DockerNameShows(lower: string -> string, hash: string -> string, prefix: string, identity: string)
    requires |prefix| + |identity| + |hash(identity)| <= 126 && identity != [] && lower(identity) == identity
    requires All(identity, DockerChar) && LowerAlnum(identity[0]) && LowerAlnum(identity[|identity| - 1])
    ensures DockerIdentityName(lower, hash, prefix, identity) == prefix + "-" + identity + "-" + hash(identity)
  {
    DockerPartKeeps(lower, identity);
  }

  lemma DockerPartKeeps(lower: string -> string, identity: string)
    requires identity != [] && lower(identity) == identity
    requires All(identity, DockerChar) && LowerAlnum(identity[0]) && LowerAlnum(identity[|identity| - 1])
    ensures DockerPart(lower, identity) == identity
  {
    var lo, hi := TrimMeans(identity, IsSpace);
    assert TrimSpace(identity) == identity;
    CollapsedSame(identity, DockerChar);
    var lo', hi' := TrimMeans(identity, HyphenDotUnderscore);
  }

  /** The first n characters end in a letter or digit, and the rest up to the limit has none. */
  ghost predicate CutAt(s: string, n: nat, room: nat) {
    0 < n <= room <= |s| && LowerAlnum(s[n - 1]) && NoneOf(s[n..room], LowerAlnum)
  }

  /** A long safe identity is cut to the room that is left, and trimmed there. */
  lemma DockerNameCuts(lower: string -> string, hash: string -> string, prefix: string, identity: string)
    requires |prefix| + |hash(identity)| < 126 && 126 < |prefix| + |identity| + |hash(identity)| && lower(identity) == identity
    requires All(identity, DockerChar) && LowerAlnum(identity[0]) && LowerAlnum(identity[|identity| - 1])
    ensures exists n: nat ::
      && CutAt(identity, n, 126 - |prefix| - |hash(identity)|)
      && DockerIdentityName(lower, hash, prefix, identity) == prefix + "-" + identity[..n] + "-" + hash(identity)
  {
    var room := 126 - |prefix| - |hash(identity)|;
    DockerPartKeeps(lower, identity);
    ShortenedMeans(identity, room, HyphenDotUnderscore);
    var t := Shortened(identity, room, HyphenDotUnderscore);
    assert t == identity[..|t|] && CutAt(identity, |t|, room);
  }

  /** An identity without a letter or digit is called unknown. */
  lemma DockerNameUnknown(lower: string -> string, hash: string -> string, prefix: string, identity: string)
    requires |prefix| + |hash(identity)| <= 126 && NoneOf(lower(TrimSpace(identity)), DockerChar)
    ensures DockerIdentityName(lower, hash, prefix, identity) == prefix + "-unknown-" + hash(identity)
  {
    DockerPartUnknown(lower, identity);
  }

  lemma DockerPartUnknown(lower: string -> string, identity: string)
    requires NoneOf(lower(TrimSpace(identity)), DockerChar)
    ensures DockerPart(lower, identity) == ""
  {
    var s := lower(TrimSpace(identity));
    if s != [] {
      CollapsedRun([], s, [], DockerChar);
      assert [] + s + [] == s && [] + "-" + [] == "-";
    }
    var lo, hi := TrimMeans(Collapsed(s, DockerChar), HyphenDotUnderscore);
  }
}
