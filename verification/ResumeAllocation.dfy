/**
 The collision-free allocation of resume filenames: boundedResumeFilename, UniqueResumeFilename and
 PrepareResumeAttachmentFilename (server/agent/resume_contract.go), the batch that shares one `used`
 map (server/service/task_resume.go) and the duplicate check (server/agent/config_builder.go).
 */
module ResumeAllocation {
  import opened Prelude
  import opened GoText
  import opened ResumeNames

  // ----- bounded names -----

  /** filepath.Ext */
  function Ext(p: string): (r: string)
    ensures |r| <= |p| && r == p[|p| - |r|..]
  {
    var i := LastIndexOf(p, '.');
    if i > LastIndexOf(p, '/') then p[i..] else ""
  }

  function Stem(p: string): string { p[..|p| - |Ext(p)|] }

  function SuffixText(n: nat): string { if n > 1 then "_" + Decimal(n) else "" }

  function ExtPart(name: string, bytes: int, units: int): string {
    var ext := Truncated(Ext(name), MAX_BYTES - bytes - 1, MAX_UNITS - units - 1);
    if ext == "." then "" else ext
  }

  function FirstFit(a: string, b: string, bytes: int, units: int): string {
    var t := Truncated(a, bytes, units);
    if t == [] then Truncated(b, bytes, units) else t
  }

  lemma FirstFitFits(a: string, b: string, bytes: int, units: int)
    ensures var t := FirstFit(a, b, bytes, units); t == [] || Fits(t, bytes, units)
  {
    TruncatedMeans(a, bytes, units);
    TruncatedMeans(b, bytes, units);
  }

  function HeadOf(stem: string, ext: string, bytes: nat, units: nat): string {
    FirstFit(stem, ATTACHMENT, MAX_BYTES - (bytes + Bytes(ext)), MAX_UNITS - (units + Units(ext)))
  }

  /** What precedes a suffix of the given size. */
  function Head(name: string, bytes: nat, units: nat): string { HeadOf(Stem(name), ExtPart(name, bytes, units), bytes, units) }

  /** boundedResumeFilename */
  function Bounded(name: string, suffix: nat): string {
    var s := SuffixText(suffix);
    Head(name, Bytes(s), Units(s)) + s + ExtPart(name, Bytes(s), Units(s))
  }

  lemma {:induction false} DigitsSize(s: string, n: nat)
    requires Digits(s) && n <= |s|
    ensures BytesTo(s, n) == UnitsTo(s, n) == n
  {
    if n > 0 { DigitsSize(s, n - 1); }
  }

  lemma SuffixSize(n: nat)
    ensures var s := SuffixText(n); Bytes(s) == Units(s) == |s| && |s| == if n > 1 then 1 + |Decimal(n)| else 0
  {
    if n > 1 {
      DecimalValue(n);
      DigitsSize(Decimal(n), |Decimal(n)|);
      SizeAppend("_", Decimal(n));
      assert BytesTo("_", 0) == 0 && UnitsTo("_", 0) == 0;
      assert BytesTo("_", 1) == 1 && UnitsTo("_", 1) == 1;
    }
  }

  lemma ExtPartFits(name: string, k: nat)
    ensures var e := ExtPart(name, k, k); e == [] || Fits(e, MAX_BYTES - k - 1, MAX_UNITS - k - 1)
  {
    TruncatedMeans(Ext(name), MAX_BYTES - k - 1, MAX_UNITS - k - 1);
  }

  lemma BoundedParts(name: string, n: nat)
    ensures var k := |SuffixText(n)|; Bounded(name, n) == Head(name, k, k) + SuffixText(n) + ExtPart(name, k, k)
  {
    SuffixSize(n);
  }

  lemma PartsFit(h: string, s: string, e: string)
    requires Bytes(s) == Units(s) <= MAX_BYTES
    requires e == [] || Fits(e, MAX_BYTES - Bytes(s) - 1, MAX_UNITS - Units(s) - 1)
    requires h == [] || Fits(h, MAX_BYTES - (Bytes(s) + Bytes(e)), MAX_UNITS - (Units(s) + Units(e)))
    ensures Fits(h + s + e, MAX_BYTES, MAX_UNITS)
  {
    SizeAppend(h, s);
    SizeAppend(h + s, e);
  }

  lemma HeadOfFits(stem: string, ext: string, k: nat)
    ensures var h := HeadOf(stem, ext, k, k);
      h == [] || Fits(h, MAX_BYTES - (k + Bytes(ext)), MAX_UNITS - (k + Units(ext)))
  {
    FirstFitFits(stem, ATTACHMENT, MAX_BYTES - (k + Bytes(ext)), MAX_UNITS - (k + Units(ext)));
  }

  lemma HeadOfWhole(stem: string, ext: string, k: nat)
    requires stem != [] && Fits(stem, MAX_BYTES - (k + Bytes(ext)), MAX_UNITS - (k + Units(ext)))
    ensures HeadOf(stem, ext, k, k) == stem
  {
  }

  /** A bounded name is within both limits as long as its suffix is. */
  lemma BoundedFits(name: string, n: nat)
    requires |SuffixText(n)| <= MAX_BYTES
    ensures Fits(Bounded(name, n), MAX_BYTES, MAX_UNITS)
  {
    SuffixSize(n);
    var k := |SuffixText(n)|;
    var h, s, e := Head(name, k, k), SuffixText(n), ExtPart(name, k, k);
    assert e == [] || Fits(e, MAX_BYTES - k - 1, MAX_UNITS - k - 1) by { ExtPartFits(name, k); }
    assert h == [] || Fits(h, MAX_BYTES - (k + Bytes(e)), MAX_UNITS - (k + Units(e))) by { HeadOfFits(Stem(name), e, k); }
    PartsFit(h, s, e);
    BoundedParts(name, n);
  }

  // ----- suffixes of one width -----

  function Spliced(a: string, digits: string, b: string): string { a + digits + b }

  /** The key keeps numbers of one width apart. */
  ghost predicate KeepsDigits(key: string -> string) {
    forall a, d, e, b {:trigger Spliced(a, d, b), Spliced(a, e, b)} ::
      Digits(d) && Digits(e) && |d| == |e| && key(Spliced(a, d, b)) == key(Spliced(a, e, b)) ==> d == e
  }

  lemma Splice(h: string, d: string, e: string)
    ensures h + ("_" + d) + e == Spliced(h + "_", d, e)
  {
  }

  lemma BoundedSpliced(name: string, n: nat, k: nat)
    requires n > 1 && k == 1 + |Decimal(n)|
    ensures Bounded(name, n) == Spliced(Head(name, k, k) + "_", Decimal(n), ExtPart(name, k, k))
  {
    BoundedParts(name, n);
    Splice(Head(name, k, k), Decimal(n), ExtPart(name, k, k));
  }

  lemma SplicedApart(key: string -> string, a: string, d: string, e: string, b: string)
    requires KeepsDigits(key) && Digits(d) && Digits(e) && |d| == |e| && d != e
    ensures key(Spliced(a, d, b)) != key(Spliced(a, e, b))
  {
  }

  lemma SameWidthApart(key: string -> string, name: string, m: nat, n: nat)
    requires KeepsDigits(key) && 1 < m && 1 < n && m != n && |Decimal(m)| == |Decimal(n)|
    ensures key(Bounded(name, m)) != key(Bounded(name, n))
  {
    var k := 1 + |Decimal(m)|;
    DecimalsApart(m, n);
    BoundedSpliced(name, m, k);
    BoundedSpliced(name, n, k);
    SplicedApart(key, Head(name, k, k) + "_", Decimal(m), Decimal(n), ExtPart(name, k, k));
  }

  lemma DecimalsApart(m: nat, n: nat)
    requires m != n
    ensures Decimal(m) != Decimal(n) && Digits(Decimal(m)) && Digits(Decimal(n))
  {
    DecimalValue(m);
    DecimalValue(n);
  }

  /** Numbers of one width that are all taken need as many keys. */
  lemma {:induction false} Pigeonhole(key: string -> string, name: string, w: nat, hi: nat, taken: set<string>)
    requires KeepsDigits(key) && w > 1 && Pow10(w - 1) <= hi <= Pow10(w)
    requires forall n :: Pow10(w - 1) <= n < hi ==> key(Bounded(name, n)) in taken
    ensures hi - Pow10(w - 1) <= |taken|
    decreases hi
  {
    if hi > Pow10(w - 1) {
      var last := hi - 1;
      var k := key(Bounded(name, last));
      assert k in taken;
      forall n | Pow10(w - 1) <= n < last ensures key(Bounded(name, n)) in taken - {k} {
        assert Pow10(w - 1) > 1;
        DecimalWidth(n, w);
        DecimalWidth(last, w);
        SameWidthApart(key, name, n, last);
      }
      Pigeonhole(key, name, w, last, taken - {k});
    }
  }

  lemma {:induction false} WideEnough(n: nat)
    ensures n < Pow10(n)
  {
    if n > 0 { WideEnough(n - 1); }
  }

  /** Go's map gives 0 for a key it does not have. */
  ghost predicate Unused(used: map<string, int>, k: string) { k !in used || used[k] == 0 }

  /** The keys of the candidates for `name`, by suffix. */
  function CandidateKey(key: string -> string, name: string): nat -> string { (n: nat) => key(Bounded(name, n)) }

  /** Some suffix of each width that outnumbers the map is free. */
  lemma SomeSuffixFree(key: string -> string, name: string, used: map<string, int>, w: nat)
    requires KeepsDigits(key) && w > 1 && |used| < 9 * Pow10(w - 1)
    ensures exists n :: 1 <= n < Pow10(w) && Unused(used, CandidateKey(key, name)(n))
  {
    var keys := CandidateKey(key, name);
    if forall n :: 1 <= n < Pow10(w) ==> !Unused(used, keys(n)) {
      forall n | Pow10(w - 1) <= n < Pow10(w) ensures key(Bounded(name, n)) in used.Keys {
        assert !Unused(used, keys(n));
      }
      assert |used.Keys| == |used|;
      Pigeonhole(key, name, w, Pow10(w), used.Keys);
    }
  }

  /** The search loop of UniqueResumeFilename. */
  method LeastUnused(keys: nat -> string, used: map<string, int>, ghost bound: nat) returns (suffix: nat)
    requires exists n :: 1 <= n < bound && Unused(used, keys(n))
    ensures 1 <= suffix < bound && Unused(used, keys(suffix))
    ensures forall n :: 1 <= n < suffix ==> !Unused(used, keys(n))
  {
    suffix := 1;
    while keys(suffix) in used && used[keys(suffix)] != 0
      invariant 1 <= suffix < bound
      invariant forall n :: 1 <= n < suffix ==> !Unused(used, keys(n))
      decreases bound - suffix
    {
      suffix := suffix + 1;
    }
  }

  /** A width with more numbers than the map has keys. */
  ghost function Width(size: nat): nat { if size < 9 * Pow10(252) then 253 else size + 2 }

  /**
   UniqueResumeFilename as a search: it terminates for every map, and finds the least free suffix.
   With fewer keys than 253-digit numbers the name is within both limits.
   */
  method FindUnique(key: string -> string, name: string, used: map<string, int>) returns (candidate: string, suffix: nat)
    requires KeepsDigits(key)
    ensures suffix >= 1 && candidate == Bounded(name, suffix) && Unused(used, key(candidate))
    ensures forall n :: 1 <= n < suffix ==> !Unused(used, CandidateKey(key, name)(n))
    ensures |used| < 9 * Pow10(252) ==> |SuffixText(suffix)| < MAX_BYTES && Fits(candidate, MAX_BYTES, MAX_UNITS)
  {
    ghost var w := Width(|used|);
    WideEnough(|used| + 1);
    SomeSuffixFree(key, name, used, w);
    suffix := LeastUnused(CandidateKey(key, name), used, Pow10(w));
    candidate := Bounded(name, suffix);
    if |used| < 9 * Pow10(252) { ShortSuffix(name, suffix); }
  }

  lemma ShortSuffix(name: string, n: nat)
    requires n < Pow10(253)
    ensures |SuffixText(n)| < MAX_BYTES && Fits(Bounded(name, n), MAX_BYTES, MAX_UNITS)
  {
    DecimalShort(n, 253);
    SuffixSize(n);
    BoundedFits(name, n);
  }

  // ----- which candidates are canonical -----

  lemma StemNonempty(name: string)
    requires Sanitized(name)
    ensures Stem(name) != [] && Stem(name)[0] == name[0]
    ensures Ext(name) == [] ==> Free(name, '.')
    ensures Ext(name) != [] ==> |Ext(name)| >= 2 && Ext(name)[0] == '.' && Free(Ext(name)[1..], '.')
    ensures CleanChars(Stem(name)) && CleanChars(Ext(name))
  {
    assert Free(name, '/');
    assert LastIndexOf(name, '/') == -1;
  }

  lemma FirstFitMeans(a: string, b: string, bytes: int, units: int)
    requires a != [] && CleanChars(a) && !Edge(a[0]) && b != [] && CleanChars(b) && !Edge(b[0])
    requires FitsTo(b, 1, bytes, units)
    ensures var h := FirstFit(a, b, bytes, units);
      h != [] && CleanChars(h) && !Edge(h[0]) && (Free(a, '.') && Free(b, '.') ==> Free(h, '.'))
  {
    TruncatedMeans(a, bytes, units);
    TruncatedMeans(b, bytes, units);
  }

  lemma HeadMeans(name: string, k: nat)
    requires Sanitized(name) && k < MAX_BYTES
    ensures var h := Head(name, k, k); h != [] && CleanChars(h) && !Edge(h[0])
    ensures Free(name, '.') ==> Free(Head(name, k, k), '.')
  {
    StemNonempty(name);
    ExtPartFits(name, k);
    AttachmentIsClean();
    var e := ExtPart(name, k, k);
    assert FitsTo(ATTACHMENT, 1, 1, 1) by { assert BytesTo(ATTACHMENT, 0) == 0 && UnitsTo(ATTACHMENT, 0) == 0; }
    FirstFitMeans(Stem(name), ATTACHMENT, MAX_BYTES - (k + Bytes(e)), MAX_UNITS - (k + Units(e)));
  }

  lemma ExtMeans(name: string, k: nat)
    requires Sanitized(name) && k < MAX_BYTES
    ensures var e := ExtPart(name, k, k); CleanChars(e) && (e != [] ==> e[|e| - 1] != '.')
    ensures k == 0 && ExtPart(name, k, k) == [] ==> Free(name, '.')
  {
    StemNonempty(name);
    var ext := Ext(name);
    var t := Truncated(ext, MAX_BYTES - k - 1, MAX_UNITS - k - 1);
    TruncatedMeans(ext, MAX_BYTES - k - 1, MAX_UNITS - k - 1);
    if t != [] && t != "." { assert |t| >= 2 && t[|t| - 1] == ext[1..][|t| - 2]; }
    if k == 0 && ext != [] { TwoRunesKept(ext); }
  }

  lemma TwoRunesKept(ext: string)
    requires |ext| >= 2
    ensures |Truncated(ext, 254, 254)| >= 2
  {
    TruncatedMeans(ext, 254, 254);
    assert FitsTo(ext, 2, 254, 254) by { assert BytesTo(ext, 1) <= 4 && UnitsTo(ext, 1) <= 2; }
  }

  /** A candidate made from a sanitized name is canonical unless truncation left "_" at its end or it is reserved. */
  lemma CandidateCanonical(key: string -> string, name: string, n: nat)
    requires Sanitized(name) && |SuffixText(n)| < MAX_BYTES
    ensures var c := Bounded(name, n);
      c != [] && (Canonical(key, c) <==> c[|c| - 1] != '_' && !Reserved(key, c))
  {
    SuffixSize(n);
    var s := SuffixText(n);
    var h, e := Head(name, |s|, |s|), ExtPart(name, |s|, |s|);
    var c := Bounded(name, n);
    assert c == h + s + e;
    HeadMeans(name, |s|);
    ExtMeans(name, |s|);
    BoundedFits(name, n);
    CanonicalMeans(key, c);
    SuffixClean(n);
    CleanAppend(h, s);
    CleanAppend(h + s, e);
    assert c[0] == h[0];
    LastOf(h, s, e);
    assert c[|c| - 1] != '.' && c[|c| - 1] != ' ';
  }

  lemma SuffixClean(n: nat)
    ensures CleanChars(SuffixText(n))
    ensures n > 1 ==> SuffixText(n) != [] && Digit(SuffixText(n)[|SuffixText(n)| - 1])
  {
    if n > 1 {
      DecimalValue(n);
      var d := Decimal(n);
      forall i | 0 <= i < |SuffixText(n)| ensures !Unsafe(SuffixText(n)[i]) {
        if i > 0 { assert Digit(d[i - 1]); }
      }
    }
  }

  lemma CleanAppend(a: string, b: string)
    requires CleanChars(a) && CleanChars(b)
    ensures CleanChars(a + b)
  {
  }

  lemma LastOf(h: string, s: string, e: string)
    requires h != []
    ensures var c := h + s + e;
      c[|c| - 1] == if e != [] then e[|e| - 1] else if s != [] then s[|s| - 1] else h[|h| - 1]
  {
  }

  lemma RoomForParts(name: string, k: nat)
    requires Sanitized(name) && Fits(name, MAX_BYTES - k, MAX_UNITS - k)
    ensures Fits(Ext(name), MAX_BYTES - k - 1, MAX_UNITS - k - 1) && Ext(name) != "."
    ensures Stem(name) != []
    ensures Fits(Stem(name), MAX_BYTES - (k + Bytes(Ext(name))), MAX_UNITS - (k + Units(Ext(name))))
  {
    StemNonempty(name);
    assert name == Stem(name) + Ext(name);
    SizeAppend(Stem(name), Ext(name));
    SizeBounds(Stem(name), |Stem(name)|);
  }

  /** Nothing is cut from a name that leaves room for the suffix. */
  lemma RoomKeepsName(name: string, n: nat)
    requires Sanitized(name) && Fits(name, MAX_BYTES - |SuffixText(n)|, MAX_UNITS - |SuffixText(n)|)
    ensures Bounded(name, n) == Stem(name) + SuffixText(n) + Ext(name)
  {
    var k := |SuffixText(n)|;
    RoomForParts(name, k);
    ExtKept(name, k);
    HeadOfWhole(Stem(name), Ext(name), k);
    BoundedParts(name, n);
  }

  lemma ExtKept(name: string, k: nat)
    requires Fits(Ext(name), MAX_BYTES - k - 1, MAX_UNITS - k - 1) && Ext(name) != "."
    ensures ExtPart(name, k, k) == Ext(name)
  {
  }

  /** A canonical name is its own first candidate. */
  lemma FirstCandidate(key: string -> string, name: string)
    requires Canonical(key, name)
    ensures Bounded(name, 1) == name
  {
    CanonicalMeans(key, name);
    RoomKeepsName(name, 1);
    Rejoined(name);
  }

  lemma Rejoined(name: string)
    ensures Stem(name) + SuffixText(1) + Ext(name) == name
  {
  }

  /** A long name can be cut right after a "_", and is then rejected although every character was acceptable. */
  lemma CutAtUnderscore(key: string -> string, p: string, q: string)
    requires Sanitized(p + "_" + q) && Free(p + "_" + q, '.') && q != [] && Bytes(p) == 254
    ensures !Canonical(key, Bounded(p + "_" + q, 1))
  {
    var name := p + "_" + q;
    CutTo(name, |p| + 1, p);
    assert Ext(name) == [] && Stem(name) == name;
    assert Bounded(name, 1) == name[..|p| + 1] + "" + "";
    CandidateCanonical(key, name, 1);
  }

  lemma CutTo(name: string, n: nat, p: string)
    requires n == |p| + 1 < |name| && name[..|p|] == p && name[|p|] == '_' && Bytes(p) == 254
    ensures Truncated(name, MAX_BYTES, MAX_UNITS) == name[..n]
  {
    SizeSame(name, p, |p|);
    SizeBounds(name, n);
    assert FitsTo(name, n, MAX_BYTES, MAX_UNITS);
    assert BytesTo(name, n + 1) > MAX_BYTES;
    LongestMeans(name, |name|, MAX_BYTES, MAX_UNITS);
    var r := Longest(name, |name|, MAX_BYTES, MAX_UNITS);
    if r > n { SizeGrows(name, n + 1, r); }
  }

  // ----- the shared map -----

  datatype Rejection = NotPortable | ReservedName | NotCanonical

  /** The checks on the original name. */
  predicate PortableOriginal(raw: string) {
    Base(raw) != "" && TrimSpace(Base(raw)) == Base(raw) && TrimRight(Base(raw), DotOrSpace) == Base(raw)
  }

  /** candidate is the least free candidate for name. */
  ghost predicate Allocated(key: string -> string, used: map<string, int>, name: string, candidate: string) {
    exists n: nat :: AllocatedAs(key, used, name, candidate, n)
  }

  ghost predicate AllocatedAs(key: string -> string, used: map<string, int>, name: string, candidate: string, n: nat) {
    && n >= 1 && candidate == Bounded(name, n) && Unused(used, key(candidate))
    && (forall m :: 1 <= m < n ==> !Unused(used, CandidateKey(key, name)(m)))
    && (|used| < 9 * Pow10(252) ==> |SuffixText(n)| < MAX_BYTES)
  }

  class NameTable {
    const key: string -> string
    var used: map<string, int>

    constructor (key: string -> string)
      ensures this.key == key && used == map[]
    {
      this.key, used := key, map[];
    }

    method UniqueResumeFilename(name: string) returns (candidate: string)
      requires KeepsDigits(key)
      modifies this`used
      ensures Allocated(key, old(used), name, candidate)
      ensures used == old(used)[key(candidate) := 1]
    {
      var suffix;
      candidate, suffix := FindUnique(key, name, used);
      assert AllocatedAs(key, used, name, candidate, suffix);
      used := used[key(candidate) := 1];
    }

    /** A name is returned only if canonical and new; a rejected candidate still takes its key. */
    method PrepareResumeAttachmentFilename(raw: string) returns (r: Result<string, Rejection>)
      requires KeepsDigits(key)
      modifies this`used
      ensures r == Err(NotPortable) <==> !PortableOriginal(raw)
      ensures r == Err(ReservedName) <==> PortableOriginal(raw) && Reserved(key, Sanitize(Base(raw)))
      ensures r == Err(NotPortable) || r == Err(ReservedName) ==> used == old(used)
      ensures r.Ok? ==>
        && Canonical(key, r.value)
        && Allocated(key, old(used), Sanitize(Base(raw)), r.value)
        && used == old(used)[key(r.value) := 1]
      ensures r == Err(NotCanonical) && |old(used)| < 9 * Pow10(252) ==>
        exists c :: RejectedCandidate(key, old(used), Sanitize(Base(raw)), c) && used == old(used)[key(c) := 1]
      ensures Canonical(key, raw) && Unused(old(used), key(raw)) ==> r == Ok(raw)
    {
      if Canonical(key, raw) { CanonicalUnchanged(key, raw); }
      var base := Base(raw);
      if base == "" || TrimSpace(base) != base || TrimRight(base, DotOrSpace) != base { return Err(NotPortable); }
      var name := Sanitize(base);
      if Reserved(key, name) { return Err(ReservedName); }
      ghost var before := used;
      var candidate := UniqueResumeFilename(name);
      FirstIfFree(key, before, name, candidate);
      if !Canonical(key, candidate) {
        if |before| < 9 * Pow10(252) {
          SanitizeMeans(base);
          RejectedMeans(key, before, name, candidate);
        }
        return Err(NotCanonical);
      }
      return Ok(candidate);
    }

    /** The parts of the contract that a batch needs. */
    method PrepareNext(raw: string) returns (prepared: Result<string, Rejection>)
      requires KeepsDigits(key)
      modifies this`used
      ensures prepared.Ok? ==> Extends(CanonicalFor(key), key, old(used), used, prepared.value)
      ensures CanonicalFor(key)(raw) && Unused(old(used), key(raw)) ==> prepared == Ok(raw)
    {
      prepared := PrepareResumeAttachmentFilename(raw);
    }

    /** The producer's loop over the uploaded files; the first rejection ends it. */
    method PrepareAll(raws: seq<string>) returns (r: Result<seq<string>, Rejection>)
      requires KeepsDigits(key) && used == map[]
      modifies this`used
      ensures r.Ok? ==> |r.value| == |raws| && BatchPortable(key, r.value)
      ensures BatchPortable(key, raws) ==> r == Ok(raws)
    {
      var names: seq<string> := [];
      ghost var valid := CanonicalFor(key);
      NoProgress(valid, key, raws);
      while |names| < |raws|
        invariant |names| <= |raws| && Progress(valid, key, used, raws, names)
        decreases |raws| - |names|
      {
        ghost var before := used;
        var prepared := PrepareNext(raws[|names|]);
        NewKeyUnused(valid, key, before, raws, names);
        if prepared.Err? { return Err(prepared.error); }
        ProgressSnoc(valid, key, before, used, raws, names, prepared.value);
        names := names + [prepared.value];
      }
      ProgressDone(valid, key, used, raws, names);
      return Ok(names);
    }
  }

  /** A new valid name took its key. */
  ghost predicate Extends(valid: string -> bool, key: string -> string, before: map<string, int>, used: map<string, int>, name: string) {
    valid(name) && Unused(before, key(name)) && used == before[key(name) := 1]
  }

  /** The state of the producer's loop. */
  ghost predicate Progress(valid: string -> bool, key: string -> string, used: map<string, int>, raws: seq<string>, names: seq<string>) {
    && |names| <= |raws| && Batch(valid, key, names) && Records(key, used, names)
    && (Batch(valid, key, raws) ==> names == raws[..|names|])
  }

  lemma NoProgress(valid: string -> bool, key: string -> string, raws: seq<string>)
    ensures Progress(valid, key, map[], raws, [])
  {
  }

  lemma ProgressDone(valid: string -> bool, key: string -> string, used: map<string, int>, raws: seq<string>, names: seq<string>)
    requires Progress(valid, key, used, raws, names) && |names| == |raws|
    ensures Batch(valid, key, names) && (Batch(valid, key, raws) ==> names == raws)
  {
  }

  lemma ProgressSnoc(
    valid: string -> bool, key: string -> string, before: map<string, int>, used: map<string, int>,
    raws: seq<string>, names: seq<string>, name: string)
    requires Progress(valid, key, before, raws, names) && |names| < |raws| && Extends(valid, key, before, used, name)
    requires Batch(valid, key, raws) ==> name == raws[|names|]
    ensures Progress(valid, key, used, raws, names + [name])
  {
    RecordsSnoc(valid, key, before, names, name);
  }

  /** Rejected after allocation: truncation left "_" at the end, or the candidate is reserved. */
  ghost predicate RejectedCandidate(key: string -> string, used: map<string, int>, name: string, c: string) {
    Allocated(key, used, name, c) && c != [] && (c[|c| - 1] == '_' || Reserved(key, c))
  }

  lemma RejectedMeans(key: string -> string, used: map<string, int>, name: string, c: string)
    requires Sanitized(name) && Allocated(key, used, name, c) && !Canonical(key, c) && |used| < 9 * Pow10(252)
    ensures RejectedCandidate(key, used, name, c)
  {
    var n: nat :| AllocatedAs(key, used, name, c, n);
    CandidateCanonical(key, name, n);
  }

  lemma CanonicalUnchanged(key: string -> string, raw: string)
    requires Canonical(key, raw)
    ensures Base(raw) == raw && Sanitize(raw) == raw && PortableOriginal(raw) && Bounded(raw, 1) == raw
  {
    FirstCandidate(key, raw);
  }

  lemma FirstIfFree(key: string -> string, used: map<string, int>, name: string, candidate: string)
    requires Allocated(key, used, name, candidate)
    ensures Unused(used, key(Bounded(name, 1))) ==> candidate == Bounded(name, 1)
  {
    var n: nat :| AllocatedAs(key, used, name, candidate, n);
    assert n > 1 ==> !Unused(used, CandidateKey(key, name)(1));
  }

  // ----- the batch and its consumer -----

  function CanonicalFor(key: string -> string): string -> bool { (name: string) => Canonical(key, name) }

  /** Every name is valid and no two have the same key. */
  ghost predicate Batch(valid: string -> bool, key: string -> string, names: seq<string>) {
    && (forall i :: 0 <= i < |names| ==> valid(names[i]))
    && (forall i, j :: 0 <= i < j < |names| ==> key(names[i]) != key(names[j]))
  }

  ghost predicate BatchPortable(key: string -> string, names: seq<string>) { Batch(CanonicalFor(key), key, names) }

  /** The map holds exactly the keys of the names handed out. */
  ghost predicate Records(key: string -> string, used: map<string, int>, names: seq<string>) {
    && (forall i :: 0 <= i < |names| ==> !Unused(used, key(names[i])))
    && (forall k :: !Unused(used, k) ==> exists i :: 0 <= i < |names| && key(names[i]) == k)
  }

  lemma RecordsSnoc(valid: string -> bool, key: string -> string, used: map<string, int>, names: seq<string>, name: string)
    requires Records(key, used, names) && Batch(valid, key, names) && valid(name) && Unused(used, key(name))
    ensures Records(key, used[key(name) := 1], names + [name]) && Batch(valid, key, names + [name])
  {
    var next, used' := names + [name], used[key(name) := 1];
    assert next[|names|] == name;
    assert forall i :: 0 <= i < |names| ==> next[i] == names[i];
    forall k | !Unused(used', k) ensures exists i :: 0 <= i < |next| && key(next[i]) == k {
      if k == key(name) {
        assert key(next[|names|]) == k;
      } else {
        assert !Unused(used, k);
        var i :| 0 <= i < |names| && key(names[i]) == k;
        assert key(next[i]) == k;
      }
    }
  }

  lemma NewKeyUnused(valid: string -> bool, key: string -> string, used: map<string, int>, raws: seq<string>, names: seq<string>)
    requires Progress(valid, key, used, raws, names) && |names| < |raws|
    ensures Batch(valid, key, raws) ==> valid(raws[|names|]) && Unused(used, key(raws[|names|]))
  {
  }

  /** The consumer's canonical and duplicate checks: it accepts exactly the portable batches. */
  method AcceptAttachments(key: string -> string, names: seq<string>) returns (ok: bool)
    ensures ok <==> BatchPortable(key, names)
  {
    ok := AcceptDistinct(CanonicalFor(key), key, names);
  }

  /** Its loop with the `seenNames` map. */
  method AcceptDistinct(valid: string -> bool, key: string -> string, names: seq<string>) returns (ok: bool)
    ensures ok <==> Batch(valid, key, names)
  {
    var seen: set<string> := {};
    for i := 0 to |names|
      invariant Batch(valid, key, names[..i])
      invariant forall k :: k in seen <==> exists j :: 0 <= j < i && key(names[j]) == k
    {
      if !valid(names[i]) || key(names[i]) in seen { return false; }
      seen := seen + {key(names[i])};
    }
    assert names[..|names|] == names;
    return true;
  }
}
