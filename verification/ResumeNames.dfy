/**
 Portable resume filenames (server/agent/resume_contract.go), their producer
 (server/service/task_resume.go) and consumer (server/agent/config_builder.go).

 `key` stands for PortableFilenameKey: case folding followed by NFC normalisation.
 */
module ResumeNames {
  import opened Prelude
  import opened GoText

  const MAX_BYTES := 255
  const MAX_UNITS := 255
  const ATTACHMENT: string := "attachment"

  // ----- sizes -----

  function Utf16Width(c: char): nat { if c > '\U{FFFF}' then 2 else 1 }

  function UnitsTo(s: string, n: nat): nat
    requires n <= |s|
  {
    if n == 0 then 0 else UnitsTo(s, n - 1) + Utf16Width(s[n - 1])
  }

  function Units(s: string): nat { UnitsTo(s, |s|) }

  predicate FitsTo(s: string, n: nat, bytes: int, units: int)
    requires n <= |s|
  {
    BytesTo(s, n) <= bytes && UnitsTo(s, n) <= units
  }

  predicate Fits(s: string, bytes: int, units: int) { FitsTo(s, |s|, bytes, units) }

  /** Sizes depend on the characters counted only. */
  lemma {:induction false} SizeSame(s: string, t: string, n: nat)
    requires n <= |s| && n <= |t| && forall i :: 0 <= i < n ==> s[i] == t[i]
    ensures BytesTo(s, n) == BytesTo(t, n) && UnitsTo(s, n) == UnitsTo(t, n)
  {
    if n > 0 { SizeSame(s, t, n - 1); }
  }

  lemma {:induction false} SizeShift(a: string, b: string, n: nat)
    requires n <= |b|
    ensures BytesTo(a + b, |a| + n) == Bytes(a) + BytesTo(b, n) && UnitsTo(a + b, |a| + n) == Units(a) + UnitsTo(b, n)
  {
    if n == 0 { SizeSame(a + b, a, |a|); } else { SizeShift(a, b, n - 1); }
  }

  lemma SizeAppend(a: string, b: string)
    ensures Bytes(a + b) == Bytes(a) + Bytes(b) && Units(a + b) == Units(a) + Units(b)
  {
    SizeShift(a, b, |b|);
  }

  lemma {:induction false} SizeGrows(s: string, m: nat, n: nat)
    requires m <= n <= |s|
    ensures BytesTo(s, m) <= BytesTo(s, n) && UnitsTo(s, m) <= UnitsTo(s, n)
  {
    if m < n { SizeGrows(s, m, n - 1); }
  }

  lemma {:induction false} SizeBounds(s: string, n: nat)
    requires n <= |s|
    ensures n <= UnitsTo(s, n) <= BytesTo(s, n)
  {
    if n > 0 { SizeBounds(s, n - 1); }
  }

  /** The widths by code point: UTF-8 has one to four bytes, UTF-16 two units past the basic plane. */
  lemma Widths(c: char)
    ensures Utf8Width(c) == 1 <==> c as int <= 0x7F
    ensures Utf8Width(c) == 2 <==> 0x80 <= c as int <= 0x7FF
    ensures Utf8Width(c) == 3 <==> 0x800 <= c as int <= 0xFFFF
    ensures Utf8Width(c) == 4 <==> 0x10000 <= c as int
    ensures Utf16Width(c) == 2 <==> 0x10000 <= c as int
    ensures Utf16Width(c) == 1 <==> c as int <= 0xFFFF
  {
  }

  // ----- truncation -----

  /** The length of the longest prefix of value[..n] within both limits; 0 when nothing fits. */
  function Longest(value: string, n: nat, bytes: int, units: int): (r: nat)
    requires n <= |value|
    ensures r <= n
  {
    if n == 0 || FitsTo(value, n, bytes, units) then n else Longest(value, n - 1, bytes, units)
  }

  function Truncated(value: string, bytes: int, units: int): string { value[..Longest(value, |value|, bytes, units)] }

  lemma {:induction false} LongestMeans(value: string, n: nat, bytes: int, units: int)
    requires n <= |value|
    ensures var r := Longest(value, n, bytes, units);
      && (r == 0 || FitsTo(value, r, bytes, units))
      && (forall m :: r < m <= n ==> !FitsTo(value, m, bytes, units))
  {
    if n > 0 && !FitsTo(value, n, bytes, units) { LongestMeans(value, n - 1, bytes, units); }
  }

  lemma TruncatedMeans(value: string, bytes: int, units: int)
    ensures var t := Truncated(value, bytes, units);
      && |t| <= |value| && t == value[..|t|]
      && (t == [] || Fits(t, bytes, units))
      && (forall m :: |t| < m <= |value| ==> !FitsTo(value, m, bytes, units))
  {
    LongestMeans(value, |value|, bytes, units);
    var t := Truncated(value, bytes, units);
    SizeSame(value, t, |t|);
  }

  /** truncatePortableFilenamePart: stopping at the first rune that does not fit gives the longest prefix. */
  method TruncatePortableFilenamePart(value: string, bytes: int, units: int) returns (r: string)
    ensures r == Truncated(value, bytes, units)
  {
    ghost var longest := Longest(value, |value|, bytes, units);
    LongestMeans(value, |value|, bytes, units);
    if bytes <= 0 || units <= 0 {
      SizeBounds(value, longest);
      return "";
    }
    r := "";
    var size, used := 0, 0;
    for i := 0 to |value|
      invariant r == value[..i] && size == BytesTo(value, i) && used == UnitsTo(value, i)
      invariant i <= longest
    {
      if size + Utf8Width(value[i]) > bytes || used + Utf16Width(value[i]) > units {
        if i < longest { SizeGrows(value, i + 1, longest); }
        return;
      }
      assert FitsTo(value, i + 1, bytes, units);
      r, size, used := r + [value[i]], size + Utf8Width(value[i]), used + Utf16Width(value[i]);
    }
  }

  // ----- sanitizing -----

  predicate IsControl(c: char) { c <= '\U{001F}' || '\U{007F}' <= c <= '\U{009F}' }

  predicate Special(c: char) {
    c == '/' || c == '\\' || c == ':' || c == '*' || c == '?' || c == '"' || c == '<' || c == '>' || c == '|'
  }

  predicate Unsafe(c: char) { IsControl(c) || IsSpace(c) || Special(c) }

  predicate Edge(c: char) { c == '.' || c == '_' || c == ' ' }

  /** What may not stand in a portable name, by code point: controls, white space and " * / : < > ? \ |. */
  lemma UnsafePoints(c: char)
    ensures Unsafe(c) <==>
      || c as int <= 0x20 || 0x7F <= c as int <= 0xA0 || 0x2000 <= c as int <= 0x200A || 0x2028 <= c as int <= 0x2029
      || c as int in {0x22, 0x2A, 0x2F, 0x3A, 0x3C, 0x3E, 0x3F, 0x5C, 0x7C, 0x1680, 0x202F, 0x205F, 0x3000}
    ensures IsControl(c) <==> c as int < 0x20 || 0x7F <= c as int < 0xA0
    ensures Special(c) <==> c as int in {0x22, 0x2A, 0x2F, 0x3A, 0x3C, 0x3E, 0x3F, 0x5C, 0x7C}
    ensures Edge(c) <==> c as int in {0x20, 0x2E, 0x5F}
    ensures DotOrSpace(c) <==> c as int in {0x20, 0x2E}
  {
  }

  predicate DotOrSpace(c: char) { c == '.' || c == ' ' }

  predicate Slash(c: char) { c == '/' }

  /** filepath.Base */
  function Base(p: string): string {
    if p == [] then "."
    else
      var t := TrimRight(p, Slash);
      if t == [] then "/" else t[LastIndexOf(t, '/') + 1..]
  }

  /** The last component of a path, with any slashes after it dropped. */
  lemma BaseOf(dir: string, name: string, slashes: string)
    requires name != [] && Free(name, '/') && (dir == [] || dir[|dir| - 1] == '/')
    requires forall i :: 0 <= i < |slashes| ==> slashes[i] == '/'
    ensures Base(dir + name + slashes) == name
  {
    var p, head := dir + name + slashes, dir + name;
    var hi := TrimRightMeans(p, Slash);
    assert p[|head| - 1] == name[|name| - 1];
    assert forall i :: |head| <= i < |p| ==> p[i] == slashes[i - |head|];
    assert hi == |head| && p[..hi] == head;
    assert forall i :: |dir| <= i < |head| ==> head[i] == name[i - |dir|];
    assert dir != [] ==> head[|dir| - 1] == '/';
    assert LastIndexOf(head, '/') == |dir| - 1;
  }

  lemma BaseOfNothing(slashes: string)
    requires forall i :: 0 <= i < |slashes| ==> slashes[i] == '/'
    ensures Base(slashes) == if slashes == [] then "." else "/"
  {
    var hi := TrimRightMeans(slashes, Slash);
  }

  function Replaced(s: string): string { seq(|s|, i requires 0 <= i < |s| => if Unsafe(s[i]) then '_' else s[i]) }

  function Sanitize(raw: string): string {
    var base := Base(TrimSpace(raw));
    var name := if base == "." || base == "/" || base == "" then ATTACHMENT else base;
    var cleaned := Trim(Replaced(name), Edge);
    if cleaned == "" then ATTACHMENT else cleaned
  }

  predicate CleanChars(s: string) { forall i :: 0 <= i < |s| ==> !Unsafe(s[i]) }

  /** What sanitizing establishes. */
  predicate Sanitized(s: string) { s != [] && CleanChars(s) && !Edge(s[0]) && !Edge(s[|s| - 1]) }

  lemma SanitizeMeans(raw: string)
    ensures Sanitized(Sanitize(raw))
  {
    var base := Base(TrimSpace(raw));
    CleanTrim(if base == "." || base == "/" || base == "" then ATTACHMENT else base);
    AttachmentIsClean();
  }

  /**
   Sanitizing keeps the characters between the first and the last that may stand at an edge, with unsafe
   ones replaced; without any such character the name is the fallback.
   */
  lemma SanitizeCuts(raw: string) returns (lo: nat, hi: nat)
    ensures var name := Base(TrimSpace(raw));
      && lo <= hi <= |name|
      && (forall i :: 0 <= i < |name| && !(lo <= i < hi) ==> Edge(name[i]) || Unsafe(name[i]))
      && (lo == hi ==> Sanitize(raw) == "attachment")
      && (lo < hi ==> |Sanitize(raw)| == hi - lo)
      && (lo < hi ==> forall i :: lo <= i < hi ==> Sanitize(raw)[i - lo] == if Unsafe(name[i]) then '_' else name[i])
  {
    var name := Base(TrimSpace(raw));
    if name == "." || name == "/" || name == "" {
      lo, hi := 0, 0;
      FallbackIsFixed();
    } else {
      lo, hi := EdgesCut(name);
    }
  }

  lemma EdgesCut(name: string) returns (lo: nat, hi: nat)
    ensures lo <= hi <= |name| && |Trim(Replaced(name), Edge)| == hi - lo
    ensures forall i :: 0 <= i < |name| && !(lo <= i < hi) ==> Edge(name[i]) || Unsafe(name[i])
    ensures forall i :: lo <= i < hi ==> Trim(Replaced(name), Edge)[i - lo] == if Unsafe(name[i]) then '_' else name[i]
  {
    lo, hi := TrimMeans(Replaced(name), Edge);
    forall i | 0 <= i < |name| && !(lo <= i < hi) ensures Edge(name[i]) || Unsafe(name[i]) { assert Edge(Replaced(name)[i]); }
  }

  lemma FallbackIsFixed()
    ensures Trim(Replaced(ATTACHMENT), Edge) == ATTACHMENT
  {
    AttachmentIsClean();
    assert Replaced(ATTACHMENT) == ATTACHMENT;
    var lo, hi := TrimMeans(ATTACHMENT, Edge);
  }

  lemma AttachmentIsClean()
    ensures Sanitized(ATTACHMENT)
  {
  }

  lemma CleanTrim(name: string)
    ensures var cleaned := Trim(Replaced(name), Edge); cleaned != "" ==> Sanitized(cleaned)
  {
    var lo, hi := TrimMeans(Replaced(name), Edge);
  }

  lemma SanitizedBase(s: string)
    requires s != [] && Free(s, '/')
    ensures Base(s) == s
  {
  }

  /** Sanitizing fixes exactly the names it produces. */
  lemma SanitizeFixes(s: string)
    ensures Sanitize(s) == s <==> Sanitized(s)
  {
    SanitizeMeans(s);
    if Sanitized(s) {
      assert !IsSpace(s[0]) && !IsSpace(s[|s| - 1]);
      var lo, hi := TrimMeans(s, IsSpace);
      assert Free(s, '/');
      SanitizedBase(s);
      assert Replaced(s) == s;
      var lo', hi' := TrimMeans(s, Edge);
      assert s != "." && s != "/" by { assert "."[0] == '.' && "/"[0] == '/'; }
    }
  }

  lemma SanitizeIdempotent(raw: string)
    ensures Sanitize(Sanitize(raw)) == Sanitize(raw)
  {
    SanitizeMeans(raw);
    SanitizeFixes(Sanitize(raw));
  }

  // ----- the canonical form -----

  /** The Windows device names, after the portable key. */
  predicate ReservedStem(k: string) {
    || k == "con" || k == "prn" || k == "aux" || k == "nul" || k == "conin$" || k == "conout$" || k == "clock$"
    || (|k| == 4 && (k[..3] == "com" || k[..3] == "lpt")
        && ('1' <= k[3] <= '9' || k[3] == '\U{00B9}' || k[3] == '\U{00B2}' || k[3] == '\U{00B3}'))
  }

  /** The digits after COM and LPT: 1 to 9 and the superscripts 1, 2 and 3. */
  ghost predicate PortDigit(p: int) { 49 <= p <= 57 || p == 0xB9 || p == 0xB2 || p == 0xB3 }

  lemma ReservedStems(k: string)
    ensures ReservedStem(k) <==>
      || k in ["con", "prn", "aux", "nul", "conin$", "conout$", "clock$"]
      || exists d: char :: PortDigit(d as int) && (k == "com" + [d] || k == "lpt" + [d])
  {
    if |k| == 4 {
      assert k == k[..3] + [k[3]];
      assert forall d: char :: k == "com" + [d] || k == "lpt" + [d] ==> k[3] == d;
    }
  }

  predicate Reserved(key: string -> string, name: string) { ReservedStem(key(Cut(name, '.').0)) }

  /** What decides is the name up to its first dot. */
  lemma ReservedIgnoresExtension(key: string -> string, stem: string, rest: string)
    requires Free(stem, '.')
    ensures Reserved(key, stem + "." + rest) <==> ReservedStem(key(stem))
    ensures Reserved(key, stem) <==> ReservedStem(key(stem))
  {
    CutUnique(stem, rest, '.');
  }

  /** CanonicalResumeAttachmentFilename with ValidatePortableFilenameComponent, check by check. */
  predicate Canonical(key: string -> string, name: string) {
    && name != "" && TrimSpace(name) == name && TrimRight(name, DotOrSpace) == name && Base(name) == name
    && Sanitize(name) == name && !Reserved(key, name)
    && Fits(name, MAX_BYTES, MAX_UNITS)
    && forall i :: 0 <= i < |name| ==> !IsControl(name[i]) && !Special(name[i])
  }

  /** Most of those checks follow from the fixed point. */
  lemma CanonicalMeans(key: string -> string, name: string)
    ensures Canonical(key, name) <==> Sanitized(name) && !Reserved(key, name) && Bytes(name) <= 255 && Units(name) <= 255
  {
    SanitizeFixes(name);
    if Sanitized(name) { SanitizedTrims(name); }
  }

  lemma SanitizedTrims(name: string)
    requires Sanitized(name)
    ensures TrimSpace(name) == name && TrimRight(name, DotOrSpace) == name && Base(name) == name
  {
  }
}
