/** The bootstrap path contract (runtime-claude/src/bootstrap.ts): clean paths, no duplicates, no ancestors. */
module Preflight {
  import opened Prelude
  import opened GoText
  import opened BootstrapFiles

  const MAX_BOOTSTRAP_FILES := 256
  const MAX_VIDEO_EDIT_TOTAL_BYTES: nat := 0x4000_0000
  const MAX_VIDEO_EDIT_METADATA_BYTES: nat := 0x20_0000

  datatype Refusal = TooMany | Malformed | Unclean | Duplicate | Protected | TooLarge | Ancestor

  // ----- clean paths -----

  /** String.prototype.trim removes these. */
  predicate Blank(c: char) {
    || '\t' <= c <= '\r' || c == ' ' || c == '\U{00A0}' || c == '\U{1680}' || '\U{2000}' <= c <= '\U{200A}'
    || c == '\U{2028}' || c == '\U{2029}' || c == '\U{202F}' || c == '\U{205F}' || c == '\U{3000}' || c == '\U{FEFF}'
  }

  /** The same characters as Go's, except for the next-line character and the byte order mark. */
  lemma BlankIsSpace(c: char)
    ensures Blank(c) <==> (IsSpace(c) && c as int != 0x85) || c as int == 0xFEFF
  {
  }

  /** Nothing that Windows or a shell gives a meaning: controls, < > : " \ | ? and *. */
  ghost predicate PortableChar(c: char) {
    var p := c as int;
    p >= 32 && p !in {34, 42, 58, 60, 62, 63, 92, 124}
  }

  /** The same letter, in lower or upper case. */
  ghost predicate SameLetter(c: char, d: char) { c == d || ('A' <= c <= 'Z' && c as int + 32 == d as int) }

  ghost predicate SameLetters(s: string, t: string) {
    |s| == |t| && forall i :: 0 <= i < |s| ==> SameLetter(s[i], t[i])
  }

  /** A DOS device name, by itself or in front of an extension, in any case. */
  ghost predicate DeviceName(part: string) {
    exists device, n: nat :: Device(device) && Fronts(part, device, n)
  }

  /** The first n characters are this name, and the part ends there or an extension follows. */
  ghost predicate Fronts(part: string, device: string, n: nat) {
    n <= |part| && SameLetters(part[..n], device) && (n == |part| || part[n] == '.')
  }

  ghost predicate Device(name: string) {
    || name in ["con", "prn", "aux", "nul"]
    || exists d :: '1' <= d <= '9' && (name == "com" + [d] || name == "lpt" + [d])
  }

  /** A portable name of a directory entry. */
  ghost predicate CleanPart(part: string) {
    && Plain(part) && Bytes(part) <= 255
    && (forall i :: 0 <= i < |part| ==> PortableChar(part[i]))
    && part[|part| - 1] != '.' && part[|part| - 1] != ' ' && !DeviceName(part)
  }

  /** A relative path of such names, without blanks at the ends. */
  ghost predicate CleanPath(raw: string) {
    raw != [] && !Blank(raw[0]) && !Blank(raw[|raw| - 1]) && AllClean(Split(raw))
  }

  ghost predicate AllClean(parts: seq<string>) { forall i :: 0 <= i < |parts| ==> CleanPart(parts[i]) }

  predicate Letter(c: char) { 'a' <= c <= 'z' || 'A' <= c <= 'Z' }

  /** cleanBootstrapPath */
  method CleanBootstrapPath(raw: string) returns (ok: bool)
    ensures ok <==> CleanPath(raw)
  {
    CleanHasNoDrive(raw);
    if raw == "" || Blank(raw[0]) || Blank(raw[|raw| - 1]) || raw[0] == '/' { return false; }
    var slash := HasBackslash(raw);
    if slash || (|raw| >= 2 && Letter(raw[0]) && raw[1] == ':') { return false; }
    ok := CheckComponents(Split(raw));
  }

  method CheckComponents(components: seq<string>) returns (ok: bool)
    ensures ok <==> AllClean(components)
  {
    for i := 0 to |components|
      invariant forall x :: 0 <= x < i ==> CleanPart(components[x])
    {
      ok := CheckComponent(components[i]);
      if !ok { return; }
    }
    ok := true;
  }

  method HasBackslash(raw: string) returns (found: bool)
    ensures found <==> '\\' in raw
  {
    for i := 0 to |raw|
      invariant '\\' !in raw[..i]
    {
      if raw[i] == '\\' { return true; }
    }
    assert raw[..|raw|] == raw;
    return false;
  }

  /** One component against the patterns of cleanBootstrapPath. */
  method CheckComponent(part: string) returns (ok: bool)
    ensures ok <==> CleanPart(part)
  {
    if part == "" || part == "." || part == ".." || Bytes(part) > 255 { return false; }
    for i := 0 to |part|
      invariant forall x :: 0 <= x < i ==> PortableChar(part[x])
    {
      var c := part[i];
      if c < ' ' || c == '<' || c == '>' || c == ':' || c == '"' || c == '\\' || c == '|' || c == '?' || c == '*' { return false; }
    }
    if part[|part| - 1] == '.' || part[|part| - 1] == ' ' { return false; }
    var reserved := Reserved(part);
    return !reserved;
  }

  function AsciiLower(c: char): char { if 'A' <= c <= 'Z' then c + 32 as char else c }

  /** /^(con|prn|aux|nul|com[1-9]|lpt[1-9])(?:\.|$)/i */
  method Reserved(part: string) returns (reserved: bool)
    ensures reserved <==> DeviceName(part)
  {
    var stem: string := "";
    var n := 0;
    while n < |part| && part[n] != '.'
      invariant n <= |part| && |stem| == n && forall x :: 0 <= x < n ==> part[x] != '.' && stem[x] == AsciiLower(part[x])
    {
      stem := stem + [AsciiLower(part[n])];
      n := n + 1;
    }
    StemDecides(part, stem);
    DeviceShape(stem);
    if |stem| == 3 { return stem == "con" || stem == "prn" || stem == "aux" || stem == "nul"; }
    return |stem| == 4 && (stem[..3] == "com" || stem[..3] == "lpt") && '1' <= stem[3] <= '9';
  }

  lemma DeviceShape(stem: string)
    ensures Device(stem) <==>
      || (|stem| == 3 && (stem == "con" || stem == "prn" || stem == "aux" || stem == "nul"))
      || (|stem| == 4 && (stem[..3] == "com" || stem[..3] == "lpt") && '1' <= stem[3] <= '9')
  {
    if |stem| == 4 { assert stem == stem[..3] + [stem[3]]; }
  }

  /** The lower-cased stem is the only device name that part can start with. */
  lemma StemDecides(part: string, stem: string)
    requires |stem| <= |part| && (|stem| == |part| || part[|stem|] == '.')
    requires forall x :: 0 <= x < |stem| ==> part[x] != '.' && stem[x] == AsciiLower(part[x])
    ensures DeviceName(part) <==> Device(stem)
  {
    if Device(stem) { assert Fronts(part, stem, |stem|); }
    if DeviceName(part) {
      var device, n: nat :| Device(device) && Fronts(part, device, n);
      DeviceLetters(device);
      FrontIsStem(part, stem, device, n);
    }
  }

  lemma FrontIsStem(part: string, stem: string, device: string, n: nat)
    requires |stem| <= |part| && (|stem| == |part| || part[|stem|] == '.')
    requires forall x :: 0 <= x < |stem| ==> part[x] != '.' && stem[x] == AsciiLower(part[x])
    requires Fronts(part, device, n) && forall i :: 0 <= i < |device| ==> device[i] != '.' && !('A' <= device[i] <= 'Z')
    ensures device == stem
  {
    forall x | 0 <= x < n ensures part[x] != '.' && device[x] == AsciiLower(part[x]) { assert SameLetter(part[..n][x], device[x]); }
  }

  lemma DeviceLetters(device: string)
    requires Device(device)
    ensures forall i :: 0 <= i < |device| ==> device[i] != '.' && !('A' <= device[i] <= 'Z')
  {
  }

  /** No clean component has a colon or a backslash, and none is empty, so those checks come for free. */
  lemma CleanHasNoDrive(raw: string)
    ensures CleanPath(raw) ==> raw[0] != '/' && '\\' !in raw && !(|raw| >= 2 && Letter(raw[0]) && raw[1] == ':')
  {
    assert raw != [] && raw[0] == '/' ==> Split(raw)[0] == "";
    if CleanPath(raw) {
      forall i | 0 <= i < |raw| ensures raw[i] != '\\' && raw[i] != ':' {
        if raw[i] != '/' {
          var k := CharInComponent(raw, i);
          assert CleanPart(Split(raw)[k]);
          var x :| 0 <= x < |Split(raw)[k]| && Split(raw)[k][x] == raw[i];
          assert PortableChar(Split(raw)[k][x]);
        }
      }
      assert CleanPart(Split(raw)[0]);
    }
  }

  /** Every character other than "/" is in some component. */
  lemma {:induction false} CharInComponent(raw: string, i: nat) returns (k: nat)
    requires i < |raw| && raw[i] != '/'
    ensures k < |Split(raw)| && raw[i] in Split(raw)[k]
  {
    if i == 0 {
      k := 0;
    } else {
      k := CharInComponent(raw[1..], i - 1);
      if raw[0] == '/' { k := k + 1; }
    }
  }

  /** path.resolve, on components: "." is skipped and ".." pops. */
  function Resolve(base: seq<string>, parts: seq<string>): seq<string>
    decreases |parts|
  {
    if parts == [] then base
    else if parts[0] == "" || parts[0] == "." then Resolve(base, parts[1..])
    else if parts[0] == ".." then Resolve(if base == [] then [] else base[..|base| - 1], parts[1..])
    else Resolve(base + [parts[0]], parts[1..])
  }

  lemma {:induction false} ResolvePlain(base: seq<string>, parts: seq<string>)
    requires forall i :: 0 <= i < |parts| ==> Plain(parts[i])
    ensures Resolve(base, parts) == base + parts
    decreases |parts|
  {
    if parts == [] {
      assert base + parts == base;
    } else {
      ResolvePlain(base + [parts[0]], parts[1..]);
      assert base + [parts[0]] + parts[1..] == base + parts;
    }
  }

  /** What an unclean path would do: "." stays, and ".." goes back, at most to the top. */
  lemma ResolveDots(base: seq<string>, name: string)
    requires Plain(name)
    ensures Resolve(base, ["."]) == base && Resolve(base, [""]) == base
    ensures Resolve(base, [name, ".."]) == base && Resolve([], [".."]) == []
  {
    assert [name, ".."][1..] == [".."] && (base + [name])[..|base|] == base;
    assert Resolve(base, [name, ".."]) == Resolve(base + [name], [".."]) == Resolve(base, []);
    assert Resolve(base, ["."]) == Resolve(base, []) && Resolve(base, [""]) == Resolve(base, []);
    assert Resolve([], [".."]) == Resolve([], []);
  }

  /** A clean path resolves to itself below any workspace root: it cannot escape. */
  lemma CleanStaysInside(root: seq<string>, raw: string)
    requires CleanPath(raw)
    ensures Resolve(root, Split(raw)) == root + Split(raw)
  {
    forall i | 0 <= i < |Split(raw)| ensures Plain(Split(raw)[i]) { assert CleanPart(Split(raw)[i]); }
    ResolvePlain(root, Split(raw));
  }

  // ----- the backward slash walk -----

  /** key.lastIndexOf("/", from): a negative position counts as 0, a large one as the end. */
  function LastSlash(key: string, from: int): (r: int)
    ensures -1 <= r < |key| && (r >= 0 ==> key[r] == '/' && r <= if from < 0 then 0 else from)
    ensures forall i :: r < i < |key| && i <= (if from < 0 then 0 else from) ==> key[i] != '/'
    decreases if from < 0 then 0 else from, from < 0
  {
    if key == [] then -1
    else if from < 0 then LastSlash(key, 0)
    else if from >= |key| then LastSlash(key, |key| - 1)
    else if key[from] == '/' then from
    else if from == 0 then -1
    else LastSlash(key, from - 1)
  }

  ghost predicate IsAncestor(a: string, b: string) { |a| < |b| && b[..|a|] == a && b[|a|] == '/' }

  /** At a leading slash the walk would stay at offset 0 forever. */
  lemma LeadingSlashRepeats(key: string)
    requires |key| > 0 && key[0] == '/'
    ensures LastSlash(key, 0 - 1) == 0
  {
  }

  /** The inner loop of the second pass: is some proper ancestor of key among the seen keys? */
  method AncestorSeen(seen: set<string>, key: string) returns (clash: bool)
    requires |key| > 0 ==> key[0] != '/'
    ensures clash <==> exists a :: a in seen && IsAncestor(a, key)
  {
    var offset := LastSlash(key, |key|);
    while offset >= 0
      invariant -1 <= offset < |key| && (offset >= 0 ==> key[offset] == '/')
      invariant forall i :: offset < i < |key| && key[i] == '/' ==> key[..i] !in seen
      decreases offset
    {
      if key[..offset] in seen {
        assert IsAncestor(key[..offset], key);
        return true;
      }
      offset := LastSlash(key, offset - 1);
    }
    assert forall a :: IsAncestor(a, key) ==> key[..|a|] == a && key[|a|] == '/';
    clash := false;
  }

  // ----- the whole preflight -----

  ghost predicate Under(root: string, key: string) { key == root || IsAncestor(root, key) }

  /** The Agent memory of the workspace and of its montage tool. */
  ghost predicate ProtectedKey(key: string) {
    Under(".claude/agent-memory", key) || Under("openmontage/.claude/agent-memory", key)
  }

  /**
   What the source needs of toLowerCase: a clean path never lowers to a leading slash.  The theorem
   is for any such function, so it does not depend on Unicode casing tables.
   */
  ghost predicate KeepsRelative(lower: string -> string) {
    forall p: string :: CleanPath(p) ==> lower(p) == "" || lower(p)[0] != '/'
  }

  ghost predicate EachFine(files: seq<BootstrapFile>, lower: string -> string) {
    forall i :: 0 <= i < |files| ==> Fine(files[i], lower)
  }

  ghost predicate Fine(f: BootstrapFile, lower: string -> string) {
    f.wellFormed && CleanPath(f.path) && !ProtectedKey(lower(f.path))
  }

  ghost predicate KeysDistinct(files: seq<BootstrapFile>, lower: string -> string) {
    forall i, j :: 0 <= i < j < |files| ==> lower(files[i].path) != lower(files[j].path)
  }

  ghost predicate Antichain(files: seq<BootstrapFile>, lower: string -> string) {
    forall i, j :: 0 <= i < |files| && 0 <= j < |files| ==> !IsAncestor(lower(files[i].path), lower(files[j].path))
  }

  /** The announced sizes of the files of a video edit are within its limits. */
  ghost predicate WithinLimits(task: TaskType, files: seq<BootstrapFile>) {
    task.VideoEdit? ==> !Exceeds(task, files, KnownSizes(files, |files|))
  }

  /** The first n files are fine, and these are their distinct keys. */
  ghost predicate Collected(files: seq<BootstrapFile>, lower: string -> string, n: nat, seen: seq<string>) {
    && n <= |files| && |seen| == n && (forall x :: 0 <= x < n ==> seen[x] == lower(files[x].path) && Fine(files[x], lower))
    && forall x, y :: 0 <= x < y < n ==> seen[x] != seen[y]
  }

  lemma CollectedSnoc(files: seq<BootstrapFile>, lower: string -> string, n: nat, seen: seq<string>)
    requires n < |files| && Collected(files, lower, n, seen)
    ensures if Fine(files[n], lower) && lower(files[n].path) !in seen then Collected(files, lower, n + 1, seen + [lower(files[n].path)])
            else !(EachFine(files, lower) && KeysDistinct(files, lower))
  {
    if lower(files[n].path) in seen {
      var x :| 0 <= x < n && seen[x] == lower(files[n].path);
      assert lower(files[x].path) == lower(files[n].path);
    }
  }

  /** The first pass: per-file checks, running totals, and the keys in order. */
  method CollectKeys(files: seq<BootstrapFile>, task: TaskType, lower: string -> string) returns (r: Result<seq<string>, Refusal>)
    ensures r.Ok? <==> EachFine(files, lower) && KeysDistinct(files, lower) && WithinLimits(task, files)
    ensures r.Ok? ==> |r.value| == |files| && forall x :: 0 <= x < |files| ==> r.value[x] == lower(files[x].path)
  {
    var seen: seq<string> := [];
    var total, media := 0, 0;
    for i := 0 to |files|
      invariant Tallied(task, files, i, total, media) && Collected(files, lower, i, seen)
    {
      CollectedSnoc(files, lower, i, seen);
      var refusal := CheckFile(files[i], lower, seen);
      if refusal.Some? { return Err(refusal.value); }
      var over;
      over, total, media := Tally(task, files, i, total, media);
      if over { return Err(TooLarge); }
      seen := seen + [lower(files[i].path)];
    }
    AllCollected(files, lower, seen);
    r := Ok(seen);
  }

  lemma AllCollected(files: seq<BootstrapFile>, lower: string -> string, seen: seq<string>)
    requires Collected(files, lower, |files|, seen)
    ensures EachFine(files, lower) && KeysDistinct(files, lower)
  {
    forall i, j | 0 <= i < j < |files| ensures lower(files[i].path) != lower(files[j].path) { assert seen[i] != seen[j]; }
  }

  method CheckFile(f: BootstrapFile, lower: string -> string, seen: seq<string>) returns (r: Option<Refusal>)
    ensures r.None? <==> Fine(f, lower) && lower(f.path) !in seen
  {
    var clean := CleanBootstrapPath(f.path);
    if !clean { return Some(Unclean); }
    var key := lower(f.path);
    if key in seen { return Some(Duplicate); }
    var roots := [".claude/agent-memory", "openmontage/.claude/agent-memory"];
    for i := 0 to |roots|
      invariant forall x :: 0 <= x < i ==> !Under(roots[x], key)
    {
      UnderMeans(roots[i], key);
      if key == roots[i] || roots[i] + "/" <= key { return Some(Protected); }
    }
    assert !Under(roots[0], key) && !Under(roots[1], key);
    if !f.wellFormed { return Some(Malformed); }
    return None;
  }

  lemma UnderMeans(root: string, key: string)
    ensures Under(root, key) <==> key == root || root + "/" <= key
  {
    if IsAncestor(root, key) { assert key[..|root| + 1] == root + "/"; }
  }

  /** The running totals after the first n files, which are within the limits. */
  ghost predicate Tallied(task: TaskType, files: seq<BootstrapFile>, n: nat, total: nat, media: nat) {
    n <= |files| && (task.VideoEdit? ==>
      && total == Total(KnownSizes(files, n)) && media == MediaTotal(task, files, KnownSizes(files, n))
      && !Exceeds(task, files, KnownSizes(files, n)))
  }

  method Tally(task: TaskType, files: seq<BootstrapFile>, i: nat, total: nat, media: nat) returns (over: bool, total': nat, media': nat)
    requires i < |files| && Tallied(task, files, i, total, media)
    ensures over ==> !WithinLimits(task, files)
    ensures !over ==> Tallied(task, files, i + 1, total', media')
  {
    KnownSizesSnoc(task, files, i);
    over, total', media' := false, total, media;
    if task.VideoEdit? {
      var f := files[i];
      var known := 0;
      if f.expectedSize.Some? { known := f.expectedSize.value; } else if f.source.Inline? { known := |f.source.text|; }
      total' := total + known;
      if ".anban-creator/video-edit-assets/" <= f.path { media' := media + known; }
      over := media' > MAX_VIDEO_EDIT_TOTAL_BYTES || total' > MAX_VIDEO_EDIT_TOTAL_BYTES + MAX_VIDEO_EDIT_METADATA_BYTES;
    }
  }

  /** A prefix that is over a limit decides for the whole list. */
  lemma KnownSizesSnoc(task: TaskType, files: seq<BootstrapFile>, i: nat)
    requires i < |files|
    ensures Total(KnownSizes(files, i + 1)) == Total(KnownSizes(files, i)) + KnownSize(files[i])
    ensures MediaTotal(task, files, KnownSizes(files, i + 1)) ==
      MediaTotal(task, files, KnownSizes(files, i)) + if IsMedia(task, files[i].path) then KnownSize(files[i]) else 0
    ensures Exceeds(task, files, KnownSizes(files, i + 1)) ==> Exceeds(task, files, KnownSizes(files, |files|))
  {
    assert KnownSizes(files, i + 1) == KnownSizes(files, i) + [KnownSize(files[i])];
    TotalsSnoc(task, files, KnownSizes(files, i), KnownSize(files[i]));
    if Exceeds(task, files, KnownSizes(files, i + 1)) {
      assert KnownSizes(files, |files|)[..i + 1] == KnownSizes(files, i + 1);
      ExceedsStays(task, files, KnownSizes(files, |files|), i + 1);
    }
  }

  /** The second pass over the seen keys. */
  method AnyAncestor(seen: seq<string>) returns (clash: bool)
    requires forall x :: 0 <= x < |seen| ==> seen[x] == "" || seen[x][0] != '/'
    ensures clash <==> exists x, y :: 0 <= x < |seen| && 0 <= y < |seen| && IsAncestor(seen[x], seen[y])
  {
    var keys := set x | 0 <= x < |seen| :: seen[x];
    for i := 0 to |seen|
      invariant forall x, y :: 0 <= x < |seen| && 0 <= y < i ==> !IsAncestor(seen[x], seen[y])
    {
      clash := AncestorSeen(keys, seen[i]);
      if clash {
        ghost var a :| a in keys && IsAncestor(a, seen[i]);
        ghost var x :| 0 <= x < |seen| && seen[x] == a;
        return true;
      }
      assert forall x :: 0 <= x < |seen| ==> seen[x] in keys;
    }
    clash := false;
  }

  /** The lists that preflight accepts. */
  ghost predicate Accepted(files: seq<BootstrapFile>, task: TaskType, lower: string -> string) {
    && |files| <= 256 && EachFine(files, lower) && KeysDistinct(files, lower)
    && WithinLimits(task, files) && Antichain(files, lower)
  }

  /** preflightBootstrapFiles accepts exactly the small, clean, unprotected antichains within the announced limits. */
  method PreflightBootstrapFiles(files: seq<BootstrapFile>, task: TaskType, lower: string -> string)
    returns (r: Result<seq<BootstrapFile>, Refusal>)
    requires KeepsRelative(lower)
    ensures r.Ok? ==> r.value == files
    ensures r.Ok? <==> Accepted(files, task, lower)
  {
    if |files| > MAX_BOOTSTRAP_FILES { return Err(TooMany); }
    var keys := CollectKeys(files, task, lower);
    if keys.Err? { return Err(keys.error); }
    var clash := AnyAncestor(keys.value);
    if clash {
      ghost var x, y :| 0 <= x < |files| && 0 <= y < |files| && IsAncestor(keys.value[x], keys.value[y]);
      assert IsAncestor(lower(files[x].path), lower(files[y].path));
      return Err(Ancestor);
    }
    assert Antichain(files, lower) by {
      forall i, j | 0 <= i < |files| && 0 <= j < |files| ensures !IsAncestor(lower(files[i].path), lower(files[j].path)) {
        assert !IsAncestor(keys.value[i], keys.value[j]);
      }
    }
    r := Ok(files);
  }

  lemma LowerKeepsAncestors(lower: string -> string, a: string, b: string)
    requires forall x: string, y: string :: lower(x + "/" + y) == lower(x) + "/" + lower(y)
    requires IsAncestor(a, b)
    ensures IsAncestor(lower(a), lower(b))
  {
    var rest := b[|a| + 1..];
    assert b == a + "/" + rest;
  }

  /** When casing works segment by segment, the antichain holds for the paths themselves, as files on disk. */
  lemma AcceptedPathsAreIndependent(files: seq<BootstrapFile>, lower: string -> string, i: nat, j: nat)
    requires forall a: string, b: string :: lower(a + "/" + b) == lower(a) + "/" + lower(b)
    requires KeysDistinct(files, lower) && Antichain(files, lower) && i < |files| && j < |files| && i != j
    ensures files[i].path != files[j].path && !IsAncestor(files[i].path, files[j].path)
  {
    var a, b := files[i].path, files[j].path;
    if i < j { assert lower(a) != lower(b); } else { assert lower(b) != lower(a); }
    if IsAncestor(a, b) { LowerKeepsAncestors(lower, a, b); }
  }
}
