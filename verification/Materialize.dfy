/**
 Transactional materialization of bootstrap files (runtime-claude/src/workspace.ts).

 The workspace is a map from locations to bytes.  Every rename, remove, write or read may fail,
 the abort signal may fire before any step, and downloaded bytes are arbitrary.
 */
module Materialize {
  import opened Prelude
  import opened BootstrapFiles
  import Preflight

  /** Workspace targets, and the two halves of a fresh staging directory. */
  datatype Location = Target(path: string) | Staged(path: string) | Backup(index: nat)

  datatype Commit = Create(path: string) | Replace(path: string, backup: nat)

  const MAX_BOOTSTRAP_TOTAL_BYTES: nat := 0x2000_0000
  const MAX_VIDEO_EDIT_TOTAL_BYTES: nat := 0x4000_0000
  const MAX_VIDEO_EDIT_METADATA_BYTES: nat := 0x20_0000

  /** The running totals when `size` more bytes are accepted for a path. */
  method WithinTotals(task: TaskType, path: string, size: nat, total: nat, media: nat) returns (ok: bool, total': nat, media': nat)
    ensures total' == total + size && media' == media + if IsMedia(task, path) then size else 0
    ensures media <= MediaLimit(task) ==> (ok <==> total' <= TotalLimit(task) && media' <= MediaLimit(task))
  {
    total', media' := total + size, media;
    if task.Hypit? && "project/assets/" <= path {
      media' := media + size;
      if media' > 536870912 { return false, total', media'; }
    }
    if task.VideoEdit? && ".anban-creator/video-edit-assets/" <= path {
      media' := media + size;
      if media' > MAX_VIDEO_EDIT_TOTAL_BYTES { return false, total', media'; }
    }
    var totalLimit := MAX_BOOTSTRAP_TOTAL_BYTES;
    if task.Hypit? { totalLimit := 2684354560; }
    if task.VideoEdit? { totalLimit := MAX_VIDEO_EDIT_TOTAL_BYTES + MAX_VIDEO_EDIT_METADATA_BYTES; }
    ok := total' <= totalLimit;
  }

  /** How materializeBootstrapFiles ends; staging cleanup may fail on top of committing and rolling back. */
  datatype Outcome = Rejected | Committed | RolledBack | RollbackIncomplete

  type Files = map<Location, Content>

  /** The same size and digest; bytes are never compared. */
  ghost predicate LooksEqual(sha: Content -> Digest, a: Content, b: Content) { |a| == |b| && sha(a) == sha(b) }

  /** What the checks after a download establish about the staged bytes. */
  ghost predicate Acceptable(sha: Content -> Digest, f: BootstrapFile, b: Content) {
    && (f.source.Inline? ==> b == f.source.text)
    && |b| <= f.maxBytes
    && (f.expectedSize.Some? ==> |b| == f.expectedSize.value)
    && (f.sha.Some? ==> sha(b) == f.sha.value)
  }

  /** An inline text that fails its own checks. */
  ghost predicate Unusable(sha: Content -> Digest, f: BootstrapFile) { f.source.Inline? && !Acceptable(sha, f, f.source.text) }

  ghost predicate SameAt(a: Files, b: Files, p: string) {
    (Target(p) in a <==> Target(p) in b) && (Target(p) in a ==> a[Target(p)] == b[Target(p)])
  }

  ghost predicate SameTargets(a: Files, b: Files) { forall p: string :: SameAt(a, b, p) }

  /** All-or-nothing, the "all": the old targets overridden by the new contents, except where they already look equal. */
  ghost predicate Overridden(sha: Content -> Digest, before: Files, after: Files, contents: map<string, Content>) {
    forall p: string ::
      if p !in contents || (Target(p) in before && LooksEqual(sha, contents[p], before[Target(p)]))
      then SameAt(before, after, p)
      else Target(p) in after && after[Target(p)] == contents[p]
  }

  /** The target has the size and digest of the content, and its bytes unless it had that size and digest before. */
  ghost predicate Arrived(sha: Content -> Digest, before: Files, after: Files, p: string, content: Content) {
    && Target(p) in after && |after[Target(p)]| == |content| && sha(after[Target(p)]) == sha(content)
    && (after[Target(p)] != content ==>
          Target(p) in before && |before[Target(p)]| == |content| && sha(before[Target(p)]) == sha(content))
  }

  /** After an incomplete rollback every replaced original is at its target or in a preserved backup. */
  ghost predicate OriginalKept(before: Files, after: Files, p: string) {
    Target(p) in before ==>
      || (Target(p) in after && after[Target(p)] == before[Target(p)])
      || (exists n :: Backup(n) in after && after[Backup(n)] == before[Target(p)])
  }

  lemma StagingIsInvisible(before: Files, now: Files, l: Location, b: Content)
    requires SameTargets(before, now) && !l.Target?
    ensures SameTargets(before, now[l := b])
  {
    var now' := now[l := b];
    forall p: string ensures SameAt(before, now', p) { assert SameAt(before, now, p); }
  }

  // ----- commits that have been applied, in full or up to the backup -----

  ghost predicate CommitOk(before: Files, now: Files, c: Commit) {
    match c
    case Create(p) => Target(p) !in before
    case Replace(p, n) => Target(p) in before && Backup(n) in now && now[Backup(n)] == before[Target(p)]
  }

  ghost predicate Distinct(cs: seq<Commit>) {
    forall i, j :: 0 <= i < j < |cs| ==>
      cs[i].path != cs[j].path && (cs[i].Replace? && cs[j].Replace? ==> cs[i].backup != cs[j].backup)
  }

  ghost predicate Touches(cs: seq<Commit>, p: string) { exists i :: 0 <= i < |cs| && cs[i].path == p }

  ghost predicate Applied(before: Files, now: Files, cs: seq<Commit>) {
    && Distinct(cs)
    && (forall i :: 0 <= i < |cs| ==> CommitOk(before, now, cs[i]))
    && (forall p: string :: !Touches(cs, p) ==> SameAt(before, now, p))
  }

  lemma TouchesSnoc(cs: seq<Commit>, c: Commit, p: string)
    ensures Touches(cs + [c], p) <==> Touches(cs, p) || c.path == p
  {
    if Touches(cs, p) {
      var i :| 0 <= i < |cs| && cs[i].path == p;
      assert (cs + [c])[i].path == p;
    }
    if c.path == p { assert (cs + [c])[|cs|].path == p; }
  }

  /** A change of one target that cs + [c] touches, and of no backup cs relies on, keeps Applied. */
  lemma AppliedSnoc(before: Files, now: Files, now': Files, cs: seq<Commit>, c: Commit)
    requires Applied(before, now, cs) && Distinct(cs + [c]) && CommitOk(before, now', c)
    requires forall n :: Backup(n) in now && (c.Create? || n != c.backup) ==> Backup(n) in now' && now'[Backup(n)] == now[Backup(n)]
    requires forall p: string :: p != c.path ==> SameAt(now, now', p)
    ensures Applied(before, now', cs + [c])
  {
    forall i | 0 <= i < |cs + [c]| ensures CommitOk(before, now', (cs + [c])[i]) {
      if i < |cs| {
        assert CommitOk(before, now, cs[i]);
        assert (cs + [c])[i] == cs[i] && (cs + [c])[|cs|] == c;
      }
    }
    forall p: string | !Touches(cs + [c], p) ensures SameAt(before, now', p) {
      TouchesSnoc(cs, c, p);
      assert SameAt(before, now, p) && SameAt(now, now', p);
    }
  }

  /** The second rename of a replace only fills a target that the last commit already touches. */
  lemma AppliedFill(before: Files, now: Files, now': Files, cs: seq<Commit>, q: string)
    requires Applied(before, now, cs) && Touches(cs, q)
    requires forall n :: Backup(n) in now ==> Backup(n) in now' && now'[Backup(n)] == now[Backup(n)]
    requires forall p: string :: p != q ==> SameAt(now, now', p)
    ensures Applied(before, now', cs)
  {
    forall i | 0 <= i < |cs| ensures CommitOk(before, now', cs[i]) { assert CommitOk(before, now, cs[i]); }
    forall p: string | !Touches(cs, p) ensures SameAt(before, now', p) {
      assert SameAt(before, now, p) && SameAt(now, now', p);
    }
  }

  // ----- the plan -----

  /** The target already looks like the staged file, so it is left alone. */
  ghost predicate Unneeded(sha: Content -> Digest, files: Files, contents: map<string, Content>, p: string) {
    p in contents && Target(p) in files && LooksEqual(sha, contents[p], files[Target(p)])
  }

  ghost predicate NeedsCommit(sha: Content -> Digest, files: Files, contents: map<string, Content>, c: Commit) {
    && c.path in contents && Staged(c.path) in files && files[Staged(c.path)] == contents[c.path]
    && (c.Replace? <==> Target(c.path) in files)
    && !Unneeded(sha, files, contents, c.path)
  }

  ghost predicate Planned(sha: Content -> Digest, files: Files, contents: map<string, Content>, commits: seq<Commit>) {
    && Distinct(commits)
    && (forall x :: 0 <= x < |commits| ==> NeedsCommit(sha, files, contents, commits[x]))
    && (forall p :: p in contents ==> Touches(commits, p) || Unneeded(sha, files, contents, p))
  }

  /** The plan after the files with these paths. */
  ghost predicate PlannedUpTo(sha: Content -> Digest, files: Files, contents: map<string, Content>,
                              commits: seq<Commit>, paths: set<string>) {
    && Distinct(commits)
    && (forall x :: 0 <= x < |commits| ==>
          && NeedsCommit(sha, files, contents, commits[x]) && commits[x].path in paths
          && (commits[x].Replace? ==> commits[x].backup < |commits|))
    && (forall p :: p in paths ==> Touches(commits, p) || Unneeded(sha, files, contents, p))
  }

  lemma PlanSnoc(sha: Content -> Digest, files: Files, contents: map<string, Content>,
                 commits: seq<Commit>, paths: set<string>, c: Commit)
    requires PlannedUpTo(sha, files, contents, commits, paths) && c.path !in paths
    requires NeedsCommit(sha, files, contents, c) && (c.Replace? ==> c.backup == |commits|)
    ensures PlannedUpTo(sha, files, contents, commits + [c], paths + {c.path})
  {
    forall p | p in paths + {c.path} ensures Touches(commits + [c], p) || Unneeded(sha, files, contents, p) {
      TouchesSnoc(commits, c, p);
    }
  }

  lemma PlanSkip(sha: Content -> Digest, files: Files, contents: map<string, Content>,
                 commits: seq<Commit>, paths: set<string>, p: string)
    requires PlannedUpTo(sha, files, contents, commits, paths) && Unneeded(sha, files, contents, p)
    ensures PlannedUpTo(sha, files, contents, commits, paths + {p})
  {
  }

  // ----- the file list -----

  ghost function PathsOf(prepared: seq<BootstrapFile>): set<string> {
    set i | 0 <= i < |prepared| :: prepared[i].path
  }

  ghost predicate PathsDistinct(prepared: seq<BootstrapFile>) {
    forall i, j :: 0 <= i < j < |prepared| ==> prepared[i].path != prepared[j].path
  }

  lemma PathsSnoc(prepared: seq<BootstrapFile>, i: nat)
    requires i < |prepared|
    ensures PathsOf(prepared[..i + 1]) == PathsOf(prepared[..i]) + {prepared[i].path}
    ensures PathsDistinct(prepared[..i]) && prepared[i].path !in PathsOf(prepared[..i]) ==> PathsDistinct(prepared[..i + 1])
    ensures PathsDistinct(prepared) ==> prepared[i].path !in PathsOf(prepared[..i])
  {
  }

  /** The staged bytes of f passed every check. */
  ghost predicate Received(sha: Content -> Digest, f: BootstrapFile, contents: map<string, Content>) {
    f.path in contents && Acceptable(sha, f, contents[f.path])
  }

  /** What is staged for the first n files, and how large it is. */
  ghost predicate StagedTo(sha: Content -> Digest, prepared: seq<BootstrapFile>, n: nat, contents: map<string, Content>, sizes: seq<nat>) {
    && n <= |prepared| && |sizes| == n && PathsDistinct(prepared[..n]) && contents.Keys == PathsOf(prepared[..n])
    && forall x :: 0 <= x < n ==> Received(sha, prepared[x], contents) && sizes[x] == |contents[prepared[x].path]|
  }

  lemma StagedSnoc(sha: Content -> Digest, prepared: seq<BootstrapFile>, i: nat, contents: map<string, Content>, sizes: seq<nat>, body: Content)
    requires i < |prepared| && StagedTo(sha, prepared, i, contents, sizes) && prepared[i].path !in contents && Acceptable(sha, prepared[i], body)
    ensures StagedTo(sha, prepared, i + 1, contents[prepared[i].path := body], sizes + [|body|])
  {
    PathsSnoc(prepared, i);
    forall x | 0 <= x < i ensures prepared[x].path in PathsOf(prepared[..i]) { assert prepared[..i][x] == prepared[x]; }
  }

  /** Targets are untouched, and exactly the contents are staged. */
  ghost predicate Staging(before: Files, files: Files, contents: map<string, Content>) {
    && SameTargets(before, files) && (forall l :: l in files ==> !l.Backup?)
    && (forall p: string :: Staged(p) in files <==> p in contents)
    && AllStaged(files, contents)
  }

  lemma StagingSnoc(before: Files, files: Files, contents: map<string, Content>, path: string, body: Content)
    requires Staging(before, files, contents)
    ensures Staging(before, files[Staged(path) := body], contents[path := body])
  {
    StagingIsInvisible(before, files, Staged(path), body);
    var more := contents[path := body];
    forall p | p in more ensures files[Staged(path) := body][Staged(p)] == more[p] {}
  }

  /** A path that is staged already is repeated. */
  lemma PathTaken(sha: Content -> Digest, prepared: seq<BootstrapFile>, i: nat, contents: map<string, Content>, sizes: seq<nat>)
    requires i < |prepared| && StagedTo(sha, prepared, i, contents, sizes)
    ensures prepared[i].path in contents ==> !PathsDistinct(prepared)
  {
    PathsSnoc(prepared, i);
  }

  /** The running totals, within the limits. */
  ghost predicate Counted(task: TaskType, prepared: seq<BootstrapFile>, sizes: seq<nat>, total: nat, media: nat) {
    |sizes| <= |prepared| && total == Total(sizes) && media == MediaTotal(task, prepared, sizes) && !Exceeds(task, prepared, sizes)
  }

  ghost predicate AnyUnusable(sha: Content -> Digest, prepared: seq<BootstrapFile>) {
    exists i :: 0 <= i < |prepared| && Unusable(sha, prepared[i])
  }

  ghost predicate AllStaged(files: Files, contents: map<string, Content>) {
    forall p :: p in contents ==> Staged(p) in files && files[Staged(p)] == contents[p]
  }

  /** A commit not yet reached still sees the original target. */
  lemma Untouched(before: Files, now: Files, commits: seq<Commit>, i: nat)
    requires i < |commits| && Distinct(commits) && Applied(before, now, commits[..i])
    ensures SameAt(before, now, commits[i].path)
  {
  }

  /** Neither the target nor the staged file of p changed. */
  ghost predicate Elsewhere(a: Files, b: Files, p: string) {
    SameAt(a, b, p) && (Staged(p) in a ==> Staged(p) in b && b[Staged(p)] == a[Staged(p)])
  }

  ghost predicate Waiting(files: Files, contents: map<string, Content>, c: Commit) {
    c.path in contents && Staged(c.path) in files && files[Staged(c.path)] == contents[c.path]
  }

  ghost predicate Landed(files: Files, contents: map<string, Content>, c: Commit) {
    c.path in contents && Target(c.path) in files && files[Target(c.path)] == contents[c.path]
  }

  /** A commit that rollback has visited. */
  ghost predicate Settled(before: Files, now: Files, c: Commit, noErrors: bool) {
    SameAt(before, now, c.path) || (!noErrors && CommitOk(before, now, c))
  }

  /** f cannot be materialized over these targets, whatever else happens. */
  ghost predicate Refused(sha: Content -> Digest, irregular: set<string>, files: Files, contents: map<string, Content>, f: BootstrapFile) {
    || Unusable(sha, f)
    || f.path in irregular
    || (Target(f.path) in files && f.path in contents && !LooksEqual(sha, contents[f.path], files[Target(f.path)])
        && !f.replaceExisting)
  }

  ghost predicate AnyRefused(sha: Content -> Digest, irregular: set<string>, files: Files, contents: map<string, Content>,
                             prepared: seq<BootstrapFile>) {
    exists i :: 0 <= i < |prepared| && Refused(sha, irregular, files, contents, prepared[i])
  }

  ghost predicate NoneRefused(sha: Content -> Digest, irregular: set<string>, files: Files, contents: map<string, Content>,
                              prepared: seq<BootstrapFile>, n: nat)
    requires n <= |prepared|
  {
    forall x {:trigger Refused(sha, irregular, files, contents, prepared[x])} ::
      0 <= x < n ==> !Refused(sha, irregular, files, contents, prepared[x])
  }

  lemma RefusedSnoc(sha: Content -> Digest, irregular: set<string>, files: Files, contents: map<string, Content>,
                    prepared: seq<BootstrapFile>, i: nat)
    requires i < |prepared| && NoneRefused(sha, irregular, files, contents, prepared, i)
    ensures Refused(sha, irregular, files, contents, prepared[i]) ==> AnyRefused(sha, irregular, files, contents, prepared)
    ensures !Refused(sha, irregular, files, contents, prepared[i]) ==> NoneRefused(sha, irregular, files, contents, prepared, i + 1)
  {
  }

  lemma PlannedAll(sha: Content -> Digest, irregular: set<string>, files: Files, contents: map<string, Content>,
                   commits: seq<Commit>, prepared: seq<BootstrapFile>)
    requires contents.Keys == PathsOf(prepared) && PlannedUpTo(sha, files, contents, commits, PathsOf(prepared[..|prepared|]))
    requires NoneRefused(sha, irregular, files, contents, prepared, |prepared|)
    ensures Planned(sha, files, contents, commits) && !AnyRefused(sha, irregular, files, contents, prepared)
  {
    assert prepared[..|prepared|] == prepared;
  }

  /** Only the targets matter. */
  lemma RefusedSame(sha: Content -> Digest, irregular: set<string>, a: Files, b: Files, contents: map<string, Content>,
                    prepared: seq<BootstrapFile>)
    requires SameTargets(a, b)
    ensures AnyRefused(sha, irregular, a, contents, prepared) == AnyRefused(sha, irregular, b, contents, prepared)
  {
    forall i | 0 <= i < |prepared|
      ensures Refused(sha, irregular, a, contents, prepared[i]) == Refused(sha, irregular, b, contents, prepared[i])
    {
      assert SameAt(a, b, prepared[i].path);
    }
  }

  /** `faults` counts failed operations, unacceptable downloads and aborts. */
  class Workspace {
    var files: Files
    ghost var faults: nat
    const irregular: set<string>
    const sha: Content -> Digest

    constructor (initial: Files, irregular: set<string>, sha: Content -> Digest)
      ensures files == initial && this.irregular == irregular && this.sha == sha && faults == 0
    {
      files, faults := initial, 0;
      this.irregular := irregular;
      this.sha := sha;
    }

    /** fs.rename: atomic, replaces an existing destination, fails on a missing source. */
    method Rename(src: Location, dst: Location) returns (ok: bool)
      requires src != dst
      modifies this
      ensures ok ==> src in old(files) && files == (old(files) - {src})[dst := old(files)[src]]
      ensures !ok ==> files == old(files)
      ensures faults >= old(faults) && (!ok ==> src !in old(files) || faults > old(faults))
    {
      var fails: bool := *;
      if fails { faults := faults + 1; }
      if fails || src !in files { return false; }
      files := (files - {src})[dst := files[src]];
      ok := true;
    }

    /** fs.rm with force: a missing file is no error. */
    method Remove(loc: Location) returns (ok: bool)
      modifies this
      ensures files == if ok then old(files) - {loc} else old(files)
      ensures faults >= old(faults) && (!ok ==> faults > old(faults))
    {
      var fails: bool := *;
      if fails {
        faults := faults + 1;
        return false;
      }
      files := files - {loc};
      ok := true;
    }

    /** The staging loop: every file is written exclusively and checked before any target is touched. */
    method StageAll(prepared: seq<BootstrapFile>, task: TaskType)
      returns (ok: bool, contents: map<string, Content>, ghost sizes: seq<nat>)
      requires forall l :: l in files ==> l.Target?
      modifies this
      ensures SameTargets(old(files), files) && forall l :: l in files ==> !l.Backup?
      ensures |sizes| <= |prepared|
      ensures ok ==> StagedTo(sha, prepared, |prepared|, contents, sizes) && AllStaged(files, contents)
      ensures ok ==> |sizes| == |prepared| && !Exceeds(task, prepared, sizes)
      ensures faults >= old(faults)
      ensures !ok && faults == old(faults) ==>
                !PathsDistinct(prepared) || AnyUnusable(sha, prepared) || Exceeds(task, prepared, sizes)
    {
      contents, sizes := map[], [];
      var total: nat, media: nat := 0, 0;
      for i := 0 to |prepared|
        invariant faults >= old(faults)
        invariant Staging(old(files), files, contents) && StagedTo(sha, prepared, i, contents, sizes)
        invariant Counted(task, prepared, sizes, total, media)
      {
        ghost var before := files;
        ghost var over: bool;
        var body: Content, total': nat, media': nat;
        ok, body, total', media', over := Receive(prepared, i, task, total, media, sizes);
        if !ok {
          if over { sizes := sizes + [|body|]; } else { PathTaken(sha, prepared, i, contents, sizes); }
          return;
        }
        StagingSnoc(old(files), before, contents, prepared[i].path, body);
        StagedSnoc(sha, prepared, i, contents, sizes, body);
        TotalsSnoc(task, prepared, sizes, |body|);
        contents := contents[prepared[i].path := body];
        total, media := total', media';
        sizes := sizes + [|body|];
      }
      ok := true;
    }

    /** One file of the staging loop, with the running totals before it. */
    method Receive(prepared: seq<BootstrapFile>, i: nat, task: TaskType, total: nat, media: nat, ghost sizes: seq<nat>)
      returns (ok: bool, body: Content, total': nat, media': nat, ghost over: bool)
      requires i < |prepared| && |sizes| == i && Counted(task, prepared, sizes, total, media)
      modifies this
      ensures ok ==> Staged(prepared[i].path) !in old(files) && files == old(files)[Staged(prepared[i].path) := body]
      ensures ok ==> Acceptable(sha, prepared[i], body) && !Exceeds(task, prepared, sizes + [|body|])
      ensures ok ==> total' == Total(sizes + [|body|]) && media' == MediaTotal(task, prepared, sizes + [|body|])
      ensures !ok ==> files == old(files)
      ensures faults >= old(faults) && (over ==> !ok && Exceeds(task, prepared, sizes + [|body|]))
      ensures !ok && !over && faults == old(faults) ==> Staged(prepared[i].path) in old(files) || Unusable(sha, prepared[i])
    {
      var f := prepared[i];
      body, total', media', over := [], total, media, false;
      var fails: bool := *;
      if fails {
        faults := faults + 1;
        return false, body, total', media', over;
      }
      if Staged(f.path) in files { return false, body, total', media', over; }
      body := *;
      if f.source.Inline? { body := f.source.text; }
      TotalsSnoc(task, prepared, sizes, |body|);
      var within: bool;
      within, total', media' := WithinTotals(task, f.path, |body|, total, media);
      if !within { return false, body, total', media', true; }
      if |body| > f.maxBytes || (f.expectedSize.Some? && |body| != f.expectedSize.value) || (f.sha.Some? && sha(body) != f.sha.value) {
        if f.source.Remote? { faults := faults + 1; }
        return false, body, total', media', over;
      }
      files := files[Staged(f.path) := body];
      ok := true;
    }

    /** filesEqual */
    method FilesEqual(first: Content, second: Content) returns (same: bool)
      ensures same <==> LooksEqual(sha, first, second)
    {
      if |first| != |second| { return false; }
      return sha(first) == sha(second);
    }

    /** The planning loop: one create or replace per file that differs from its target. */
    method Plan(prepared: seq<BootstrapFile>, contents: map<string, Content>) returns (ok: bool, commits: seq<Commit>, ghost fault: bool)
      requires PathsDistinct(prepared) && contents.Keys == PathsOf(prepared) && AllStaged(files, contents)
      requires forall i :: 0 <= i < |prepared| ==> Received(sha, prepared[i], contents)
      ensures ok ==> Planned(sha, files, contents, commits)
      ensures ok ==> !AnyRefused(sha, irregular, files, contents, prepared)
      ensures !ok && !fault ==> AnyRefused(sha, irregular, files, contents, prepared)
    {
      commits := [];
      for i := 0 to |prepared|
        invariant PlannedUpTo(sha, files, contents, commits, PathsOf(prepared[..i]))
        invariant NoneRefused(sha, irregular, files, contents, prepared, i)
      {
        PathsSnoc(prepared, i);
        ok, commits, fault := PlanFile(prepared[i], contents, commits, PathsOf(prepared[..i]));
        RefusedSnoc(sha, irregular, files, contents, prepared, i);
        if !ok { return; }
      }
      PlannedAll(sha, irregular, files, contents, commits, prepared);
      ok, fault := true, false;
    }

    /** One file of the planning loop, after the files with these paths. */
    method PlanFile(f: BootstrapFile, contents: map<string, Content>, commits: seq<Commit>, ghost paths: set<string>)
      returns (ok: bool, commits': seq<Commit>, ghost fault: bool)
      requires AllStaged(files, contents) && Received(sha, f, contents) && f.path !in paths
      requires PlannedUpTo(sha, files, contents, commits, paths)
      ensures ok ==> PlannedUpTo(sha, files, contents, commits', paths + {f.path})
      ensures ok ==> !Refused(sha, irregular, files, contents, f)
      ensures !ok && !fault ==> Refused(sha, irregular, files, contents, f)
    {
      commits', fault := commits, false;
      var fails: bool := *;
      if fails { return false, commits, true; }
      if f.path in irregular { return false, commits, false; }
      if Target(f.path) in files {
        var same := FilesEqual(files[Staged(f.path)], files[Target(f.path)]);
        if same {
          PlanSkip(sha, files, contents, commits, paths, f.path);
        } else {
          if !f.replaceExisting { return false, commits, false; }
          PlanSnoc(sha, files, contents, commits, paths, Replace(f.path, |commits|));
          commits' := commits + [Replace(f.path, |commits|)];
        }
      } else {
        PlanSnoc(sha, files, contents, commits, paths, Create(f.path));
        commits' := commits + [Create(f.path)];
      }
      ok := true;
    }

    /** One commit: a create is one rename, a replace first moves the original into its backup. */
    method ApplyOne(c: Commit, applied: seq<Commit>, content: Content, ghost before: Files)
      returns (ok: bool, applied': seq<Commit>)
      requires Applied(before, files, applied) && Distinct(applied + [c])
      requires SameAt(before, files, c.path) && (c.Replace? <==> Target(c.path) in before)
      requires Staged(c.path) in files && files[Staged(c.path)] == content
      modifies this
      ensures Applied(before, files, applied')
      ensures ok ==> applied' == applied + [c] && Target(c.path) in files && files[Target(c.path)] == content
      ensures ok ==> forall p: string :: p != c.path ==> Elsewhere(old(files), files, p)
      ensures faults >= old(faults) && (!ok ==> faults > old(faults))
    {
      applied' := applied;
      var aborted: bool := *;
      if aborted {
        faults := faults + 1;
        return false, applied';
      }
      ghost var now := files;
      if c.Create? {
        var done := Rename(Staged(c.path), Target(c.path));
        if !done { return false, applied'; }
        AppliedSnoc(before, now, files, applied, c);
        applied' := applied + [c];
      } else {
        var done := Rename(Target(c.path), Backup(c.backup));
        if !done { return false, applied'; }
        AppliedSnoc(before, now, files, applied, c);
        applied' := applied + [c];
        aborted := *;
        if aborted {
          faults := faults + 1;
          return false, applied';
        }
        ghost var held := files;
        done := Rename(Staged(c.path), Target(c.path));
        if !done { return false, applied'; }
        assert applied'[|applied|] == c;
        AppliedFill(before, held, files, applied', c.path);
      }
      ok := true;
    }

    /** The commit loop; `applied` lists what rollback has to undo. */
    method ApplyAll(commits: seq<Commit>, contents: map<string, Content>) returns (ok: bool, applied: seq<Commit>)
      requires Planned(sha, files, contents, commits)
      modifies this
      ensures Applied(old(files), files, applied)
      ensures ok ==> applied == commits && forall x :: 0 <= x < |commits| ==> Landed(files, contents, commits[x])
      ensures faults >= old(faults) && (!ok ==> faults > old(faults))
    {
      ghost var before := files;
      applied := [];
      for i := 0 to |commits|
        invariant faults >= old(faults)
        invariant applied == commits[..i] && Applied(before, files, applied)
        invariant forall x :: 0 <= x < i ==> Landed(files, contents, commits[x])
        invariant forall x :: i <= x < |commits| ==> Waiting(files, contents, commits[x])
      {
        var c := commits[i];
        assert NeedsCommit(sha, before, contents, c) && Waiting(files, contents, c);
        assert commits[..i] + [c] == commits[..i + 1];
        Untouched(before, files, commits, i);
        ghost var held := files;
        ok, applied := ApplyOne(c, applied, contents[c.path], before);
        if !ok { return; }
        forall x | 0 <= x < |commits| && x != i ensures Elsewhere(held, files, commits[x].path) {
          assert commits[x].path != c.path;
        }
      }
      assert commits[..|commits|] == commits;
      ok := true;
    }

    /** Undo one commit; a replace that cannot be restored leaves its original in the backup. */
    method UndoOne(c: Commit, ghost before: Files) returns (ok: bool)
      requires CommitOk(before, files, c)
      modifies this
      ensures ok ==> SameAt(before, files, c.path)
      ensures !ok ==> CommitOk(before, files, c)
      ensures forall p: string :: p != c.path ==> SameAt(old(files), files, p)
      ensures forall n :: Backup(n) in old(files) && (c.Create? || n != c.backup) ==>
                Backup(n) in files && files[Backup(n)] == old(files)[Backup(n)]
      ensures faults >= old(faults) && (!ok ==> faults > old(faults))
    {
      ok := Remove(Target(c.path));
      if ok && c.Replace? {
        ok := Rename(Backup(c.backup), Target(c.path));
      }
    }

    /** rollbackBootstrapCommits: newest first, collecting errors instead of stopping. */
    method Rollback(applied: seq<Commit>, ghost before: Files) returns (ok: bool)
      requires Applied(before, files, applied)
      modifies this
      ensures ok ==> SameTargets(before, files)
      ensures forall p: string :: OriginalKept(before, files, p)
      ensures faults >= old(faults) && (!ok ==> faults > old(faults))
    {
      ok := true;
      var i := |applied|;
      while i > 0
        invariant faults >= old(faults) && (!ok ==> faults > old(faults))
        invariant 0 <= i <= |applied|
        invariant forall x :: 0 <= x < i ==> CommitOk(before, files, applied[x])
        invariant forall x :: i <= x < |applied| ==> Settled(before, files, applied[x], ok)
        invariant forall p: string :: !Touches(applied, p) ==> SameAt(before, files, p)
      {
        i := i - 1;
        var c := applied[i];
        ghost var held := files;
        var done := UndoOne(c, before);
        forall x | 0 <= x < |applied| && x != i
          ensures CommitOk(before, held, applied[x]) ==> CommitOk(before, files, applied[x])
          ensures SameAt(held, files, applied[x].path)
        {
          assert applied[x].path != c.path;
        }
        forall p: string | !Touches(applied, p) ensures SameAt(before, files, p) {
          assert applied[i].path == c.path;
          assert SameAt(before, held, p) && SameAt(held, files, p);
        }
        ok := ok && done;
      }
      forall p: string ensures OriginalKept(before, files, p) && (ok ==> SameAt(before, files, p)) {
        if Touches(applied, p) {
          var x :| 0 <= x < |applied| && applied[x].path == p;
          assert Settled(before, files, applied[x], ok);
        }
      }
    }

    /** Recursive removal of the staging directory; a failure may leave any part of it behind. */
    method RemoveStaging() returns (ok: bool)
      modifies this
      ensures SameTargets(old(files), files)
      ensures ok ==> forall l :: l in files ==> l.Target?
      ensures faults >= old(faults) && (!ok ==> faults > old(faults))
    {
      ok := *;
      if !ok { faults := faults + 1; }
      var left: set<Location> := *;
      files := map l | l in files && (l.Target? || (!ok && l in left)) :: files[l];
    }

    /** Staging, planning and committing an accepted list; `contents` is what was staged for each path. */
    method CommitPrepared(prepared: seq<BootstrapFile>, task: TaskType)
      returns (outcome: Outcome, cleaned: bool, contents: map<string, Content>, ghost sizes: seq<nat>)
      requires forall l :: l in files ==> l.Target?
      modifies this
      ensures |sizes| <= |prepared| && !outcome.Rejected?
      ensures outcome.Committed? ==> StagedTo(sha, prepared, |prepared|, contents, sizes) && !Exceeds(task, prepared, sizes)
      ensures outcome.Committed? ==> Overridden(sha, old(files), files, contents)
      ensures outcome.RolledBack? ==> SameTargets(old(files), files)
      ensures outcome.RollbackIncomplete? ==> forall p: string :: OriginalKept(old(files), files, p)
      ensures cleaned ==> forall l :: l in files ==> l.Target?
      ensures outcome.Committed? ==> !AnyRefused(sha, irregular, old(files), contents, prepared)
      ensures !outcome.Committed? && faults == old(faults) ==>
                || !PathsDistinct(prepared) || AnyRefused(sha, irregular, old(files), contents, prepared)
                || Exceeds(task, prepared, sizes)
      ensures outcome.RollbackIncomplete? || !cleaned ==> faults > old(faults)
    {
      ghost var before := files;
      var ok: bool;
      ok, contents, sizes := StageAll(prepared, task);
      assert prepared[..|prepared|] == prepared;
      RefusedSame(sha, irregular, before, files, contents, prepared);
      ghost var fault := false;
      var commits: seq<Commit> := [];
      var applied: seq<Commit> := [];
      ghost var staged := files;
      if ok {
        ok, commits, fault := Plan(prepared, contents);
        if fault { faults := faults + 1; }
      }
      if ok { ok, applied := ApplyAll(commits, contents); }
      else { assert Applied(staged, files, applied); }
      if ok {
        PlanOverrides(sha, before, staged, files, contents, commits);
        outcome := Committed;
        ghost var done := files;
        cleaned := RemoveStaging();
        OverriddenStays(sha, before, done, files, contents);
      } else {
        outcome, cleaned := Recover(applied, before, staged);
      }
    }

    /** The error path: roll back, and keep the staging directory only if that fails. */
    method Recover(applied: seq<Commit>, ghost before: Files, ghost staged: Files) returns (outcome: Outcome, cleaned: bool)
      requires SameTargets(before, staged) && Applied(staged, files, applied)
      modifies this
      ensures outcome.RolledBack? || outcome.RollbackIncomplete?
      ensures outcome.RolledBack? ==> SameTargets(before, files)
      ensures outcome.RollbackIncomplete? ==> forall p: string :: OriginalKept(before, files, p)
      ensures cleaned ==> forall l :: l in files ==> l.Target?
      ensures faults >= old(faults) && (outcome.RollbackIncomplete? || !cleaned ==> faults > old(faults))
    {
      var restored := Rollback(applied, staged);
      KeptFromStaged(before, staged, files);
      if restored {
        outcome := RolledBack;
        ghost var done := files;
        cleaned := RemoveStaging();
        SameTargetsTransitive(before, staged, done);
        SameTargetsTransitive(before, done, files);
      } else {
        outcome, cleaned := RollbackIncomplete, false;
      }
    }

    /**
     materializeBootstrapFiles, preflight included.  The source's promise rejects exactly when
     `!outcome.Committed? || !cleaned`.
     */
    method MaterializeBootstrapFiles(input: seq<BootstrapFile>, task: TaskType, lower: string -> string)
      returns (outcome: Outcome, cleaned: bool, contents: map<string, Content>, ghost sizes: seq<nat>)
      requires Preflight.KeepsRelative(lower) && forall l :: l in files ==> l.Target?
      modifies this
      ensures |sizes| <= |input|
      ensures outcome.Rejected? <==> !Preflight.Accepted(input, task, lower)
      ensures outcome.Rejected? || outcome.RolledBack? ==> SameTargets(old(files), files)
      ensures outcome.Committed? ==> StagedTo(sha, input, |input|, contents, sizes) && Overridden(sha, old(files), files, contents)
      ensures outcome.Committed? ==> forall p :: p in contents ==> Arrived(sha, old(files), files, p, contents[p])
      ensures outcome.Committed? ==> forall i :: 0 <= i < |input| ==> input[i].path in contents
      ensures outcome.Committed? ==> !Exceeds(task, input, sizes) && !AnyRefused(sha, irregular, old(files), contents, input)
      ensures outcome.RollbackIncomplete? ==> forall p: string :: OriginalKept(old(files), files, p)
      ensures cleaned ==> forall l :: l in files ==> l.Target?
      ensures !outcome.Committed? && !outcome.Rejected? && faults == old(faults) ==>
                AnyRefused(sha, irregular, old(files), contents, input) || Exceeds(task, input, sizes)
      ensures outcome.RollbackIncomplete? || !cleaned ==> faults > old(faults)
    {
      var prepared := Preflight.PreflightBootstrapFiles(input, task, lower);
      if prepared.Err? { return Rejected, true, map[], []; }
      AcceptedDistinct(input, lower);
      ghost var before := files;
      outcome, cleaned, contents, sizes := CommitPrepared(prepared.value, task);
      if outcome.Committed? { CommittedMeans(sha, before, files, contents); }
    }
  }

  /** Distinct keys come from distinct paths. */
  lemma AcceptedDistinct(files: seq<BootstrapFile>, lower: string -> string)
    requires Preflight.KeysDistinct(files, lower)
    ensures PathsDistinct(files)
  {
    forall i, j | 0 <= i < j < |files| ensures files[i].path != files[j].path {
      assert lower(files[i].path) != lower(files[j].path);
    }
  }

  // ----- facts used by the method, and what its outcome means -----

  lemma SameTargetsTransitive(a: Files, b: Files, c: Files)
    requires SameTargets(a, b) && SameTargets(b, c)
    ensures SameTargets(a, c)
  {
    forall p: string ensures SameAt(a, c, p) { assert SameAt(a, b, p) && SameAt(b, c, p); }
  }

  lemma KeptFromStaged(before: Files, staged: Files, after: Files)
    requires SameTargets(before, staged) && forall p: string :: OriginalKept(staged, after, p)
    ensures forall p: string :: OriginalKept(before, after, p)
  {
    forall p: string ensures OriginalKept(before, after, p) {
      assert SameAt(before, staged, p) && OriginalKept(staged, after, p);
    }
  }

  lemma PlanOverrides(sha: Content -> Digest, before: Files, staged: Files, after: Files,
                      contents: map<string, Content>, commits: seq<Commit>)
    requires SameTargets(before, staged) && Planned(sha, staged, contents, commits) && Applied(staged, after, commits)
    requires forall x :: 0 <= x < |commits| ==> Landed(after, contents, commits[x])
    ensures Overridden(sha, before, after, contents)
  {
    forall p: string
      ensures if p !in contents || (Target(p) in before && LooksEqual(sha, contents[p], before[Target(p)]))
              then SameAt(before, after, p) else Target(p) in after && after[Target(p)] == contents[p]
    {
      assert SameAt(before, staged, p);
      if Touches(commits, p) {
        var x :| 0 <= x < |commits| && commits[x].path == p;
        assert NeedsCommit(sha, staged, contents, commits[x]) && Landed(after, contents, commits[x]);
      } else {
        assert SameAt(staged, after, p);
      }
    }
  }

  lemma OverriddenStays(sha: Content -> Digest, before: Files, now: Files, after: Files, contents: map<string, Content>)
    requires Overridden(sha, before, now, contents) && SameTargets(now, after)
    ensures Overridden(sha, before, after, contents)
  {
    forall p: string
      ensures if p !in contents || (Target(p) in before && LooksEqual(sha, contents[p], before[Target(p)]))
              then SameAt(before, after, p) else Target(p) in after && after[Target(p)] == contents[p]
    {
      assert SameAt(now, after, p);
    }
  }

  /** Whatever was skipped or written, each received file is at its target with its size and digest. */
  lemma CommittedMeans(sha: Content -> Digest, before: Files, after: Files, contents: map<string, Content>)
    requires Overridden(sha, before, after, contents)
    ensures forall p :: p in contents ==> Arrived(sha, before, after, p, contents[p])
  {
  }

  /** Success is the exact override of the old files precisely when no skipped target is a digest collision. */
  lemma ExactUnlessCollision(sha: Content -> Digest, before: Files, after: Files, contents: map<string, Content>)
    requires Overridden(sha, before, after, contents)
    ensures (forall p :: p in contents ==> Target(p) in after && after[Target(p)] == contents[p]) <==>
            (forall p :: p in contents && Target(p) in before && |before[Target(p)]| == |contents[p]| ==>
               sha(before[Target(p)]) == sha(contents[p]) ==> before[Target(p)] == contents[p])
  {
  }
}
