/** The artifact upload loop (runtime-claude/src/artifacts.ts), on top of the retry engine. */
module Artifacts {
  import opened Prelude
  import opened Transport

  const SNAPSHOT_ATTEMPTS: nat := 3

  // ----- one direct upload -----

  /** A reply to prepareArtifactUpload; `expiring` when its signature has less than five seconds left. */
  datatype Prepared = Refused(why: Caught) | Prepared(key: string, uploadRequired: bool, maxSize: nat, expiring: bool)

  /** The replies to the successive prepare and put calls, and whether the signal fires before a refresh. */
  datatype Store = Store(prepare: nat -> Prepared, put: nat -> Option<Caught>, abortedAtRefresh: bool)

  ghost predicate Expired(e: Caught) { e.Typed? && e.failure.code == SignatureExpired }

  /** The first reply allows the upload; replies to a refresh are not checked again. */
  ghost predicate Admitted(p: Prepared, size: nat) { p.Prepared? && p.key != "" && !(p.uploadRequired && size > p.maxSize) }

  /** The store ends up with the object under a usable signature. */
  ghost predicate Delivered(s: Store, size: nat) {
    var first, second := s.prepare(0), s.prepare(1);
    var renewed := !s.abortedAtRefresh && second.Prepared?;
    && Admitted(first, size)
    && (first.uploadRequired ==>
          if first.expiring then renewed && (second.uploadRequired ==> s.put(0).None?)
          else s.put(0).None? || (Expired(s.put(0).value) && renewed && (second.uploadRequired ==> s.put(1).None?)))
  }

  /**
   The direct branch of uploadArtifact.  The signature is refreshed at most once, an expiring one is
   never used first, and a second put happens only after the first found its signature expired.
   */
  method UploadDirect(s: Store, size: nat) returns (r: Result<string, Caught>, prepares: nat, puts: nat)
    ensures 1 <= prepares <= 2 && puts <= 2
    ensures r.Ok? <==> Delivered(s, size)
    ensures r.Ok? ==> Admitted(s.prepare(0), size) && s.prepare(prepares - 1).Prepared? && r.value == s.prepare(prepares - 1).key
    ensures r.Ok? && s.prepare(prepares - 1).uploadRequired ==> puts > 0 && s.put(puts - 1).None?
    ensures puts > 0 && prepares == 1 ==> s.prepare(0).Prepared? && !s.prepare(0).expiring
    ensures puts == 2 ==> prepares == 2 && s.prepare(0).Prepared? && !s.prepare(0).expiring && s.put(0).Some? && Expired(s.put(0).value)
    ensures r.Err? && puts > 0 && s.put(puts - 1).Some? && Expired(s.put(puts - 1).value) && !s.abortedAtRefresh ==> prepares == 2
  {
    prepares, puts := 1, 0;
    var prepared := s.prepare(0);
    if prepared.Refused? { return Err(prepared.why), prepares, puts; }
    if prepared.key == "" || (prepared.uploadRequired && size > prepared.maxSize) { return Err(Other), prepares, puts; }
    var refreshed := false;
    if prepared.uploadRequired && prepared.expiring {
      if s.abortedAtRefresh { return Err(Other), prepares, puts; }
      prepared, prepares := s.prepare(1), 2;
      if prepared.Refused? { return Err(prepared.why), prepares, puts; }
      refreshed := true;
    }
    if prepared.uploadRequired {
      var error := s.put(0);
      puts := 1;
      if error.Some? {
        if !error.value.Typed? || error.value.failure.code != SignatureExpired || refreshed { return Err(error.value), prepares, puts; }
        if s.abortedAtRefresh { return Err(Other), prepares, puts; }
        prepared, prepares := s.prepare(1), 2;
        if prepared.Refused? { return Err(prepared.why), prepares, puts; }
        if prepared.uploadRequired {
          error := s.put(1);
          puts := 2;
          if error.Some? { return Err(error.value), prepares, puts; }
        }
      }
    }
    return Ok(prepared.key), prepares, puts;
  }

  // ----- snapshots of one artifact -----

  /** One pass: taking the snapshot may fail; otherwise what the transfer did and whether the file was still the same after it. */
  datatype Pass = Unreadable(why: Caught) | Taken(sent: Result<string, Caught>, stable: bool)

  /** The file changed under the pass, so another snapshot is worth taking. */
  ghost predicate Changed(p: Pass) {
    p.Taken? && match p.sent case Ok(_) => !p.stable case Err(e) => e.Typed? && e.failure.code == IntegrityMismatch
  }

  ghost predicate Stored(p: Pass, key: string) { p == Taken(Ok(key), true) }

  ghost predicate StoredAt(passes: nat -> Pass, k: nat, key: string) {
    k < 3 && Stored(passes(k), key) && forall j :: 0 <= j < k ==> Changed(passes(j))
  }

  /** After passes that only saw it change, pass k fails for good, or the third has seen it change too. */
  ghost predicate FailsAt(passes: nat -> Pass, k: nat, error: Caught) {
    && k < 3 && (forall j :: 0 <= j < k ==> Changed(passes(j)))
    && match passes(k)
       case Unreadable(why) => error == why
       case Taken(Err(why), _) => error == why && (k == 2 || !Changed(passes(k)))
       case Taken(Ok(_), stable) => error == Other && k == 2 && !stable
  }

  /**
   uploadArtifact: at most three snapshots; success exactly when some pass stores
   an unchanged file after passes that only saw it change.
   */
  method UploadArtifact(passes: nat -> Pass, abortedAt: nat -> bool) returns (r: Result<string, Caught>, snapshots: nat)
    ensures snapshots <= 3
    ensures r.Ok? ==> snapshots > 0 && StoredAt(passes, snapshots - 1, r.value)
    ensures (forall k :: !abortedAt(k)) ==> forall k: nat, key :: StoredAt(passes, k, key) ==> r == Ok(key)
    ensures (forall k :: !abortedAt(k)) && r.Err? ==> exists k :: FailsAt(passes, k, r.error)
  {
    snapshots := 0;
    for i := 0 to SNAPSHOT_ATTEMPTS
      invariant snapshots == i
      invariant forall j :: 0 <= j < i ==> Changed(passes(j))
      invariant i == SNAPSHOT_ATTEMPTS ==> passes(2).Taken? && passes(2).sent.Ok?
    {
      if abortedAt(i) { return Err(Other), snapshots; }
      var p := passes(i);
      if p.Unreadable? {
        OnlyHere(passes, i);
        assert FailsAt(passes, i, p.why);
        return Err(p.why), snapshots;
      }
      snapshots := snapshots + 1;
      if p.sent.Err? && (!p.sent.error.Typed? || p.sent.error.failure.code != IntegrityMismatch || i == SNAPSHOT_ATTEMPTS - 1) {
        OnlyHere(passes, i);
        assert FailsAt(passes, i, p.sent.error);
        return Err(p.sent.error), snapshots;
      }
      if p.sent.Ok? && p.stable {
        assert StoredAt(passes, i, p.sent.value);
        OnlyHere(passes, i);
        return Ok(p.sent.value), snapshots;
      }
    }
    assert FailsAt(passes, 2, Other);
    return Err(Other), snapshots;
  }

  lemma OnlyHere(passes: nat -> Pass, i: nat)
    requires forall j :: 0 <= j < i ==> Changed(passes(j))
    ensures forall k: nat, key :: StoredAt(passes, k, key) ==> k >= i && (k > i ==> Changed(passes(i)))
  {
  }

  // ----- all artifacts -----

  datatype ManifestFile = ManifestFile(path: string, key: string)

  datatype UploadFailure = UploadFailure(path: string, code: Code)

  datatype Summary = Summary(uploaded: nat, failures: seq<UploadFailure>)

  function FilePaths(files: seq<ManifestFile>): seq<string> { seq(|files|, i requires 0 <= i < |files| => files[i].path) }

  function FailurePaths(failures: seq<UploadFailure>): seq<string> {
    seq(|failures|, i requires 0 <= i < |failures| => failures[i].path)
  }

  /** c is an order-preserving merge of a and b. */
  ghost predicate Merged<T>(a: seq<T>, b: seq<T>, c: seq<T>)
    decreases |c|
  {
    if c == [] then a == [] && b == []
    else
      var n := |c| - 1;
      || (a != [] && a[|a| - 1] == c[n] && Merged(a[..|a| - 1], b, c[..n]))
      || (b != [] && b[|b| - 1] == c[n] && Merged(a, b[..|b| - 1], c[..n]))
  }

  lemma MergedSnoc<T>(a: seq<T>, b: seq<T>, c: seq<T>, x: T)
    requires Merged(a, b, c)
    ensures Merged(a + [x], b, c + [x]) && Merged(a, b + [x], c + [x])
  {
    assert (a + [x])[..|a|] == a && (b + [x])[..|b|] == b && (c + [x])[..|c|] == c;
  }

  lemma {:induction false} MergedSum<T>(a: seq<T>, b: seq<T>, c: seq<T>)
    requires Merged(a, b, c)
    ensures multiset(a) + multiset(b) == multiset(c)
    decreases |c|
  {
    if c != [] {
      var n := |c| - 1;
      assert c == c[..n] + [c[n]];
      if a != [] && a[|a| - 1] == c[n] && Merged(a[..|a| - 1], b, c[..n]) {
        MergedSum(a[..|a| - 1], b, c[..n]);
        assert a == a[..|a| - 1] + [c[n]];
      } else {
        MergedSum(a, b[..|b| - 1], c[..n]);
        assert b == b[..|b| - 1] + [c[n]];
      }
    }
  }

  /** Nothing is lost or added, and with distinct paths nothing is on both sides. */
  lemma MergedPartitions<T>(a: seq<T>, b: seq<T>, c: seq<T>)
    requires Merged(a, b, c)
    ensures multiset(a) + multiset(b) == multiset(c)
    ensures (forall i, j :: 0 <= i < j < |c| ==> c[i] != c[j]) ==> forall x :: x in a ==> x !in b
  {
    MergedSum(a, b, c);
    if forall i, j :: 0 <= i < j < |c| ==> c[i] != c[j] { MergedDisjoint(a, b, c); }
  }

  lemma MergedDisjoint<T>(a: seq<T>, b: seq<T>, c: seq<T>)
    requires multiset(a) + multiset(b) == multiset(c) && forall i, j :: 0 <= i < j < |c| ==> c[i] != c[j]
    ensures forall x :: x in a ==> x !in b
  {
    forall x | x in a && x in b ensures false {
      assert multiset(a)[x] >= 1 && multiset(b)[x] >= 1;
      Once(c, x);
    }
  }

  lemma {:induction false} Once<T>(c: seq<T>, x: T)
    requires forall i, j :: 0 <= i < j < |c| ==> c[i] != c[j]
    ensures multiset(c)[x] <= 1
  {
    if c != [] {
      var n := |c| - 1;
      Once(c[..n], x);
      assert c == c[..n] + [c[n]];
      if c[n] == x { assert x !in c[..n]; }
    }
  }

  /** What the outside world does to one artifact, and whether the signal has fired around it. */
  datatype Turn = Turn(result: Result<string, Caught>, abortedBefore: bool, abortedAfter: bool)

  /** Why the signal fires, and whether it has when the manifest report fails. */
  datatype Abort = Abort(mentionsDeadline: bool, atManifest: bool)

  /**
   uploadWorkspaceArtifacts after a scan that found `paths`.  Unless aborted or the manifest report
   fails (`reported`), every artifact is in exactly one of the reported manifest and the failures, in scan order.
   */
  method UploadWorkspaceArtifacts(paths: seq<string>, turns: nat -> Turn, reported: Option<Caught>, abort: Abort)
    returns (r: Result<Summary, Caught>, manifest: Option<seq<ManifestFile>>)
    ensures r.Ok? <==> reported.None? && forall i :: 0 <= i < |paths| ==> !Interrupted(turns(i))
    ensures r.Ok? ==>
      && manifest.Some? && r.value.uploaded == |manifest.value|
      && Merged(FilePaths(manifest.value), FailurePaths(r.value.failures), paths)
    ensures manifest.Some? ==> forall f :: f in manifest.value ==> exists i :: Uploads(paths, turns, i, f)
    ensures r.Ok? ==> forall f :: f in r.value.failures ==> exists i :: Fails(paths, turns, i, f)
    ensures manifest.Some? <==> forall i :: 0 <= i < |paths| ==> !Interrupted(turns(i))
    ensures forall i :: 0 <= i < |paths| && Interrupted(turns(i)) && (forall j :: 0 <= j < i ==> !Interrupted(turns(j))) ==>
      r.Err? && StopsWith(turns(i), abort, r.error)
    ensures manifest.Some? && reported.Some? ==>
      r == Err(if reported.value.Typed? then reported.value else if abort.atManifest then Aborted(abort) else Other)
  {
    var files: seq<ManifestFile> := [];
    var failures: seq<UploadFailure> := [];
    manifest := None;
    for i := 0 to |paths|
      invariant forall k :: 0 <= k < i ==> !Interrupted(turns(k))
      invariant Collected(paths, turns, i, files, failures)
    {
      var turn := turns(i);
      if turn.abortedBefore { return Err(AbortError(abort)), manifest; }
      if turn.result.Err? && turn.abortedAfter {
        return Err(if turn.result.error.Typed? then turn.result.error else AbortError(abort)), manifest;
      }
      files, failures := Record(paths, turns, i, files, failures);
    }
    assert paths[..|paths|] == paths;
    manifest := Some(files);
    if reported.Some? {
      if reported.value.Typed? { return Err(reported.value), manifest; }
      if abort.atManifest { return Err(AbortError(abort)), manifest; }
      return Err(Other), manifest;
    }
    return Ok(Summary(|files|, failures)), manifest;
  }

  /** The first n artifacts, each on its side. */
  ghost predicate Collected(paths: seq<string>, turns: nat -> Turn, n: nat, files: seq<ManifestFile>, failures: seq<UploadFailure>) {
    && n <= |paths| && Merged(FilePaths(files), FailurePaths(failures), paths[..n])
    && (forall f :: f in files ==> exists k :: Uploads(paths, turns, k, f))
    && (forall f :: f in failures ==> exists k :: Fails(paths, turns, k, f))
  }

  /** One artifact goes to the manifest or to the failures. */
  method Record(paths: seq<string>, turns: nat -> Turn, i: nat, files: seq<ManifestFile>, failures: seq<UploadFailure>)
    returns (files': seq<ManifestFile>, failures': seq<UploadFailure>)
    requires i < |paths| && Collected(paths, turns, i, files, failures)
    ensures Collected(paths, turns, i + 1, files', failures')
  {
    files', failures' := files, failures;
    var turn := turns(i);
    MergedSnoc(FilePaths(files), FailurePaths(failures), paths[..i], paths[i]);
    assert paths[..i] + [paths[i]] == paths[..i + 1];
    if turn.result.Ok? {
      var file := ManifestFile(paths[i], turn.result.value);
      assert Uploads(paths, turns, i, file);
      assert FilePaths(files + [file]) == FilePaths(files) + [paths[i]];
      files' := files + [file];
    } else {
      var normalized := NormalizeError(turn.result.error, false);
      NormalizeMeans(turn.result.error, false);
      var failure := UploadFailure(paths[i], normalized.code);
      assert Fails(paths, turns, i, failure);
      assert FailurePaths(failures + [failure]) == FailurePaths(failures) + [paths[i]];
      failures' := failures + [failure];
    }
  }

  /** throwIfTransferAborted */
  function AbortError(abort: Abort): Caught {
    var code := if abort.mentionsDeadline then DeadlineExceeded else Cancelled;
    Typed(Failure(code, false, 0.0))
  }

  /** A final error that says why the signal fired. */
  ghost function Aborted(abort: Abort): Caught {
    if abort.mentionsDeadline then Typed(Failure(DeadlineExceeded, false, 0.0)) else Typed(Failure(Cancelled, false, 0.0))
  }

  /** An artifact's own typed error is kept; otherwise the abort is the error. */
  ghost predicate StopsWith(t: Turn, abort: Abort, error: Caught) {
    error == if !t.abortedBefore && t.result.Err? && t.result.error.Typed? then t.result.error else Aborted(abort)
  }

  /** The signal fired before the artifact, or before its failure was recorded. */
  ghost predicate Interrupted(t: Turn) { t.abortedBefore || (t.result.Err? && t.abortedAfter) }

  ghost predicate Fails(paths: seq<string>, turns: nat -> Turn, i: nat, f: UploadFailure) {
    i < |paths| && f.path == paths[i] && turns(i).result.Err? && Blamed(turns(i).result.error, false, f.code)
  }

  ghost predicate Uploads(paths: seq<string>, turns: nat -> Turn, i: nat, f: ManifestFile) {
    i < |paths| && f.path == paths[i] && turns(i).result == Ok(f.key)
  }
}
