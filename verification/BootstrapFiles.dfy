/** Bootstrap files and their size limits (runtime-claude/src/bootstrap.ts, runtime-claude/src/workspace.ts). */
module BootstrapFiles {
  import opened Prelude

  type Content = seq<nat>
  type Digest = nat

  datatype Source = Inline(text: Content) | Remote

  /** `wellFormed` stands for the checks of field names, mode, digest syntax, URL, per-file limits and permission to replace. */
  datatype BootstrapFile = BootstrapFile(
    path: string, source: Source, maxBytes: nat, expectedSize: Option<nat>, sha: Option<Digest>, replaceExisting: bool,
    wellFormed: bool)

  datatype TaskType = Hypit | VideoEdit | OtherTask

  /** All files together: 2.5 GiB, 1 GiB and 2 MiB, or 512 MiB. */
  ghost function TotalLimit(task: TaskType): nat {
    match task
    case Hypit => 5 * 512 * 1024 * 1024
    case VideoEdit => 1024 * 1024 * 1024 + 2 * 1024 * 1024
    case OtherTask => 512 * 1024 * 1024
  }

  /** The media files together: 512 MiB or 1 GiB. */
  ghost function MediaLimit(task: TaskType): nat {
    match task
    case Hypit => 512 * 1024 * 1024
    case VideoEdit => 1024 * 1024 * 1024
    case OtherTask => 0
  }

  ghost predicate IsMedia(task: TaskType, path: string) {
    match task
    case Hypit => "project/assets/" <= path
    case VideoEdit => ".anban-creator/video-edit-assets/" <= path
    case OtherTask => false
  }

  /** The sizes of the first files, all of them or the media only. */
  ghost function Total(sizes: seq<nat>): nat { if sizes == [] then 0 else Total(sizes[..|sizes| - 1]) + sizes[|sizes| - 1] }

  ghost function MediaTotal(task: TaskType, files: seq<BootstrapFile>, sizes: seq<nat>): nat
    requires |sizes| <= |files|
  {
    if sizes == [] then 0
    else
      var n := |sizes| - 1;
      MediaTotal(task, files, sizes[..n]) + if IsMedia(task, files[n].path) then sizes[n] else 0
  }

  /** The sizes so far are over one of the limits. */
  ghost predicate Exceeds(task: TaskType, files: seq<BootstrapFile>, sizes: seq<nat>)
    requires |sizes| <= |files|
  {
    Total(sizes) > TotalLimit(task) || MediaTotal(task, files, sizes) > MediaLimit(task)
  }

  lemma TotalsSnoc(task: TaskType, files: seq<BootstrapFile>, sizes: seq<nat>, size: nat)
    requires |sizes| < |files|
    ensures Total(sizes + [size]) == Total(sizes) + size
    ensures MediaTotal(task, files, sizes + [size]) ==
      MediaTotal(task, files, sizes) + if IsMedia(task, files[|sizes|].path) then size else 0
    ensures Exceeds(task, files, sizes) ==> Exceeds(task, files, sizes + [size])
  {
    assert (sizes + [size])[..|sizes|] == sizes;
  }

  /** Once over a limit, always over it. */
  lemma {:induction false} ExceedsStays(task: TaskType, files: seq<BootstrapFile>, sizes: seq<nat>, n: nat)
    requires n <= |sizes| <= |files| && Exceeds(task, files, sizes[..n])
    ensures Exceeds(task, files, sizes)
    decreases |sizes| - n
  {
    if n < |sizes| {
      TotalsSnoc(task, files, sizes[..n], sizes[n]);
      assert sizes[..n] + [sizes[n]] == sizes[..n + 1];
      ExceedsStays(task, files, sizes, n + 1);
    } else {
      assert sizes[..n] == sizes;
    }
  }

  /** What preflight knows of a file's size. */
  ghost function KnownSize(f: BootstrapFile): nat {
    if f.expectedSize.Some? then f.expectedSize.value else if f.source.Inline? then |f.source.text| else 0
  }

  ghost function KnownSizes(files: seq<BootstrapFile>, n: nat): seq<nat>
    requires n <= |files|
  {
    seq(n, i requires 0 <= i < n => KnownSize(files[i]))
  }
}
