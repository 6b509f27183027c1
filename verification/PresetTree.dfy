/**
 Generation and checking of the DSH preset tree (server/agentpack/dsh_generate.go).

 Paths are relative to dsh/presets.  Creating, writing, renaming and removing may fail; reading
 does not.  Only one process writes the tree.
 */
module PresetTree {
  import opened Prelude

  type Path = seq<string>

  /** The numbers of the permission bits that are set: 0, 3 and 6 are the execute bits. */
  type Permissions = set<nat>

  /** Permission bits, and whether any of setuid, setgid, sticky is set. */
  datatype Mode = Mode(perm: Permissions, special: bool)

  datatype Node = Dir | File(body: seq<nat>, mode: Mode) | Link | Other

  /** A path component of the root itself (dsh, dsh/presets). */
  datatype Level = Absent | Directory | Unusable

  /** generatedPresetFile; its mode is permission bits only. */
  datatype Generated = Generated(body: seq<nat>, perm: Permissions)

  type Nodes = map<Path, Node>

  type Expected = map<Path, Generated>

  /** A regular file with the expected bytes, exactly the expected permissions and no special bit. */
  ghost predicate UpToDate(n: Node, g: Generated) { n == File(g.body, Mode(g.perm, false)) }

  /** The comparison in writeGeneratedFileIfChanged and checkDSHPresets. */
  method Matches(n: Node, g: Generated) returns (same: bool)
    ensures same <==> UpToDate(n, g)
  {
    if !n.File? || n.body != g.body { return false; }
    same := n.mode.perm == g.perm && !n.mode.special;
  }

  predicate Below(d: Path, p: Path) { |d| < |p| && p[..|d|] == d }

  /** Every entry sits in a directory. */
  ghost predicate WellFormed(nodes: Nodes) {
    forall p :: p in nodes ==> |p| > 0 && forall i :: 0 < i < |p| ==> p[..i] in nodes && nodes[p[..i]].Dir?
  }

  /** generatedPresetDirectories: all proper ancestors of expected files. */
  ghost predicate ExpectedDir(expected: Expected, d: Path) {
    |d| > 0 && exists p :: p in expected && Below(d, p)
  }

  ghost predicate Keys(expected: Expected) { forall p :: p in expected ==> |p| > 0 }

  /** No expected file is an ancestor of another. */
  ghost predicate Antichain(expected: Expected) {
    forall p, q :: p in expected && q in expected ==> !Below(p, q)
  }

  /** checkDSHPresets finds no drift. */
  ghost predicate Accepts(expected: Expected, nodes: Nodes) {
    && (forall p :: p in nodes ==>
          if nodes[p].Dir? then ExpectedDir(expected, p) else p in expected && UpToDate(nodes[p], expected[p]))
    && (forall p :: p in expected ==> p in nodes && !nodes[p].Dir?)
  }

  /** The accepted tree is unique, so accepting means being exactly the generated tree. */
  lemma AcceptedIsUnique(expected: Expected, a: Nodes, b: Nodes)
    requires WellFormed(a) && WellFormed(b) && Accepts(expected, a) && Accepts(expected, b)
    ensures a == b
  {
    forall p | p in a ensures p in b && a[p] == b[p] { AcceptedSame(expected, a, b, p); }
    forall p | p in b ensures p in a { AcceptedSame(expected, b, a, p); }
  }

  lemma AcceptedSame(expected: Expected, a: Nodes, b: Nodes, p: Path)
    requires WellFormed(a) && WellFormed(b) && Accepts(expected, a) && Accepts(expected, b) && p in a
    ensures p in b && a[p] == b[p]
  {
  }

  /** With a file above a file no tree can be accepted. */
  lemma NoTreeWithoutAntichain(expected: Expected, nodes: Nodes)
    requires WellFormed(nodes) && Keys(expected) && !Antichain(expected)
    ensures !Accepts(expected, nodes)
  {
  }

  ghost predicate Parented(nodes: Nodes, p: Path) {
    |p| > 0 && forall i :: 0 < i < |p| ==> p[..i] in nodes && nodes[p[..i]].Dir?
  }

  /** nodes without p and everything below it */
  function Pruned(nodes: Nodes, p: Path): Nodes {
    map q | q in nodes && q != p && !Below(p, q) :: nodes[q]
  }

  lemma PrunedWellFormed(nodes: Nodes, p: Path)
    requires WellFormed(nodes)
    ensures WellFormed(Pruned(nodes, p))
  {
  }

  lemma PlacedWellFormed(nodes: Nodes, p: Path, n: Node)
    requires WellFormed(nodes) && Parented(nodes, p) && (n.Dir? || forall q :: q in nodes ==> !Below(p, q))
    ensures WellFormed(nodes[p := n])
  {
  }

  ghost predicate SameExceptAbove(before: Nodes, nodes: Nodes, p: Path) {
    forall q :: !Below(q, p) ==> (q in nodes <==> q in before) && (q in nodes ==> nodes[q] == before[q])
  }

  ghost predicate DirsKept(before: Nodes, nodes: Nodes) {
    forall q :: q in before && before[q].Dir? ==> q in nodes && nodes[q].Dir?
  }

  /** Every symbolic link was there before. */
  ghost predicate LinksFrom(before: Nodes, nodes: Nodes) {
    forall q :: q in nodes && nodes[q].Link? ==> q in before && before[q].Link?
  }

  ghost predicate LinkAbove(nodes: Nodes, p: Path) { exists d :: d in nodes && nodes[d].Link? && |d| > 0 && Below(d, p) }

  /** A symbolic link stands where an expected file needs a directory; the generator refuses to replace it. */
  ghost predicate LinkedDirectory(expected: Expected, nodes: Nodes) {
    exists d :: d in nodes && nodes[d].Link? && ExpectedDir(expected, d)
  }

  /** Putting a directory at a proper prefix of p. */
  lemma NewDirectory(before: Nodes, nodes: Nodes, p: Path, i: nat)
    requires 0 < i < |p| && SameExceptAbove(before, nodes, p) && DirsKept(before, nodes)
    ensures var d := p[..i]; var next := nodes[d := Dir];
      && SameExceptAbove(before, next, p)
      && DirsKept(before, next)
      && (nodes == next || next != before)
      && (Parented(before, p) && nodes == before ==> next == before)
  {
  }

  /** `faults` counts the operations that failed. */
  class Tree {
    var dsh: Level
    var presets: Level
    var nodes: Nodes
    ghost var faults: nat

    ghost predicate Valid()
      reads this
    {
      WellFormed(nodes) && (!presets.Directory? ==> nodes == map[]) && (dsh.Absent? ==> presets.Absent?)
    }

    /** openGeneratedPresetTree: `found` is false when a level is missing and may not be created. */
    method Open(create: bool) returns (ok: bool, found: bool, changed: bool)
      requires Valid()
      modifies this`dsh, this`presets, this`faults
      ensures Valid()
      ensures ok && found ==> dsh.Directory? && presets.Directory?
      ensures ok ==> (found <==> create || (old(dsh).Directory? && old(presets).Directory?))
      ensures ok && !found ==> dsh == old(dsh) && presets == old(presets) && old(presets).Absent? && !changed
      ensures ok && found ==> (changed <==> !(old(dsh).Directory? && old(presets).Directory?))
      ensures !create ==> dsh == old(dsh) && presets == old(presets)
      ensures ok ==> !old(dsh).Unusable? && (old(dsh).Absent? || !old(presets).Unusable?)
      ensures faults >= old(faults) && (!ok ==> faults > old(faults) || old(dsh).Unusable? || old(presets).Unusable?)
    {
      changed := false;
      if dsh.Unusable? { return false, false, false; }
      if dsh.Absent? {
        if !create { return true, false, false; }
        var fails: bool := *;
        if fails {
          faults := faults + 1;
          return false, false, false;
        }
        dsh, changed := Directory, true;
      }
      if presets.Unusable? { return false, false, changed; }
      if presets.Absent? {
        if !create { return true, false, false; }
        var fails: bool := *;
        if fails {
          faults := faults + 1;
          return false, false, changed;
        }
        presets, changed := Directory, true;
      }
      return true, true, changed;
    }

    /** ensureGeneratedDirectory */
    method EnsureDirectory(d: Path) returns (ok: bool, changed: bool)
      requires Valid() && presets.Directory? && Parented(nodes, d)
      modifies this`nodes, this`faults
      ensures Valid()
      ensures ok ==> d in nodes && nodes[d].Dir? && nodes == old(nodes)[d := Dir]
      ensures ok ==> (changed <==> nodes != old(nodes))
      ensures LinksFrom(old(nodes), nodes) && faults >= old(faults)
      ensures !ok ==> faults > old(faults) || (d in old(nodes) && old(nodes)[d].Link?)
    {
      if d !in nodes {
        var fails: bool := *;
        if fails {
          faults := faults + 1;
          return false, false;
        }
        PlacedWellFormed(nodes, d, Dir);
        nodes := nodes[d := Dir];
        return true, true;
      }
      if nodes[d].Dir? { return true, false; }
      if nodes[d].Link? { return false, false; }
      // RemoveAll of a non-directory removes just that entry; Mkdir puts a directory in its place.
      var fails: bool := *;
      if fails {
        faults := faults + 1;
        return false, false;
      }
      var unmade: bool := *;
      if unmade {
        PrunedWellFormed(nodes, d);
        nodes, faults := Pruned(nodes, d), faults + 1;
        return false, false;
      }
      PlacedWellFormed(nodes, d, Dir);
      nodes := nodes[d := Dir];
      return true, true;
    }

    /** ensureGeneratedParent: every proper prefix of p becomes a directory; nothing else changes. */
    method EnsureParent(p: Path) returns (ok: bool, changed: bool)
      requires Valid() && presets.Directory? && |p| > 0
      modifies this`nodes, this`faults
      ensures Valid()
      ensures ok ==> Parented(nodes, p)
      ensures ok ==> SameExceptAbove(old(nodes), nodes, p)
      ensures ok ==> (changed <==> nodes != old(nodes))
      ensures ok && Parented(old(nodes), p) ==> nodes == old(nodes)
      ensures LinksFrom(old(nodes), nodes) && faults >= old(faults)
      ensures !ok ==> faults > old(faults) || LinkAbove(old(nodes), p)
    {
      changed := false;
      ok := true;
      ghost var before := nodes;
      var i := 1;
      while i < |p|
        invariant 1 <= i <= |p| && Valid() && presets.Directory?
        invariant forall j :: 0 < j < i ==> p[..j] in nodes && nodes[p[..j]].Dir?
        invariant SameExceptAbove(before, nodes, p)
        invariant Parented(before, p) ==> nodes == before
        invariant changed <==> nodes != before
        invariant DirsKept(before, nodes)
        invariant LinksFrom(before, nodes) && faults >= old(faults)
      {
        var d := p[..i];
        assert forall j :: 0 < j < i ==> d[..j] == p[..j];
        ghost var held := nodes;
        var stepped: bool;
        ok, stepped := EnsureDirectory(d);
        if !ok {
          assert d in held && held[d].Link? ==> Below(d, p);
          return false, false;
        }
        NewDirectory(before, held, p, i);
        changed := changed || stepped;
        i := i + 1;
      }
    }

    /** writeGeneratedFileIfChanged: a temporary file renamed over whatever was there. */
    method WriteIfChanged(p: Path, g: Generated) returns (ok: bool, changed: bool)
      requires Valid() && presets.Directory? && Parented(nodes, p)
      modifies this`nodes, this`faults
      ensures Valid()
      ensures ok ==> p in nodes && UpToDate(nodes[p], g)
      ensures ok ==> forall q :: q != p && !Below(p, q) ==> (q in nodes <==> q in old(nodes)) && (q in nodes ==> nodes[q] == old(nodes)[q])
      ensures ok ==> forall q :: Below(p, q) ==> q !in nodes
      ensures ok ==> (changed <==> !(p in old(nodes) && UpToDate(old(nodes)[p], g)))
      ensures ok && !changed ==> nodes == old(nodes)
      ensures LinksFrom(old(nodes), nodes) && faults >= old(faults) && (!ok ==> faults > old(faults))
    {
      if p in nodes {
        var same := Matches(nodes[p], g);
        if same {
          LeafIsEmpty(nodes, p);
          return true, false;
        }
      }
      var fails: bool := *;
      if fails {
        faults := faults + 1;
        return false, false;
      }
      PrunedWellFormed(nodes, p);
      var unplaced: bool := *;
      if unplaced {
        nodes, faults := Pruned(nodes, p), faults + 1;
        return false, false;
      }
      assert Parented(Pruned(nodes, p), p);
      var file := File(g.body, Mode(g.perm, false));
      PlacedWellFormed(Pruned(nodes, p), p, file);
      nodes := Pruned(nodes, p)[p := file];
      return true, true;
    }

    /** Remove of one entry; a directory that still has entries is refused. */
    method Remove(p: Path) returns (outcome: Removal)
      requires Valid() && presets.Directory? && p in nodes
      modifies this`nodes, this`faults
      ensures Valid()
      ensures outcome.Removed? ==> nodes == old(nodes) - {p}
      ensures !outcome.Removed? ==> nodes == old(nodes)
      ensures outcome.NotEmpty? <==> Occupied(old(nodes), p)
      ensures faults >= old(faults) && (outcome.Failed? ==> faults > old(faults))
    {
      if q :| q in nodes && Below(p, q) { return NotEmpty; }
      var fails: bool := *;
      if fails {
        faults := faults + 1;
        return Failed;
      }
      RemovedWellFormed(nodes, p);
      nodes := nodes - {p};
      return Removed;
    }

    /** The first removal loop: entries that are not directories. */
    method RemoveFiles(files: seq<Path>) returns (outcome: Removal)
      requires Valid() && presets.Directory? && Distinct(files)
      requires forall i :: 0 <= i < |files| ==> files[i] in nodes && !nodes[files[i]].Dir?
      modifies this`nodes, this`faults
      ensures Valid()
      ensures !outcome.NotEmpty?
      ensures outcome.Removed? ==> nodes == old(nodes) - Members(files)
      ensures faults >= old(faults) && (outcome.Failed? ==> faults > old(faults))
    {
      for i := 0 to |files|
        invariant Valid()
        invariant nodes == old(nodes) - Members(files[..i]) && faults >= old(faults)
      {
        assert files[i] !in files[..i];
        assert !Occupied(nodes, files[i]) by { LeafIsEmpty(nodes, files[i]); }
        outcome := Remove(files[i]);
        if !outcome.Removed? { return; }
        MembersSnoc(files, i);
      }
      assert files[..|files|] == files;
      outcome := Removed;
    }

    /** The second removal loop, from the last directory met by the walk to the first. */
    method RemoveDirs(dirs: seq<Path>) returns (outcome: Removal)
      requires Valid() && presets.Directory? && Distinct(dirs) && ParentsFirst(dirs)
      requires forall i :: 0 <= i < |dirs| ==> dirs[i] in nodes
      requires forall i, q :: 0 <= i < |dirs| && q in nodes && Below(dirs[i], q) ==> q in dirs
      modifies this`nodes, this`faults
      ensures Valid()
      ensures !outcome.NotEmpty?
      ensures outcome.Removed? ==> nodes == old(nodes) - Members(dirs)
      ensures faults >= old(faults) && (outcome.Failed? ==> faults > old(faults))
    {
      ghost var before := nodes;
      var i := |dirs|;
      assert Members(dirs[i..]) == {};
      while i > 0
        invariant 0 <= i <= |dirs| && Valid()
        invariant nodes == before - Members(dirs[i..]) && faults >= old(faults)
      {
        i := i - 1;
        LastIsEmpty(before, dirs, i);
        outcome := Remove(dirs[i]);
        if !outcome.Removed? { return; }
      }
      assert dirs[0..] == dirs;
      outcome := Removed;
    }

    /** The walk and both removal loops of generateDSHPresets: no stale directory is ever found occupied. */
    method Prune(expected: Expected) returns (outcome: Removal, changed: bool)
      requires Valid() && presets.Directory?
      modifies this`nodes, this`faults
      ensures Valid()
      ensures !outcome.NotEmpty?
      ensures outcome.Removed? ==> nodes == Kept(expected, old(nodes))
      ensures faults >= old(faults) && (outcome.Failed? ==> faults > old(faults))
      ensures outcome.Removed? ==> (changed <==> nodes != old(nodes))
    {
      var order := Walk(nodes);
      var expectedDirs := PresetDirectories(expected);
      var files, dirs := StaleIn(nodes, order, expected, expectedDirs);
      ghost var before := nodes;
      outcome := RemoveFiles(files);
      if !outcome.Removed? { return outcome, false; }
      StaleBelow(expected, before, files, dirs);
      outcome := RemoveDirs(dirs);
      if !outcome.Removed? { return outcome, false; }
      changed := files != [] || dirs != [];
      StaleRemoved(expected, before, files, dirs);
    }

    /** The writing loop of generateDSHPresets. */
    method WriteAll(expected: Expected) returns (ok: bool, changed: bool)
      requires Valid() && presets.Directory? && Keys(expected)
      modifies this`nodes, this`faults
      ensures Valid()
      ensures ok && Antichain(expected) ==> Holds(expected, expected.Keys, nodes)
      ensures ok && !changed ==> nodes == old(nodes) && Holds(expected, expected.Keys, nodes)
      ensures ok && Holds(expected, expected.Keys, old(nodes)) ==> !changed
      ensures faults >= old(faults) && (!ok ==> faults > old(faults) || LinkedDirectory(expected, old(nodes)))
    {
      changed := false;
      ok := true;
      var todo := expected.Keys;
      while todo != {}
        invariant todo <= expected.Keys && Valid()
        invariant Antichain(expected) ==> Holds(expected, expected.Keys - todo, nodes)
        invariant !changed ==> nodes == old(nodes) && Holds(expected, expected.Keys - todo, nodes)
        invariant Holds(expected, expected.Keys, old(nodes)) ==> !changed
        invariant LinksFrom(old(nodes), nodes) && faults >= old(faults)
        decreases todo
      {
        var p :| p in todo;
        todo := todo - {p};
        var step: bool;
        ok, step := WriteOne(expected, p, expected.Keys - todo);
        if !ok { return false, false; }
        changed := changed || step;
      }
    }

    /** One turn of that loop. */
    method WriteOne(expected: Expected, p: Path, ghost done: set<Path>) returns (ok: bool, changed: bool)
      requires Valid() && presets.Directory? && Keys(expected) && p in done && done <= expected.Keys
      modifies this`nodes, this`faults
      ensures Valid()
      ensures ok && Antichain(expected) && Holds(expected, done - {p}, old(nodes)) ==> Holds(expected, done, nodes)
      ensures ok && !changed ==> nodes == old(nodes) && Holds(expected, {p}, nodes)
      ensures ok && Holds(expected, {p}, old(nodes)) ==> !changed
      ensures LinksFrom(old(nodes), nodes) && faults >= old(faults)
      ensures !ok ==> faults > old(faults) || LinkAbove(old(nodes), p)
    {
      ghost var before := nodes;
      var parent: bool;
      ok, parent := EnsureParent(p);
      if !ok { return false, false; }
      ghost var between := nodes;
      var file: bool;
      ok, file := WriteIfChanged(p, expected[p]);
      if !ok { return false, false; }
      changed := parent || file;
      if Antichain(expected) && Holds(expected, done - {p}, before) {
        forall q | q in done ensures q in nodes && UpToDate(nodes[q], expected[q]) {
          assert !Below(q, p) && !Below(p, q);
        }
      }
      if Holds(expected, {p}, before) {
        assert Parented(before, p);
        assert between == before;
      }
    }

    /** generateDSHPresets, for the expected files already read from the plugin packs. */
    method Generate(expected: Expected) returns (ok: bool, changed: bool, ghost occupied: bool)
      requires Valid() && Keys(expected)
      modifies this
      ensures Valid()
      ensures !occupied
      ensures ok ==> (CheckPasses(expected, dsh, presets, nodes) <==> Antichain(expected))
      ensures ok ==> (changed <==> !CheckPasses(expected, old(dsh), old(presets), old(nodes)))
      ensures ok && !changed ==> dsh == old(dsh) && presets == old(presets) && nodes == old(nodes)
      ensures !ok && faults == old(faults) ==>
                old(dsh).Unusable? || old(presets).Unusable? || LinkedDirectory(expected, old(nodes))
    {
      occupied := false;
      if expected == map[] {
        var found: bool;
        ok, found, changed := Open(false);
        if !ok || !found { return ok, false, false; }
        var fails: bool := *;
        if fails {
          faults := faults + 1;
          return false, false, false;
        }
        presets, nodes := Absent, map[];
        return true, true, false;
      }
      var written, pruned: bool;
      ghost var before := nodes;
      var reached: bool, found: bool;
      reached, found, changed := Open(true);
      if !reached { return false, false, false; }
      var wrote: bool;
      wrote, written := WriteAll(expected);
      if !wrote { return false, false, false; }
      ghost var between := nodes;
      var outcome: Removal;
      outcome, pruned := Prune(expected);
      if !outcome.Removed? { return false, false, outcome.NotEmpty?; }
      ok, changed := true, changed || written || pruned;
      GeneratedAccepted(expected, between);
      if !Antichain(expected) { NoTreeWithoutAntichain(expected, nodes); }
      if Accepts(expected, before) {
        AcceptedHolds(expected, before);
        GeneratedAccepted(expected, before);
        AcceptedIsUnique(expected, before, Kept(expected, before));
      }
    }

    /** checkDSHPresets: `drift` is what the error lists. */
    method Check(expected: Expected) returns (passes: bool, drift: set<Path>)
      requires Valid() && Keys(expected)
      ensures passes <==> CheckPasses(expected, dsh, presets, nodes)
      ensures presets.Directory? && dsh.Directory? && expected != map[] ==>
        forall p :: p in drift <==> Drifts(expected, nodes, p)
    {
      drift := {};
      if dsh.Unusable? || (dsh.Directory? && presets.Unusable?) { return false, {}; }
      if dsh.Absent? || presets.Absent? { return expected == map[], {}; }
      if expected == map[] { return false, {}; }
      drift := Compare(nodes, expected);
      passes := drift == {};
      NoDriftIsAccepted(expected, nodes);
    }
  }

  datatype Removal = Removed | Failed | NotEmpty

  ghost predicate Occupied(nodes: Nodes, p: Path) { exists q :: q in nodes && Below(p, q) }

  ghost function Members(s: seq<Path>): set<Path> { set p | p in s }

  ghost predicate Distinct(s: seq<Path>) { forall i, j :: 0 <= i < j < |s| ==> s[i] != s[j] }

  /** No entry comes after an entry below it. */
  ghost predicate ParentsFirst(s: seq<Path>) { forall i, j :: 0 <= i < j < |s| ==> !Below(s[j], s[i]) }

  lemma MembersSnoc(s: seq<Path>, i: nat)
    requires i < |s|
    ensures Members(s[..i + 1]) == Members(s[..i]) + {s[i]}
  {
  }

  lemma RemovedWellFormed(nodes: Nodes, p: Path)
    requires WellFormed(nodes) && !Occupied(nodes, p)
    ensures WellFormed(nodes - {p})
  {
  }

  lemma LeafIsEmpty(nodes: Nodes, p: Path)
    requires WellFormed(nodes) && p in nodes && !nodes[p].Dir?
    ensures !Occupied(nodes, p)
  {
  }

  /** WalkDir visits every entry once, a directory before what is in it; nothing else is used of its order. */
  method Walk(nodes: Nodes) returns (order: seq<Path>)
    ensures forall p :: p in order <==> p in nodes
    ensures Distinct(order) && ParentsFirst(order)
  {
    order := [];
    var rest := nodes.Keys;
    while rest != {}
      invariant rest <= nodes.Keys
      invariant forall p :: p in order <==> p in nodes && p !in rest
      invariant Distinct(order) && ParentsFirst(order)
      invariant forall p, q :: p in rest && q in order ==> !Below(p, q)
      decreases rest
    {
      HighestExists(rest);
      var p :| p in rest && forall q :: q in rest ==> !Below(q, p);
      order := order + [p];
      rest := rest - {p};
    }
  }

  lemma BelowTransitive(a: Path, b: Path, c: Path)
    requires Below(b, c)
    ensures Below(a, b) ==> Below(a, c)
  {
  }

  lemma {:induction false} HighestExists(s: set<Path>)
    requires s != {}
    ensures exists p :: p in s && forall q :: q in s ==> !Below(q, p)
  {
    var p :| p in s;
    var above := set q | q in s && Below(q, p);
    if above != {} {
      assert above <= s && p !in above;
      assert above < s;
      HighestExists(above);
      var h :| h in above && forall q :: q in above ==> !Below(q, h);
      forall q | q in s ensures !Below(q, h) {
        BelowTransitive(q, h, p);
      }
      assert h in s;
    } else {
      forall q | q in s ensures !Below(q, p) { assert q !in above; }
    }
  }

  /** generatedPresetDirectories */
  method PresetDirectories(expected: Expected) returns (dirs: set<Path>)
    ensures forall d :: d in dirs <==> ExpectedDir(expected, d)
  {
    dirs := {};
    var todo := expected.Keys;
    while todo != {}
      invariant todo <= expected.Keys
      invariant forall d :: d in dirs <==> |d| > 0 && exists p :: p in expected && p !in todo && Below(d, p)
      decreases todo
    {
      var p :| p in todo;
      ghost var before := dirs;
      var i := |p| - 1;
      while i > 0
        invariant -1 <= i < |p|
        invariant forall d :: d in dirs <==> d in before || (|d| > 0 && |d| > i && Below(d, p))
        decreases i
      {
        dirs := dirs + {p[..i]};
        i := i - 1;
      }
      todo := todo - {p};
    }
  }

  ghost predicate Stale(expected: Expected, nodes: Nodes, p: Path)
    requires p in nodes
  {
    if nodes[p].Dir? then !ExpectedDir(expected, p) else p !in expected
  }

  ghost function Kept(expected: Expected, nodes: Nodes): Nodes {
    map p | p in nodes && !Stale(expected, nodes, p) :: nodes[p]
  }

  /** Once the later directories are gone, nothing is left below directory i. */
  lemma LastIsEmpty(nodes: Nodes, dirs: seq<Path>, i: nat)
    requires i < |dirs| && Distinct(dirs) && ParentsFirst(dirs) && dirs[i] in nodes
    requires forall q :: q in nodes && Below(dirs[i], q) ==> q in dirs
    ensures dirs[i] in nodes - Members(dirs[i + 1..]) && !Occupied(nodes - Members(dirs[i + 1..]), dirs[i])
    ensures Members(dirs[i..]) == {dirs[i]} + Members(dirs[i + 1..])
  {
    var rest := dirs[i + 1..];
    assert dirs[i..] == [dirs[i]] + rest;
    forall q | q in nodes && Below(dirs[i], q) ensures q in rest {
      var k :| 0 <= k < |dirs| && dirs[k] == q;
      assert k > i ==> rest[k - i - 1] == q;
    }
  }

  /** The walk's callback: the stale files and the stale directories, in walk order. */
  method StaleIn(nodes: Nodes, order: seq<Path>, expected: Expected, expectedDirs: set<Path>)
    returns (files: seq<Path>, dirs: seq<Path>)
    requires forall p :: p in order <==> p in nodes
    requires Distinct(order) && ParentsFirst(order)
    requires forall d :: d in expectedDirs <==> ExpectedDir(expected, d)
    ensures Distinct(files) && Distinct(dirs) && ParentsFirst(dirs)
    ensures forall p :: p in files <==> p in nodes && !nodes[p].Dir? && Stale(expected, nodes, p)
    ensures forall p :: p in dirs <==> p in nodes && nodes[p].Dir? && Stale(expected, nodes, p)
  {
    files, dirs := [], [];
    for i := 0 to |order|
      invariant Distinct(files) && Distinct(dirs) && ParentsFirst(dirs)
      invariant forall p :: p in files <==> p in order[..i] && p in nodes && !nodes[p].Dir? && Stale(expected, nodes, p)
      invariant forall p :: p in dirs <==> p in order[..i] && p in nodes && nodes[p].Dir? && Stale(expected, nodes, p)
    {
      var p := order[i];
      assert order[..i + 1] == order[..i] + [p];
      assert p !in order[..i];
      assert forall d :: d in order[..i] ==> !Below(p, d);
      if nodes[p].Dir? {
        if p !in expectedDirs { dirs := dirs + [p]; }
      } else if p !in expected {
        files := files + [p];
      }
    }
    assert order[..|order|] == order;
  }

  /** What is below a stale directory is stale. */
  lemma StaleBelow(expected: Expected, nodes: Nodes, files: seq<Path>, dirs: seq<Path>)
    requires WellFormed(nodes)
    requires forall p :: p in files <==> p in nodes && !nodes[p].Dir? && Stale(expected, nodes, p)
    requires forall p :: p in dirs <==> p in nodes && nodes[p].Dir? && Stale(expected, nodes, p)
    ensures forall i, q :: 0 <= i < |dirs| && q in nodes - Members(files) && Below(dirs[i], q) ==> q in dirs
  {
  }

  lemma StaleRemoved(expected: Expected, nodes: Nodes, files: seq<Path>, dirs: seq<Path>)
    requires forall p :: p in files <==> p in nodes && !nodes[p].Dir? && Stale(expected, nodes, p)
    requires forall p :: p in dirs <==> p in nodes && nodes[p].Dir? && Stale(expected, nodes, p)
    ensures nodes - Members(files) - Members(dirs) == Kept(expected, nodes)
    ensures files == [] && dirs == [] <==> Kept(expected, nodes) == nodes
  {
    assert files != [] ==> files[0] in files && files[0] !in Kept(expected, nodes);
    assert dirs != [] ==> dirs[0] in dirs && dirs[0] !in Kept(expected, nodes);
  }

  ghost predicate Holds(expected: Expected, keys: set<Path>, nodes: Nodes)
    requires keys <= expected.Keys
  {
    forall p :: p in keys ==> p in nodes && UpToDate(nodes[p], expected[p])
  }

  ghost predicate Misplaced(expected: Expected, nodes: Nodes, p: Path) {
    p in nodes &&
    if nodes[p].Dir? then !ExpectedDir(expected, p) else p !in expected || !UpToDate(nodes[p], expected[p])
  }

  /** A path that the drift error names. */
  ghost predicate Drifts(expected: Expected, nodes: Nodes, p: Path) {
    Misplaced(expected, nodes, p) || (p in expected && (p !in nodes || nodes[p].Dir?))
  }

  /** The walk of checkDSHPresets with its `drift` and `seen` sets, and the closing pass over the expected files. */
  method Compare(nodes: Nodes, expected: Expected) returns (drift: set<Path>)
    ensures forall p :: p in drift <==> Drifts(expected, nodes, p)
  {
    drift := {};
    var seen: set<Path> := {};
    var expectedDirs := PresetDirectories(expected);
    var order := Walk(nodes);
    for i := 0 to |order|
      invariant forall p :: p in drift <==> p in order[..i] && Misplaced(expected, nodes, p)
      invariant forall p :: p in seen <==> p in order[..i] && p in nodes && !nodes[p].Dir? && p in expected
    {
      var p := order[i];
      assert order[..i + 1] == order[..i] + [p];
      if nodes[p].Dir? {
        if p !in expectedDirs { drift := drift + {p}; }
      } else if p !in expected {
        drift := drift + {p};
      } else {
        seen := seen + {p};
        var same := Matches(nodes[p], expected[p]);
        if !same { drift := drift + {p}; }
      }
    }
    assert order[..|order|] == order;
    drift := drift + set p | p in expected && p !in seen;
  }

  lemma NoDriftIsAccepted(expected: Expected, nodes: Nodes)
    ensures Accepts(expected, nodes) <==> forall p :: !Drifts(expected, nodes, p)
  {
    if Accepts(expected, nodes) {
      forall p ensures !Drifts(expected, nodes, p) { }
    } else if forall p :: !Drifts(expected, nodes, p) {
      forall p | p in nodes
        ensures if nodes[p].Dir? then ExpectedDir(expected, p) else p in expected && UpToDate(nodes[p], expected[p])
      {
        assert !Drifts(expected, nodes, p);
      }
      forall p | p in expected ensures p in nodes && !nodes[p].Dir? { assert !Drifts(expected, nodes, p); }
    }
  }

  /** checkDSHPresets returns no error. */
  ghost predicate CheckPasses(expected: Expected, dsh: Level, presets: Level, nodes: Nodes) {
    && !dsh.Unusable?
    && (dsh.Directory? ==> !presets.Unusable?)
    && if dsh.Directory? && presets.Directory? then expected != map[] && Accepts(expected, nodes) else expected == map[]
  }

  lemma AcceptedHolds(expected: Expected, nodes: Nodes)
    requires Accepts(expected, nodes)
    ensures Holds(expected, expected.Keys, nodes)
  {
  }

  /** Pruning a tree that holds every expected file leaves an accepted tree. */
  lemma GeneratedAccepted(expected: Expected, nodes: Nodes)
    requires WellFormed(nodes)
    ensures Holds(expected, expected.Keys, nodes) ==> Accepts(expected, Kept(expected, nodes))
  {
  }
}
