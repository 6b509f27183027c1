/** Which files the preset tree must hold, and generation and checking for a whole catalog (server/agentpack/dsh_generate.go). */
module PresetFiles {
  import opened Prelude
  import opened GoText
  import opened PresetTree

  /** The bytes and permission bits of a pack's DSH Agent source. */
  datatype Source = Source(body: seq<nat>, perm: Permissions)

  /** A pack as far as presets go; without a DSH source it has none. */
  datatype Preset = Preset(agentName: string, source: Option<Source>, metadata: seq<nat>, skills: seq<string>)

  /** The plugin's skill directories. */
  type Skills = map<string, Nodes>

  ghost const AGENT_FILE: string := "agent.cordis.yml"
  ghost const METADATA_FILE: string := "preset.yml"
  ghost const SKILLS_DIR: string := "skills"

  ghost predicate KebabChar(c: char) { 'a' <= c <= 'z' || '0' <= c <= '9' || c == '-' }

  /** kebabIDPattern */
  ghost predicate Kebab(s: string) {
    && s != "" && s[0] != '-' && s[|s| - 1] != '-' && (forall i :: 0 <= i < |s| ==> KebabChar(s[i]))
    && forall i :: 0 <= i < |s| - 1 ==> !(s[i] == '-' && s[i + 1] == '-')
  }

  /** The name of a directory entry. */
  ghost predicate Component(s: string) { Plain(s) && Free(s, '/') }

  /** What is used of catalog validation: agent names and skills are single path components. */
  ghost predicate Validated(packs: seq<Preset>) {
    forall i :: 0 <= i < |packs| ==> Component(packs[i].agentName) && forall j :: 0 <= j < |packs[i].skills| ==> Component(packs[i].skills[j])
  }

  /** The skill directories are directory trees. */
  ghost predicate Trees(skills: Skills) {
    forall k :: k in skills ==> WellFormed(skills[k]) && forall rel :: rel in skills[k] ==> FileNames(rel)
  }

  ghost predicate FileNames(rel: Path) { forall i :: 0 <= i < |rel| ==> Free(rel[i], '/') }

  // ----- the files of one skill -----

  /** WalkDir gets there: nothing on the way, itself included, is called ".git". */
  ghost predicate Visited(rel: Path) { ".git" !in rel }

  ghost predicate Copied(tree: Nodes, rel: Path) { rel in tree && Visited(rel) && tree[rel].File? }

  /** The walk meets directories and regular files only. */
  ghost predicate Copyable(tree: Nodes) {
    forall rel :: rel in tree && Visited(rel) ==> tree[rel].Dir? || tree[rel].File?
  }

  const MODE_755: Permissions := {0, 2, 3, 5, 6, 7, 8}
  const MODE_644: Permissions := {2, 5, 7, 8}

  /** rwxr-xr-x if somebody may execute the source, rw-r--r-- otherwise. */
  ghost function TreeMode(perm: Permissions): Permissions {
    if 0 in perm || 3 in perm || 6 in perm then {8, 7, 6, 5, 3, 2, 0} else {8, 7, 5, 2}
  }

  /** normalizedGeneratedMode: mode.Perm() & 0o111 */
  method NormalizedMode(perm: Permissions) returns (mode: Permissions)
    ensures mode == TreeMode(perm)
  {
    if perm * {0, 3, 6} != {} {
      var bit :| bit in perm * {0, 3, 6};
      return MODE_755;
    }
    assert 0 !in perm * {0, 3, 6} && 3 !in perm * {0, 3, 6} && 6 !in perm * {0, 3, 6};
    return MODE_644;
  }

  ghost function Copy(n: Node): Generated
    requires n.File?
  {
    Generated(n.body, TreeMode(n.mode.perm))
  }

  ghost function SkillRoot(name: string, skill: string): Path { [name, SKILLS_DIR, skill] }

  ghost function SkillPath(name: string, skill: string, rel: Path): (p: Path)
    ensures |p| == 3 + |rel| && p[..3] == SkillRoot(name, skill) && p[3..] == rel
  {
    SkillRoot(name, skill) + rel
  }

  /** The copied files among some entries of a skill directory, by their place in the preset. */
  ghost function SkillFiles(name: string, skill: string, tree: Nodes, among: set<Path>): Expected {
    map p | p in Places(name, skill, tree, among) :: Copy(tree[p[3..]])
  }

  ghost function Places(name: string, skill: string, tree: Nodes, among: set<Path>): (ps: set<Path>)
    ensures forall p :: p in ps ==> |p| >= 3 && p[..3] == SkillRoot(name, skill) && p[3..] in among && Copied(tree, p[3..])
  {
    set rel | rel in among && Copied(tree, rel) :: SkillPath(name, skill, rel)
  }

  lemma SkillFilesAt(name: string, skill: string, tree: Nodes, among: set<Path>, p: Path)
    ensures p in SkillFiles(name, skill, tree, among) <==>
      |p| >= 3 && p[..3] == SkillRoot(name, skill) && p[3..] in among && Copied(tree, p[3..])
    ensures p in SkillFiles(name, skill, tree, among) ==> SkillFiles(name, skill, tree, among)[p] == Copy(tree[p[3..]])
  {
    if |p| >= 3 && p[..3] == SkillRoot(name, skill) && p[3..] in among && Copied(tree, p[3..]) {
      assert p == SkillPath(name, skill, p[3..]);
    }
  }

  // ----- what a catalog expects -----

  /** The skills of one pack, the first n of them; a later entry of the list wins. */
  ghost function SkillsFiles(pack: Preset, n: nat, skills: Skills): Expected
    requires n <= |pack.skills|
  {
    if n == 0 then map[]
    else
      SkillsFiles(pack, n - 1, skills) +
      if pack.skills[n - 1] in skills
      then SkillFiles(pack.agentName, pack.skills[n - 1], skills[pack.skills[n - 1]], skills[pack.skills[n - 1]].Keys)
      else map[]
  }

  ghost function PackFiles(pack: Preset, skills: Skills): Expected {
    if pack.source.None? then map[]
    else
      map[[pack.agentName, AGENT_FILE] := Generated(pack.source.value.body, TreeMode(pack.source.value.perm)),
          [pack.agentName, METADATA_FILE] := Generated(pack.metadata, {8, 7, 5, 2})] +
      SkillsFiles(pack, |pack.skills|, skills)
  }

  ghost function Files(packs: seq<Preset>, n: nat, skills: Skills): Expected
    requires n <= |packs|
  {
    if n == 0 then map[] else Files(packs, n - 1, skills) + PackFiles(packs[n - 1], skills)
  }

  // ----- no expected file is above another -----

  /** The two shapes of a key. */
  ghost predicate TopKey(p: Path) { |p| == 2 && (p[1] == AGENT_FILE || p[1] == METADATA_FILE) }

  ghost predicate SkillKey(skills: Skills, p: Path) {
    |p| > 3 && p[1] == SKILLS_DIR && p[2] in skills && Copied(skills[p[2]], p[3..])
  }

  lemma {:induction false} SkillsFilesKeys(pack: Preset, n: nat, skills: Skills, p: Path)
    requires n <= |pack.skills| && Trees(skills) && p in SkillsFiles(pack, n, skills)
    ensures SkillKey(skills, p) && p[0] == pack.agentName && p[2] in pack.skills
  {
    if p in SkillsFiles(pack, n - 1, skills) {
      SkillsFilesKeys(pack, n - 1, skills, p);
    } else {
      var skill := pack.skills[n - 1];
      SkillFilesAt(pack.agentName, skill, skills[skill], skills[skill].Keys, p);
      assert p[..3][0] == pack.agentName && p[..3][1] == SKILLS_DIR && p[..3][2] == skill;
    }
  }

  lemma {:induction false} FilesKeys(packs: seq<Preset>, n: nat, skills: Skills, p: Path)
    requires n <= |packs| && Trees(skills) && p in Files(packs, n, skills)
    ensures TopKey(p) || SkillKey(skills, p)
    ensures exists i :: 0 <= i < n && p[0] == packs[i].agentName && (SkillKey(skills, p) ==> p[2] in packs[i].skills)
  {
    if p in Files(packs, n - 1, skills) {
      FilesKeys(packs, n - 1, skills, p);
    } else {
      var pack := packs[n - 1];
      if p in SkillsFiles(pack, |pack.skills|, skills) { SkillsFilesKeys(pack, |pack.skills|, skills, p); }
    }
  }

  lemma NotAbove(skills: Skills, p: Path, q: Path)
    requires Trees(skills) && (TopKey(p) || SkillKey(skills, p)) && (TopKey(q) || SkillKey(skills, q))
    ensures !Below(p, q)
  {
    if SkillKey(skills, p) && SkillKey(skills, q) && |p| < |q| && p[2] == q[2] {
      assert q[3..][..|p| - 3] == q[..|p|][3..];
    }
  }

  /** What a catalog expects never has a file above a file, whatever the skills hold. */
  lemma ExpectedIsAntichain(packs: seq<Preset>, skills: Skills)
    requires Trees(skills)
    ensures Keys(Files(packs, |packs|, skills)) && Antichain(Files(packs, |packs|, skills))
  {
    var files := Files(packs, |packs|, skills);
    forall p | p in files ensures TopKey(p) || SkillKey(skills, p) { FilesKeys(packs, |packs|, skills, p); }
    forall p, q | p in files && q in files ensures !Below(p, q) { NotAbove(skills, p, q); }
  }

  /** Catalog validation asks for more. */
  lemma KebabIsComponent(s: string)
    requires Kebab(s)
    ensures Component(s)
  {
  }

  /** Since names are components, a key is the list of components of its text. */
  lemma KeyTextReads(packs: seq<Preset>, skills: Skills, p: Path)
    requires Validated(packs) && Trees(skills) && p in Files(packs, |packs|, skills)
    ensures p != [] && Split(Join(p)) == p
  {
    FilesKeys(packs, |packs|, skills, p);
    var i :| 0 <= i < |packs| && p[0] == packs[i].agentName && (SkillKey(skills, p) ==> p[2] in packs[i].skills);
    KeyIsFree(skills, p);
    JoinSplit(p);
  }

  lemma KeyIsFree(skills: Skills, p: Path)
    requires Trees(skills) && (TopKey(p) || SkillKey(skills, p))
    requires Free(p[0], '/') && (SkillKey(skills, p) ==> Free(p[2], '/'))
    ensures forall x :: 0 <= x < |p| ==> Free(p[x], '/')
  {
    forall x | 0 <= x < |p| ensures Free(p[x], '/') {
      if SkillKey(skills, p) && x > 2 { assert FileNames(p[3..]) && p[x] == p[3..][x - 3]; }
    }
  }

  // ----- expectedDSHPresetFiles -----

  /** Every referenced skill is there and can be copied. */
  ghost predicate Readable(pack: Preset, skills: Skills) {
    pack.source.Some? ==> SkillsReadable(pack, |pack.skills|, skills)
  }

  ghost predicate SkillsReadable(pack: Preset, n: nat, skills: Skills)
    requires n <= |pack.skills|
  {
    forall j :: 0 <= j < n ==> SkillReadable(pack.skills[j], skills)
  }

  ghost predicate SkillReadable(skill: string, skills: Skills) { skill in skills && Copyable(skills[skill]) }

  /** The walk goes on past this entry. */
  ghost predicate Passable(tree: Nodes, rel: Path) { rel in tree && (Visited(rel) ==> tree[rel].Dir? || tree[rel].File?) }

  /** The walk has passed these entries, and copied what it should. */
  ghost predicate Walked(files: Expected, after: Expected, name: string, skill: string, tree: Nodes, among: set<Path>) {
    after == files + SkillFiles(name, skill, tree, among) && forall rel :: rel in among ==> Passable(tree, rel)
  }

  /** The walk over one skill directory. */
  method AddSkill(files: Expected, name: string, skill: string, tree: Nodes) returns (ok: bool, after: Expected)
    ensures ok <==> Copyable(tree)
    ensures ok ==> after == files + SkillFiles(name, skill, tree, tree.Keys)
  {
    var order := Walk(tree);
    after := files;
    NothingYet(files, name, skill, tree);
    for i := 0 to |order|
      invariant Walked(files, after, name, skill, tree, Members(order[..i]))
    {
      MembersSnoc(order, i);
      assert order[i] in order;
      ok, after := AddEntry(files, after, name, skill, tree, order[i], Members(order[..i]));
      if !ok { return; }
    }
    WalkedAll(order, tree);
    ok := true;
  }

  lemma NothingYet(files: Expected, name: string, skill: string, tree: Nodes)
    ensures Walked(files, files, name, skill, tree, {})
  {
  }

  /** The walk's callback for one entry, after those among which it is the next. */
  method AddEntry(ghost files: Expected, before: Expected, name: string, skill: string, tree: Nodes, rel: Path, ghost among: set<Path>)
    returns (ok: bool, after: Expected)
    requires rel in tree && Walked(files, before, name, skill, tree, among)
    ensures ok ==> Walked(files, after, name, skill, tree, among + {rel})
    ensures !ok ==> !Copyable(tree)
  {
    MergedSnoc(files, name, skill, tree, among, rel);
    after := before;
    if ".git" in rel { return true, after; }
    var node := tree[rel];
    if node.Link? || node.Other? { return false, after; }
    if node.Dir? { return true, after; }
    var mode := NormalizedMode(node.mode.perm);
    after := after[[name, "skills", skill] + rel := Generated(node.body, mode)];
    return true, after;
  }

  lemma WalkedAll(order: seq<Path>, tree: Nodes)
    requires forall p :: p in order <==> p in tree
    ensures Members(order[..|order|]) == tree.Keys
  {
    assert order[..|order|] == order;
  }

  lemma MergedSnoc(files: Expected, name: string, skill: string, tree: Nodes, among: set<Path>, rel: Path)
    ensures files + SkillFiles(name, skill, tree, among + {rel}) ==
      if Copied(tree, rel) then (files + SkillFiles(name, skill, tree, among))[SkillPath(name, skill, rel) := Copy(tree[rel])]
      else files + SkillFiles(name, skill, tree, among)
  {
    SkillFilesSnoc(name, skill, tree, among, rel);
    if Copied(tree, rel) { PutMerged(files, SkillFiles(name, skill, tree, among), SkillPath(name, skill, rel), Copy(tree[rel])); }
  }

  lemma PutMerged(a: Expected, b: Expected, p: Path, g: Generated)
    ensures (a + b)[p := g] == a + b[p := g]
  {
  }

  lemma MergeMerged(a: Expected, b: Expected, d: Expected)
    ensures a + b + d == a + (b + d)
  {
  }

  lemma SkillFilesSnoc(name: string, skill: string, tree: Nodes, among: set<Path>, rel: Path)
    ensures SkillFiles(name, skill, tree, among + {rel}) ==
      if Copied(tree, rel) then SkillFiles(name, skill, tree, among)[SkillPath(name, skill, rel) := Copy(tree[rel])]
      else SkillFiles(name, skill, tree, among)
  {
    forall p ensures SnocAt(name, skill, tree, among, rel, p) { SkillFilesSnocAt(name, skill, tree, among, rel, p); }
  }

  ghost predicate SnocAt(name: string, skill: string, tree: Nodes, among: set<Path>, rel: Path, p: Path) {
    var more, less := SkillFiles(name, skill, tree, among + {rel}), SkillFiles(name, skill, tree, among);
    && (p in more <==> p in less || (Copied(tree, rel) && p == SkillPath(name, skill, rel)))
    && (p in more ==> Copied(tree, p[3..]) && more[p] == Copy(tree[p[3..]]))
    && (p in less ==> less[p] == more[p])
  }

  lemma SkillFilesSnocAt(name: string, skill: string, tree: Nodes, among: set<Path>, rel: Path, p: Path)
    ensures SnocAt(name, skill, tree, among, rel, p)
  {
    SkillFilesAt(name, skill, tree, among + {rel}, p);
    SkillFilesAt(name, skill, tree, among, p);
    assert |p| >= 3 && p[..3] == SkillRoot(name, skill) && p[3..] == rel ==> p == SkillPath(name, skill, rel);
  }

  method AddPack(files: Expected, pack: Preset, skills: Skills) returns (ok: bool, after: Expected)
    ensures ok <==> Readable(pack, skills)
    ensures ok ==> after == files + PackFiles(pack, skills)
  {
    after := files;
    if pack.source.None? { return true, after; }
    var mode := NormalizedMode(pack.source.value.perm);
    after := after[[pack.agentName, "agent.cordis.yml"] := Generated(pack.source.value.body, mode)];
    after := after[[pack.agentName, "preset.yml"] := Generated(pack.metadata, MODE_644)];
    assert MODE_644 == {8, 7, 5, 2};
    ok, after := AddSkills(after, pack, skills);
    if ok { PackMerged(files, pack, skills); }
  }

  lemma PackMerged(files: Expected, pack: Preset, skills: Skills)
    requires pack.source.Some?
    ensures var agent, metadata := [pack.agentName, AGENT_FILE], [pack.agentName, METADATA_FILE];
      var source := Generated(pack.source.value.body, TreeMode(pack.source.value.perm));
      files[agent := source][metadata := Generated(pack.metadata, {8, 7, 5, 2})] + SkillsFiles(pack, |pack.skills|, skills)
        == files + PackFiles(pack, skills)
  {
    var agent, metadata := [pack.agentName, AGENT_FILE], [pack.agentName, METADATA_FILE];
    var source := Generated(pack.source.value.body, TreeMode(pack.source.value.perm));
    var top := map[agent := source, metadata := Generated(pack.metadata, {8, 7, 5, 2})];
    assert agent[1] != metadata[1] by { assert |AGENT_FILE| != |METADATA_FILE|; }
    assert files[agent := source][metadata := Generated(pack.metadata, {8, 7, 5, 2})] == files + top;
    MergeMerged(files, top, SkillsFiles(pack, |pack.skills|, skills));
  }

  method AddSkills(files: Expected, pack: Preset, skills: Skills) returns (ok: bool, after: Expected)
    ensures ok <==> SkillsReadable(pack, |pack.skills|, skills)
    ensures ok ==> after == files + SkillsFiles(pack, |pack.skills|, skills)
  {
    after := files;
    for j := 0 to |pack.skills|
      invariant SkillsReadable(pack, j, skills)
      invariant after == files + SkillsFiles(pack, j, skills)
    {
      assert SkillsReadable(pack, |pack.skills|, skills) ==> SkillReadable(pack.skills[j], skills);
      ok, after := AddNext(files, after, pack, j, skills);
      if !ok { return; }
    }
    ok := true;
  }

  method AddNext(ghost files: Expected, before: Expected, pack: Preset, j: nat, skills: Skills) returns (ok: bool, after: Expected)
    requires j < |pack.skills| && before == files + SkillsFiles(pack, j, skills)
    ensures ok <==> SkillReadable(pack.skills[j], skills)
    ensures ok ==> after == files + SkillsFiles(pack, j + 1, skills)
  {
    var skill := pack.skills[j];
    if skill !in skills { return false, before; }
    ok, after := AddSkill(before, pack.agentName, skill, skills[skill]);
    MergeMerged(files, SkillsFiles(pack, j, skills), SkillFiles(pack.agentName, skill, skills[skill], skills[skill].Keys));
  }

  method ExpectedDSHPresetFiles(packs: seq<Preset>, skills: Skills) returns (r: Option<Expected>)
    ensures r.Some? <==> forall i :: 0 <= i < |packs| ==> Readable(packs[i], skills)
    ensures r.Some? ==> r.value == Files(packs, |packs|, skills)
  {
    var files: Expected := map[];
    for i := 0 to |packs|
      invariant forall x :: 0 <= x < i ==> Readable(packs[x], skills)
      invariant files == Files(packs, i, skills)
    {
      var ok;
      ok, files := AddPack(files, packs[i], skills);
      if !ok { return None; }
    }
    return Some(files);
  }

  // ----- file by file -----

  /** The node is a regular file with these bytes and permissions. */
  ghost predicate IsFile(nodes: Nodes, p: Path, body: seq<nat>, perm: Permissions) {
    p in nodes && nodes[p].File? && nodes[p].body == body && nodes[p].mode == Mode(perm, false)
  }

  /** The preset of a pack: its source, its metadata, and a copy of every regular file of its skills outside .git. */
  ghost predicate Delivered(pack: Preset, skills: Skills, nodes: Nodes) {
    pack.source.Some? ==>
      && IsFile(nodes, [pack.agentName, "agent.cordis.yml"], pack.source.value.body, TreeMode(pack.source.value.perm))
      && IsFile(nodes, [pack.agentName, "preset.yml"], pack.metadata, {2, 5, 7, 8})
      && forall j, rel :: 0 <= j < |pack.skills| && pack.skills[j] in skills && rel in skills[pack.skills[j]] ==>
           FileDelivered(pack, pack.skills[j], skills[pack.skills[j]], rel, nodes)
  }

  ghost predicate FileDelivered(pack: Preset, skill: string, tree: Nodes, rel: Path, nodes: Nodes)
    requires rel in tree
  {
    ".git" !in rel && tree[rel].File? ==>
      IsFile(nodes, [pack.agentName, "skills", skill] + rel, tree[rel].body, TreeMode(tree[rel].mode.perm))
  }

  /** Later packs with other names leave a pack's files alone. */
  lemma {:induction false} FilesOf(packs: seq<Preset>, n: nat, skills: Skills, i: nat, p: Path)
    requires i < n <= |packs| && Trees(skills) && p in PackFiles(packs[i], skills)
    requires forall k :: i < k < n ==> packs[k].agentName != packs[i].agentName
    ensures p in Files(packs, n, skills) && Files(packs, n, skills)[p] == PackFiles(packs[i], skills)[p]
  {
    if i < n - 1 {
      FilesOf(packs, n - 1, skills, i, p);
      PackKeys(packs[i], skills, p);
      if p in PackFiles(packs[n - 1], skills) { PackKeys(packs[n - 1], skills, p); }
    }
  }

  lemma PackKeys(pack: Preset, skills: Skills, p: Path)
    requires Trees(skills) && p in PackFiles(pack, skills)
    ensures |p| > 0 && p[0] == pack.agentName
  {
    if p in SkillsFiles(pack, |pack.skills|, skills) { SkillsFilesKeys(pack, |pack.skills|, skills, p); }
  }

  lemma LastSkill(pack: Preset, n: nat, skills: Skills, p: Path)
    requires 0 < n <= |pack.skills|
    ensures var last := pack.skills[n - 1];
      var own := if last in skills then SkillFiles(pack.agentName, last, skills[last], skills[last].Keys) else map[];
      && (p in own ==> p in SkillsFiles(pack, n, skills) && SkillsFiles(pack, n, skills)[p] == own[p])
      && (p !in own && p in SkillsFiles(pack, n - 1, skills) ==>
            p in SkillsFiles(pack, n, skills) && SkillsFiles(pack, n, skills)[p] == SkillsFiles(pack, n - 1, skills)[p])
  {
  }

  lemma {:induction false} SkillDelivered(pack: Preset, n: nat, skills: Skills, j: nat, p: Path)
    requires j < n <= |pack.skills| && pack.skills[j] in skills && |p| >= 3
    requires p[..3] == SkillRoot(pack.agentName, pack.skills[j]) && p[2] == pack.skills[j] && Copied(skills[pack.skills[j]], p[3..])
    ensures p in SkillsFiles(pack, n, skills) && SkillsFiles(pack, n, skills)[p] == Copy(skills[pack.skills[j]][p[3..]])
  {
    var last := pack.skills[n - 1];
    LastSkill(pack, n, skills, p);
    if last in skills { SkillFilesAt(pack.agentName, last, skills[last], skills[last].Keys, p); }
    if last == pack.skills[j] {
      assert p in SkillFiles(pack.agentName, last, skills[last], skills[last].Keys);
    } else {
      assert SkillRoot(pack.agentName, last)[2] != p[..3][2];
      SkillDelivered(pack, n - 1, skills, j, p);
    }
  }

  lemma TopDelivered(pack: Preset, skills: Skills)
    requires pack.source.Some? && Trees(skills)
    ensures var files := PackFiles(pack, skills);
      && [pack.agentName, AGENT_FILE] in files && [pack.agentName, METADATA_FILE] in files
      && files[[pack.agentName, AGENT_FILE]] == Generated(pack.source.value.body, TreeMode(pack.source.value.perm))
      && files[[pack.agentName, METADATA_FILE]] == Generated(pack.metadata, {8, 7, 5, 2})
  {
    var agent, metadata := [pack.agentName, AGENT_FILE], [pack.agentName, METADATA_FILE];
    assert agent[1] != metadata[1] by { assert |AGENT_FILE| != |METADATA_FILE|; }
    assert agent !in SkillsFiles(pack, |pack.skills|, skills) by {
      if agent in SkillsFiles(pack, |pack.skills|, skills) { SkillsFilesKeys(pack, |pack.skills|, skills, agent); }
    }
    assert metadata !in SkillsFiles(pack, |pack.skills|, skills) by {
      if metadata in SkillsFiles(pack, |pack.skills|, skills) { SkillsFilesKeys(pack, |pack.skills|, skills, metadata); }
    }
  }

  /** An accepted tree delivers every pack whose name no later pack has. */
  lemma AcceptedDelivers(packs: seq<Preset>, skills: Skills, nodes: Nodes, i: nat)
    requires i < |packs| && Trees(skills) && Accepts(Files(packs, |packs|, skills), nodes)
    requires forall k :: i < k < |packs| ==> packs[k].agentName != packs[i].agentName
    ensures Delivered(packs[i], skills, nodes)
  {
    var pack := packs[i];
    if pack.source.Some? {
      TopDelivered(pack, skills);
      FilesOf(packs, |packs|, skills, i, [pack.agentName, AGENT_FILE]);
      FilesOf(packs, |packs|, skills, i, [pack.agentName, METADATA_FILE]);
      forall j, rel | 0 <= j < |pack.skills| && pack.skills[j] in skills && rel in skills[pack.skills[j]]
        ensures FileDelivered(pack, pack.skills[j], skills[pack.skills[j]], rel, nodes) {
        var tree := skills[pack.skills[j]];
        if ".git" !in rel && tree[rel].File? {
          SkillDelivered(pack, |pack.skills|, skills, j, SkillPath(pack.agentName, pack.skills[j], rel));
          FilesOf(packs, |packs|, skills, i, SkillPath(pack.agentName, pack.skills[j], rel));
        }
      }
    }
  }

  // ----- the two commands -----

  /**
   generateDSHPresets: from any starting tree, success leaves exactly what the checker accepts; `changed`
   says whether the checker would have refused before, so generating again reports no change.
   */
  method GenerateDSHPresets(tree: Tree, packs: seq<Preset>, skills: Skills) returns (ok: bool, changed: bool, ghost occupied: bool)
    requires tree.Valid() && Validated(packs) && Trees(skills)
    modifies tree
    ensures tree.Valid() && !occupied
    ensures ok ==> forall i :: 0 <= i < |packs| && (forall k :: i < k < |packs| ==> packs[k].agentName != packs[i].agentName) ==>
      Delivered(packs[i], skills, tree.nodes)
    ensures var files := Files(packs, |packs|, skills);
      && (ok ==> CheckPasses(files, tree.dsh, tree.presets, tree.nodes))
      && (ok ==> (changed <==> !CheckPasses(files, old(tree.dsh), old(tree.presets), old(tree.nodes))))
      && (ok && !changed ==> tree.dsh == old(tree.dsh) && tree.presets == old(tree.presets) && tree.nodes == old(tree.nodes))
      && (!ok && tree.faults == old(tree.faults) ==>
            || (exists i :: 0 <= i < |packs| && !Readable(packs[i], skills))
            || old(tree.dsh).Unusable? || old(tree.presets).Unusable? || LinkedDirectory(files, old(tree.nodes)))
  {
    ExpectedIsAntichain(packs, skills);
    var expected := ExpectedDSHPresetFiles(packs, skills);
    if expected.None? { return false, false, false; }
    ok, changed, occupied := tree.Generate(expected.value);
    if ok {
      forall i | 0 <= i < |packs| && (forall k :: i < k < |packs| ==> packs[k].agentName != packs[i].agentName)
        ensures Delivered(packs[i], skills, tree.nodes) {
        PassesDelivers(packs, skills, tree.dsh, tree.presets, tree.nodes, i);
      }
    }
  }

  lemma PassesDelivers(packs: seq<Preset>, skills: Skills, dsh: Level, presets: Level, nodes: Nodes, i: nat)
    requires i < |packs| && Trees(skills) && CheckPasses(Files(packs, |packs|, skills), dsh, presets, nodes)
    requires forall k :: i < k < |packs| ==> packs[k].agentName != packs[i].agentName
    ensures Delivered(packs[i], skills, nodes)
  {
    if packs[i].source.Some? {
      TopDelivered(packs[i], skills);
      FilesOf(packs, |packs|, skills, i, [packs[i].agentName, AGENT_FILE]);
      AcceptedDelivers(packs, skills, nodes, i);
    }
  }

  /** checkDSHPresets */
  method CheckDSHPresets(tree: Tree, packs: seq<Preset>, skills: Skills) returns (passes: bool)
    requires tree.Valid() && Validated(packs) && Trees(skills)
    ensures passes <==>
      && (forall i :: 0 <= i < |packs| ==> Readable(packs[i], skills))
      && CheckPasses(Files(packs, |packs|, skills), tree.dsh, tree.presets, tree.nodes)
  {
    ExpectedIsAntichain(packs, skills);
    var expected := ExpectedDSHPresetFiles(packs, skills);
    if expected.None? { return false; }
    var drift;
    passes, drift := tree.Check(expected.value);
  }
}
