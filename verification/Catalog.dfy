/** The Agent Pack catalog (server/agentpack/catalog.go, types.go): loading, ordering, indexes and lookups. */
module Catalog {
  import opened Prelude
  import opened GoText
  import opened Sorting

  datatype Manifest = Manifest(id: string, agentName: string, channel: string, taskKinds: seq<string>)

  /** A directory entry under the packs root; `manifest` is None when it does not load. */
  datatype Entry = Entry(name: string, isDir: bool, manifest: Option<Manifest>)

  // ----- what may stand together in a catalog -----

  ghost predicate HasID(p: Manifest, id: string) { p.id == id }

  /** Both names an agent is found by. */
  ghost predicate Claims(p: Manifest, agent: string) { p.id == agent || p.agentName == agent }

  ghost predicate OnChannel(p: Manifest, channel: string) { channel != "" && p.channel == channel }

  ghost predicate HasKind(p: Manifest, kind: string) { exists i :: 0 <= i < |p.taskKinds| && p.taskKinds[i] == kind }

  ghost predicate Shared(kind: string) { kind == "content_generation" || kind == "viral_analysis" }

  ghost predicate Conflict(p: Manifest, q: Manifest) {
    || Claims(p, q.id) || Claims(p, q.agentName)
    || OnChannel(p, q.channel)
    || exists kind :: HasKind(p, kind) && HasKind(q, kind) && !Shared(kind)
  }

  ghost predicate KindsOnce(p: Manifest) {
    forall i, j :: 0 <= i < j < |p.taskKinds| && p.taskKinds[i] == p.taskKinds[j] ==> Shared(p.taskKinds[i])
  }

  ghost predicate Compatible(packs: seq<Manifest>) {
    && (forall i, j :: 0 <= i < j < |packs| ==> !Conflict(packs[i], packs[j]))
    && (forall i :: 0 <= i < |packs| ==> KindsOnce(packs[i]))
  }

  lemma ConflictSymmetric(p: Manifest, q: Manifest)
    ensures Conflict(p, q) == Conflict(q, p)
  {
  }

  lemma ReorderedCompatible(a: seq<Manifest>, b: seq<Manifest>)
    requires multiset(a) == multiset(b) && Compatible(a)
    ensures Compatible(b)
  {
    forall p, q ensures Conflict(p, q) == Conflict(q, p) { ConflictSymmetric(p, q); }
    var conflict := (p, q) => Conflict(p, q);
    assert Pairwise(a, conflict);
    PairwiseReordered(a, b, conflict);
    forall i | 0 <= i < |b| ensures KindsOnce(b[i]) {
      assert b[i] in multiset(a);
      var k :| 0 <= k < |a| && a[k] == b[i];
    }
    forall i, j | 0 <= i < j < |b| ensures !Conflict(b[i], b[j]) { assert !conflict(b[i], b[j]); }
  }

  // ----- order -----

  /** The comparison given to sort.Slice. */
  predicate PackLess(p: Manifest, q: Manifest) {
    if p.id == "ecommerce" then q.id != "ecommerce" else if q.id == "ecommerce" then false else Lex(p.id, q.id)
  }

  lemma PackLessIsOrder()
    ensures WeakOrder(PackLess)
  {
    LexIsOrder();
    forall a, b, c | !PackLess(b, a) && !PackLess(c, b) ensures !PackLess(c, a) {
      assert !Lex(b.id, a.id) && !Lex(c.id, b.id) ==> !Lex(c.id, a.id);
    }
  }

  // ----- indexes -----

  type Has = (Manifest, string) -> bool

  /** index maps each name that one of the first n packs has to the last such pack. */
  ghost predicate LastIn(index: map<string, nat>, packs: seq<Manifest>, n: nat, has: Has)
    requires n <= |packs|
  {
    && (forall a, k :: 0 <= k < n && has(packs[k], a) ==> a in index && k <= index[a])
    && (forall a :: a in index ==> index[a] < n && has(packs[index[a]], a))
  }

  /** The same with the first such pack. */
  ghost predicate FirstIn(index: map<string, nat>, packs: seq<Manifest>, n: nat, has: Has)
    requires n <= |packs|
  {
    && (forall a, k :: 0 <= k < n && has(packs[k], a) ==> a in index && index[a] <= k)
    && (forall a :: a in index ==> index[a] < n && has(packs[index[a]], a))
  }

  lemma LastSnoc(before: map<string, nat>, after: map<string, nat>, packs: seq<Manifest>, n: nat, has: Has)
    requires n < |packs| && LastIn(before, packs, n, has)
    requires forall a :: has(packs[n], a) ==> a in after && after[a] == n
    requires forall a :: !has(packs[n], a) ==> (a in after <==> a in before) && (a in before ==> after[a] == before[a])
    ensures LastIn(after, packs, n + 1, has)
  {
  }

  lemma FirstSnoc(before: map<string, nat>, after: map<string, nat>, packs: seq<Manifest>, n: nat, has: Has)
    requires n < |packs| && FirstIn(before, packs, n, has)
    requires forall a :: a in before ==> a in after && after[a] == before[a]
    requires forall a :: a !in before ==> (a in after <==> has(packs[n], a)) && (a in after ==> after[a] == n)
    ensures FirstIn(after, packs, n + 1, has)
  {
  }

  lemma IDSnoc(index: map<string, nat>, packs: seq<Manifest>, n: nat)
    requires n < |packs| && LastIn(index, packs, n, HasID)
    ensures LastIn(index[packs[n].id := n], packs, n + 1, HasID)
  {
    LastSnoc(index, index[packs[n].id := n], packs, n, HasID);
  }

  lemma AgentSnoc(index: map<string, nat>, packs: seq<Manifest>, n: nat)
    requires n < |packs| && LastIn(index, packs, n, Claims)
    ensures LastIn(index[packs[n].id := n][packs[n].agentName := n], packs, n + 1, Claims)
  {
    LastSnoc(index, index[packs[n].id := n][packs[n].agentName := n], packs, n, Claims);
  }

  lemma ChannelSnoc(index: map<string, nat>, packs: seq<Manifest>, n: nat)
    requires n < |packs| && LastIn(index, packs, n, OnChannel)
    ensures LastIn(if packs[n].channel != "" then index[packs[n].channel := n] else index, packs, n + 1, OnChannel)
  {
    LastSnoc(index, if packs[n].channel != "" then index[packs[n].channel := n] else index, packs, n, OnChannel);
  }

  /** Linear search from pack n on. */
  ghost function Find(packs: seq<Manifest>, n: nat, has: Has, a: string): Option<Manifest>
    requires n <= |packs|
    decreases |packs| - n
  {
    if n == |packs| then None else if has(packs[n], a) then Some(packs[n]) else Find(packs, n + 1, has, a)
  }

  lemma {:induction false} FindFirst(packs: seq<Manifest>, n: nat, has: Has, a: string, k: nat)
    requires n <= k < |packs| && has(packs[k], a) && forall i :: n <= i < k ==> !has(packs[i], a)
    ensures Find(packs, n, has, a) == Some(packs[k])
    decreases k - n
  {
    if n < k { FindFirst(packs, n + 1, has, a, k); }
  }

  lemma {:induction false} FindNone(packs: seq<Manifest>, n: nat, has: Has, a: string)
    requires n <= |packs| && forall i :: n <= i < |packs| ==> !has(packs[i], a)
    ensures Find(packs, n, has, a) == None
    decreases |packs| - n
  {
    if n < |packs| { FindNone(packs, n + 1, has, a); }
  }

  /** No two packs have the same name. */
  ghost predicate Unique(packs: seq<Manifest>, has: Has) {
    forall i, j, a :: 0 <= i < j < |packs| && has(packs[i], a) ==> !has(packs[j], a)
  }

  function Lookup(packs: seq<Manifest>, index: map<string, nat>, a: string): Option<Manifest> {
    if a in index && index[a] < |packs| then Some(packs[index[a]]) else None
  }

  lemma LastLookup(index: map<string, nat>, packs: seq<Manifest>, has: Has, a: string)
    requires LastIn(index, packs, |packs|, has) && Unique(packs, has)
    ensures Lookup(packs, index, a) == Find(packs, 0, has, a)
  {
    if a in index { FindFirst(packs, 0, has, a, index[a]); } else { FindNone(packs, 0, has, a); }
  }

  lemma FirstLookup(index: map<string, nat>, packs: seq<Manifest>, has: Has, a: string)
    requires FirstIn(index, packs, |packs|, has)
    ensures Lookup(packs, index, a) == Find(packs, 0, has, a)
  {
    if a in index { FindFirst(packs, 0, has, a, index[a]); } else { FindNone(packs, 0, has, a); }
  }

  lemma CompatibleUnique(packs: seq<Manifest>)
    requires Compatible(packs)
    ensures Unique(packs, HasID) && Unique(packs, Claims) && Unique(packs, OnChannel)
  {
    forall i, j, a | 0 <= i < j < |packs| ensures
      && (HasID(packs[i], a) ==> !HasID(packs[j], a))
      && (Claims(packs[i], a) ==> !Claims(packs[j], a))
      && (OnChannel(packs[i], a) ==> !OnChannel(packs[j], a))
    {
      assert !Conflict(packs[i], packs[j]);
    }
  }

  // ----- loading -----

  /** An entry that LoadCatalog skips, or whose manifest loads and is named after its directory. */
  ghost predicate Loads(e: Entry) { e.isDir ==> e.manifest.Some? && e.manifest.value.id == e.name }

  ghost function ManifestOf(e: Entry): seq<Manifest> { if e.isDir && e.manifest.Some? then [e.manifest.value] else [] }

  ghost function Manifests(entries: seq<Entry>): seq<Manifest> {
    if entries == [] then [] else Manifests(entries[..|entries| - 1]) + ManifestOf(entries[|entries| - 1])
  }

  lemma {:induction false} ManifestsPrefix(entries: seq<Entry>, n: nat)
    requires n <= |entries|
    ensures Manifests(entries[..n]) <= Manifests(entries)
    decreases |entries|
  {
    if n == |entries| {
      assert entries[..n] == entries;
    } else {
      var rest := entries[..|entries| - 1];
      ManifestsPrefix(rest, n);
      assert rest[..n] == entries[..n];
    }
  }

  lemma ManifestsSnoc(entries: seq<Entry>, n: nat)
    requires n < |entries|
    ensures Manifests(entries[..n + 1]) == Manifests(entries[..n]) + ManifestOf(entries[n])
  {
    assert entries[..n + 1][..n] == entries[..n];
  }

  lemma PrefixCompatible(a: seq<Manifest>, b: seq<Manifest>)
    requires a <= b && Compatible(b)
    ensures Compatible(a)
  {
  }

  /** names has exactly the names that some pack has. */
  ghost predicate Covers(names: map<string, nat>, packs: seq<Manifest>, has: Has) {
    && (forall a, k :: 0 <= k < |packs| && has(packs[k], a) ==> a in names)
    && (forall a :: a in names ==> exists k :: 0 <= k < |packs| && has(packs[k], a))
  }

  lemma CoversSnoc(before: map<string, nat>, after: map<string, nat>, packs: seq<Manifest>, m: Manifest, has: Has)
    requires Covers(before, packs, has) && forall a :: a in after <==> a in before || has(m, a)
    ensures Covers(after, packs + [m], has)
  {
    var next := packs + [m];
    assert next[|packs|] == m;
    forall a | a in after ensures exists k :: 0 <= k < |next| && has(next[k], a) {
      if has(m, a) { assert has(next[|packs|], a); } else {
        var k :| 0 <= k < |packs| && has(packs[k], a);
        assert has(next[k], a);
      }
    }
  }

  /** m's kinds are new, or among the shared ones. */
  ghost predicate KindsFit(kinds: map<string, nat>, m: Manifest) {
    KindsOnce(m) && forall kind :: HasKind(m, kind) && kind in kinds ==> Shared(kind)
  }

  /** The loop over one manifest's task kinds. */
  method AddKinds(kinds: map<string, nat>, m: Manifest, index: nat) returns (ok: bool, after: map<string, nat>)
    ensures ok <==> KindsFit(kinds, m)
    ensures ok ==> forall kind :: kind in after <==> kind in kinds || HasKind(m, kind)
  {
    after := kinds;
    for i := 0 to |m.taskKinds|
      invariant forall kind :: kind in after <==> kind in kinds || exists k :: 0 <= k < i && m.taskKinds[k] == kind
      invariant forall k :: 0 <= k < i && m.taskKinds[k] in kinds ==> Shared(m.taskKinds[k])
      invariant forall j, k :: 0 <= j < k < i && m.taskKinds[j] == m.taskKinds[k] ==> Shared(m.taskKinds[j])
    {
      var kind := m.taskKinds[i];
      if kind in after {
        if kind != "content_generation" && kind != "viral_analysis" {
          assert HasKind(m, kind);
          return false, after;
        }
      } else {
        after := after[kind := index];
      }
    }
    return true, after;
  }

  lemma CompatibleSnoc(packs: seq<Manifest>, m: Manifest)
    requires Compatible(packs)
    ensures Compatible(packs + [m]) <==> KindsOnce(m) && forall k :: 0 <= k < |packs| ==> !Conflict(packs[k], m)
  {
    var next := packs + [m];
    assert next[|packs|] == m && forall i :: 0 <= i < |packs| ==> next[i] == packs[i];
    if Compatible(next) {
      forall k | 0 <= k < |packs| ensures !Conflict(packs[k], m) { assert !Conflict(next[k], next[|packs|]); }
    }
  }

  /** Whether m may join, as the maps filled so far show. */
  lemma JoinMeans(packs: seq<Manifest>, names: map<string, nat>, channels: map<string, nat>, kinds: map<string, nat>, m: Manifest)
    requires Compatible(packs) && Covers(names, packs, Claims) && Covers(channels, packs, OnChannel) && Covers(kinds, packs, HasKind)
    ensures Compatible(packs + [m]) <==>
      m.id !in names && m.agentName !in names && (m.channel == "" || m.channel !in channels) && KindsFit(kinds, m)
  {
    CompatibleSnoc(packs, m);
    CoveredBy(names, packs, Claims, m.id);
    CoveredBy(names, packs, Claims, m.agentName);
    CoveredBy(channels, packs, OnChannel, m.channel);
    forall kind ensures kind in kinds <==> exists k :: 0 <= k < |packs| && HasKind(packs[k], kind) {
      CoveredBy(kinds, packs, HasKind, kind);
    }
  }

  lemma CoveredBy(names: map<string, nat>, packs: seq<Manifest>, has: Has, a: string)
    requires Covers(names, packs, has)
    ensures a in names <==> exists k :: 0 <= k < |packs| && has(packs[k], a)
  {
  }

  /** The duplicate checks of LoadCatalog; its maps are rebuilt by reindex, so here they are local. */
  method Collect(entries: seq<Entry>) returns (r: Option<seq<Manifest>>)
    ensures r.Some? <==> (forall i :: 0 <= i < |entries| ==> Loads(entries[i])) && Compatible(Manifests(entries))
    ensures r.Some? ==> r.value == Manifests(entries)
  {
    var packs: seq<Manifest> := [];
    var names: map<string, nat>, channels: map<string, nat>, kinds: map<string, nat> := map[], map[], map[];
    for i := 0 to |entries|
      invariant packs == Manifests(entries[..i]) && Compatible(packs)
      invariant forall k :: 0 <= k < i ==> Loads(entries[k])
      invariant Covers(names, packs, Claims) && Covers(channels, packs, OnChannel) && Covers(kinds, packs, HasKind)
    {
      ManifestsSnoc(entries, i);
      if !entries[i].isDir { continue; }
      if entries[i].manifest.None? || entries[i].manifest.value.id != entries[i].name { return None; }
      var m := entries[i].manifest.value;
      var joined;
      joined, names, channels, kinds := Join(packs, names, channels, kinds, m);
      if !joined {
        ManifestsPrefix(entries, i + 1);
        if Compatible(Manifests(entries)) { PrefixCompatible(packs + [m], Manifests(entries)); }
        return None;
      }
      packs := packs + [m];
    }
    assert entries[..|entries|] == entries;
    return Some(packs);
  }

  /** One manifest's checks and map updates. */
  method Join(packs: seq<Manifest>, names: map<string, nat>, channels: map<string, nat>, kinds: map<string, nat>, m: Manifest)
    returns (ok: bool, names': map<string, nat>, channels': map<string, nat>, kinds': map<string, nat>)
    requires Compatible(packs) && Covers(names, packs, Claims) && Covers(channels, packs, OnChannel) && Covers(kinds, packs, HasKind)
    ensures ok <==> Compatible(packs + [m])
    ensures ok ==> Covers(names', packs + [m], Claims) && Covers(channels', packs + [m], OnChannel) && Covers(kinds', packs + [m], HasKind)
  {
    JoinMeans(packs, names, channels, kinds, m);
    names', channels', kinds' := names, channels, kinds;
    if m.id in names || m.agentName in names || (m.channel != "" && m.channel in channels) { return false, names', channels', kinds'; }
    var index := |packs|;
    names' := names[m.id := index][m.agentName := index];
    var kindsOk;
    kindsOk, kinds' := AddKinds(kinds, m, index);
    if !kindsOk { return false, names', channels', kinds'; }
    if m.channel != "" { channels' := channels[m.channel := index]; }
    CoversSnoc(names, names', packs, m, Claims);
    CoversSnoc(channels, channels', packs, m, OnChannel);
    CoversSnoc(kinds, kinds', packs, m, HasKind);
    return true, names', channels', kinds';
  }

  // ----- the catalog -----

  class Catalog {
    var packs: seq<Manifest>
    var byID: map<string, nat>
    var byAgentID: map<string, nat>
    var byTaskKind: map<string, nat>
    var byChannel: map<string, nat>

    ghost predicate Indexed(n: nat)
      reads this
      requires n <= |packs|
    {
      && LastIn(byID, packs, n, HasID) && LastIn(byAgentID, packs, n, Claims)
      && FirstIn(byTaskKind, packs, n, HasKind) && LastIn(byChannel, packs, n, OnChannel)
    }

    ghost predicate Valid()
      reads this
    {
      Compatible(packs) && Ordered(packs, PackLess) && Indexed(|packs|)
    }

    /** LoadCatalog: succeeds exactly on entries that load and go together; the packs are those manifests in catalog order. */
    method Load(entries: seq<Entry>) returns (ok: bool)
      modifies this
      ensures ok <==> (forall i :: 0 <= i < |entries| ==> Loads(entries[i])) && Compatible(Manifests(entries))
      ensures ok ==> Valid() && multiset(packs) == multiset(Manifests(entries)) && InOrder(packs)
    {
      var loaded := Collect(entries);
      if loaded.None? { return false; }
      PackLessIsOrder();
      SortSorts(loaded.value, PackLess);
      ReorderedCompatible(loaded.value, Sort(loaded.value, PackLess));
      packs := Sort(loaded.value, PackLess);
      OrderMeans(packs);
      Reindex();
      return true;
    }

    method Reindex()
      modifies this`byID, this`byAgentID, this`byTaskKind, this`byChannel
      ensures Indexed(|packs|)
    {
      byID, byAgentID, byTaskKind, byChannel := map[], map[], map[], map[];
      for i := 0 to |packs|
        modifies this`byID, this`byAgentID, this`byTaskKind, this`byChannel
        invariant Indexed(i)
      {
        IDSnoc(byID, packs, i);
        AgentSnoc(byAgentID, packs, i);
        ChannelSnoc(byChannel, packs, i);
        ghost var kinds := byTaskKind;
        var p := packs[i];
        byID := byID[p.id := i];
        byAgentID := byAgentID[p.id := i][p.agentName := i];
        byTaskKind := FirstKinds(byTaskKind, p, i);
        FirstSnoc(kinds, byTaskKind, packs, i, HasKind);
        if p.channel != "" { byChannel := byChannel[p.channel := i]; }
      }
    }

    function Pack(id: string): (r: Option<Manifest>)
      reads this
      requires Valid()
      ensures r == Find(packs, 0, HasID, id)
    {
      CompatibleUnique(packs);
      LastLookup(byID, packs, HasID, id);
      Lookup(packs, byID, id)
    }

    function ForAgent(agentID: string): (r: Option<Manifest>)
      reads this
      requires Valid()
      ensures r == Find(packs, 0, Claims, TrimSpace(agentID))
    {
      CompatibleUnique(packs);
      LastLookup(byAgentID, packs, Claims, TrimSpace(agentID));
      Lookup(packs, byAgentID, TrimSpace(agentID))
    }

    function ForChannel(channel: string): (r: Option<Manifest>)
      reads this
      requires Valid()
      ensures r == Find(packs, 0, OnChannel, TrimSpace(channel))
    {
      CompatibleUnique(packs);
      LastLookup(byChannel, packs, OnChannel, TrimSpace(channel));
      Lookup(packs, byChannel, TrimSpace(channel))
    }

    function ForTaskKind(kind: string): (r: Option<Manifest>)
      reads this
      requires Valid()
      ensures r == Find(packs, 0, HasKind, TrimSpace(kind))
    {
      FirstLookup(byTaskKind, packs, HasKind, TrimSpace(kind));
      Lookup(packs, byTaskKind, TrimSpace(kind))
    }
  }

  /** The inner loop of reindex: a kind keeps the first pack that has it. */
  method FirstKinds(kinds: map<string, nat>, p: Manifest, index: nat) returns (after: map<string, nat>)
    ensures forall kind :: kind in kinds ==> kind in after && after[kind] == kinds[kind]
    ensures forall kind :: kind !in kinds ==> (kind in after <==> HasKind(p, kind)) && (kind in after ==> after[kind] == index)
  {
    after := kinds;
    for i := 0 to |p.taskKinds|
      invariant forall kind :: kind in kinds ==> kind in after && after[kind] == kinds[kind]
      invariant forall kind :: kind !in kinds ==>
        (kind in after <==> exists k :: 0 <= k < i && p.taskKinds[k] == kind) && (kind in after ==> after[kind] == index)
    {
      if p.taskKinds[i] !in after { after := after[p.taskKinds[i] := index]; }
    }
  }

  /** An agent name and a channel belong to one pack at most, wherever the search starts. */
  lemma FoundIsUnique(packs: seq<Manifest>, a: string, p: Manifest)
    requires Compatible(packs) && p in packs
    ensures Claims(p, a) ==> Find(packs, 0, Claims, a) == Some(p)
    ensures OnChannel(p, a) ==> Find(packs, 0, OnChannel, a) == Some(p)
    ensures HasID(p, a) ==> Find(packs, 0, HasID, a) == Some(p)
  {
    CompatibleUnique(packs);
    var k :| 0 <= k < |packs| && packs[k] == p;
    if Claims(p, a) { FindFirst(packs, 0, Claims, a, k); }
    if OnChannel(p, a) { FindFirst(packs, 0, OnChannel, a, k); }
    if HasID(p, a) { FindFirst(packs, 0, HasID, a, k); }
  }

  /** "ecommerce" comes first, the others by ascending id. */
  ghost predicate Comes(p: Manifest, q: Manifest) {
    q.id != "ecommerce" && (p.id == "ecommerce" || exists n :: DiffersAt(p.id, q.id, n))
  }

  ghost predicate InOrder(packs: seq<Manifest>) {
    forall i, j :: 0 <= i < j < |packs| ==> Comes(packs[i], packs[j])
  }

  lemma OrderMeans(packs: seq<Manifest>)
    requires Compatible(packs)
    ensures Ordered(packs, PackLess) <==> InOrder(packs)
  {
    forall i, j | 0 <= i < j < |packs| ensures !PackLess(packs[j], packs[i]) <==> Comes(packs[i], packs[j]) {
      assert !Conflict(packs[i], packs[j]);
      ComesMeans(packs[i], packs[j]);
    }
  }

  lemma ComesMeans(p: Manifest, q: Manifest)
    requires p.id != q.id
    ensures !PackLess(q, p) <==> Comes(p, q)
  {
    LexMeans(p.id, q.id);
    LexTotal(p.id, q.id);
    LexAsymmetric(p.id, q.id);
  }

  lemma LexAsymmetric(a: string, b: string)
    ensures !(Lex(a, b) && Lex(b, a))
  {
    LexIsOrder();
  }

  /** The ecommerce pack comes first, the others by ascending id, and no other arrangement is ordered. */
  lemma OrderIsUnique(a: seq<Manifest>, b: seq<Manifest>)
    requires Compatible(a) && Ordered(a, PackLess) && Ordered(b, PackLess) && multiset(a) == multiset(b)
    ensures a == b
    decreases |a|
  {
    if a != [] {
      assert |a| == |b| by { assert |multiset(a)| == |multiset(b)|; }
      HeadIsLeast(a, b);
      assert a == [a[0]] + a[1..] && b == [b[0]] + b[1..];
      assert multiset(a[1..]) == multiset(a) - multiset{a[0]} && multiset(b[1..]) == multiset(b) - multiset{b[0]};
      TailKeeps(a);
      TailOrdered(b);
      OrderIsUnique(a[1..], b[1..]);
    } else {
      assert |b| == |multiset(b)| == 0;
    }
  }

  lemma TailOrdered(s: seq<Manifest>)
    requires s != [] && Ordered(s, PackLess)
    ensures Ordered(s[1..], PackLess)
  {
  }

  lemma TailKeeps(s: seq<Manifest>)
    requires s != [] && Compatible(s) && Ordered(s, PackLess)
    ensures Compatible(s[1..]) && Ordered(s[1..], PackLess)
  {
    TailOrdered(s);
    var t := s[1..];
    forall i, j | 0 <= i < j < |t| ensures !Conflict(t[i], t[j]) { assert !Conflict(s[i + 1], s[j + 1]); }
    forall i | 0 <= i < |t| ensures KindsOnce(t[i]) { assert KindsOnce(s[i + 1]); }
  }

  lemma HeadIsLeast(a: seq<Manifest>, b: seq<Manifest>)
    requires a != [] && b != [] && Compatible(a) && Ordered(a, PackLess) && Ordered(b, PackLess) && multiset(a) == multiset(b)
    ensures a[0] == b[0]
  {
    assert a[0] in multiset(b) && b[0] in multiset(a);
    var i :| 0 <= i < |b| && b[i] == a[0];
    var j :| 0 <= j < |a| && a[j] == b[0];
    assert i > 0 ==> !PackLess(b[i], b[0]);
    assert j > 0 ==> !PackLess(a[j], a[0]);
    LexTotal(a[0].id, b[0].id);
    assert j > 0 ==> !Conflict(a[0], a[j]);
  }
}
