/**
 Compare-and-swap release of the Studio frontend (studio/deploy.py).

 Any number of release processes read the Service, create their candidate Deployment, verify
 that it carries every asset of the active image, and finally replace the Service selector
 under its resourceVersion.  Image contents never change.
 */
module StudioRelease {
  type Image = nat
  type Path = nat
  type Bytes = nat
  type Digest = nat
  type Labels = nat
  type Name = nat
  type Proc = nat

  /** assets: files under /assets; previous: previous-image.txt; sha: sha256sum. */
  datatype Registry = Registry(assets: Image -> map<Path, Bytes>, previous: Image -> Image, sha: Bytes -> Digest)

  /** Deployment name, the labels shared by Deployment and Service selector, and the pinned image. */
  datatype Manifest = Manifest(name: Name, labels: Labels, image: Image)

  /** `sha256sum -c` over a's inventory succeeds inside b. */
  predicate Carries(g: Registry, a: Image, b: Image) {
    forall f :: f in g.assets(a) ==> f in g.assets(b) && g.sha(g.assets(b)[f]) == g.sha(g.assets(a)[f])
  }

  /** The old files are served byte for byte. */
  ghost predicate CarriesBytes(g: Registry, a: Image, b: Image) {
    forall f :: f in g.assets(a) ==> f in g.assets(b) && g.assets(b)[f] == g.assets(a)[f]
  }

  datatype Stage = Idle | Read | Fresh | Planned | Rolled | Inherited | StillActive | Verified | Rechecked

  datatype Release = Release(stage: Stage, m: Manifest, selector: Labels, version: nat, parent: Image)

  const NO_RELEASE := Release(Idle, Manifest(0, 0, 0), 0, 0, 0)

  datatype Cluster = Cluster(
    selector: Labels, version: nat, deployments: map<Name, Manifest>, served: set<Image>, releases: map<Proc, Release>)
  {
    function At(p: Proc): Release { if p in releases then releases[p] else NO_RELEASE }

    function Go(p: Proc, r: Release): Cluster { this.(releases := releases[p := r]) }

    /** Pods behind the selector: every Deployment with those labels. */
    function Behind(l: Labels): set<Image> {
      set n | n in deployments && deployments[n].labels == l :: deployments[n].image
    }

    function Active(): set<Image> { Behind(selector) }
  }

  datatype Action =
    | Touch
    | Crash(p: Proc)
    | ReadService(p: Proc, m: Manifest)
    | CheckAbsent(p: Proc)
    | ReadParent(p: Proc, image: Image)
    | CreateCandidate(p: Proc)
    | CheckInherited(p: Proc)
    | ReadStillActive(p: Proc, image: Image)
    | VerifyAssets(p: Proc)
    | RecheckVersion(p: Proc)
    | Replace(p: Proc)

  function Advance(s: Cluster, p: Proc, ok: bool, next: Release): Cluster {
    if ok then s.Go(p, next) else s.Go(p, NO_RELEASE)
  }

  function Move(g: Registry, s: Cluster, a: Action): Cluster {
    match a
    case Touch => s.(version := s.version + 1)
    case Crash(p) => s.Go(p, NO_RELEASE)
    case ReadService(p, m) =>
      if !s.At(p).stage.Idle? || s.selector == m.labels then s
      else s.Go(p, Release(Read, m, s.selector, s.version, 0))
    case CheckAbsent(p) => var r := s.At(p);
      if r.stage.Read? then Advance(s, p, r.m.name !in s.deployments, r.(stage := Fresh)) else s
    case ReadParent(p, image) => var r := s.At(p);
      if r.stage.Fresh? then Advance(s, p, image in s.Behind(r.selector), r.(stage := Planned, parent := image)) else s
    case CreateCandidate(p) => var r := s.At(p);
      if r.stage.Planned? then
        Advance(s.(deployments := if r.m.name in s.deployments then s.deployments else s.deployments[r.m.name := r.m]),
                p, r.m.name !in s.deployments, r.(stage := Rolled))
      else s
    case CheckInherited(p) => var r := s.At(p);
      if r.stage.Rolled? then Advance(s, p, g.previous(r.m.image) == r.parent, r.(stage := Inherited)) else s
    case ReadStillActive(p, image) => var r := s.At(p);
      if r.stage.Inherited?
      then Advance(s, p, image in s.Behind(r.selector) && image == r.parent, r.(stage := StillActive)) else s
    case VerifyAssets(p) => var r := s.At(p);
      if r.stage.StillActive?
      then Advance(s, p, g.assets(r.parent) != map[] && Carries(g, r.parent, r.m.image), r.(stage := Verified)) else s
    case RecheckVersion(p) => var r := s.At(p);
      if r.stage.Verified? then Advance(s, p, s.version == r.version, r.(stage := Rechecked)) else s
    case Replace(p) => var r := s.At(p);
      if r.stage.Rechecked? then
        Advance(if s.version == r.version then s.(selector := r.m.labels, version := s.version + 1) else s, p, false, r)
      else s
  }

  /** One action; `served` records every image that has ever been behind the selector. */
  function Step(g: Registry, s: Cluster, a: Action): Cluster {
    var t := Move(g, s, a);
    t.(served := t.served + t.Active())
  }

  function Run(g: Registry, s: Cluster, acts: seq<Action>): Cluster
    decreases |acts|
  {
    if acts == [] then s else Run(g, Step(g, s, acts[0]), acts[1..])
  }

  /** An existing installation: one Deployment behind the Service, nobody releasing. */
  function Installed(base: Manifest): Cluster {
    Cluster(base.labels, 0, map[base.name := base], {base.image}, map[])
  }

  ghost predicate UsesOnly(acts: seq<Action>, ms: set<Manifest>) {
    forall i :: 0 <= i < |acts| && acts[i].ReadService? ==> acts[i].m in ms
  }

  /** The promise: whatever was ever served is still carried by everything served now. */
  ghost predicate KeepsOldAssets(g: Registry, s: Cluster) {
    forall was, now :: was in s.served && now in s.Active() ==> Carries(g, was, now)
  }

  // ----- which manifests keep the promise -----

  /** Two candidates under the same new labels, with different images. */
  ghost predicate Rivals(base: Manifest, m: Manifest, m': Manifest) {
    && m.labels == m'.labels && m.labels != base.labels && m.image != m'.image
    && m.name != m'.name && m.name != base.name && m'.name != base.name
  }

  /** m goes back to the labels of the retained base Deployment, after m2 has taken over from it. */
  ghost predicate Returns(base: Manifest, m: Manifest, m2: Manifest) {
    && m.labels == base.labels && m.image != base.image && m.name != base.name
    && m2.labels != base.labels && m2.image != m.image && m2.name != base.name && m2.name != m.name
  }

  ghost predicate Unambiguous(ms: set<Manifest>, base: Manifest) {
    forall m, m' :: m in ms && m' in ms ==> !Rivals(base, m, m') && !Returns(base, m, m')
  }

  // ----- invariant -----

  ghost predicate DeploymentsOk(ms: set<Manifest>, base: Manifest, ds: map<Name, Manifest>) {
    && base.name in ds && ds[base.name] == base
    && forall n :: n in ds ==> ds[n].name == n && (n != base.name ==> ds[n] in ms)
  }

  ghost predicate Past(r: Release, stage: Stage) { Rank(stage) <= Rank(r.stage) }

  ghost function Rank(stage: Stage): nat {
    match stage
    case Idle => 0 case Read => 1 case Fresh => 2 case Planned => 3 case Rolled => 4
    case Inherited => 5 case StillActive => 6 case Verified => 7 case Rechecked => 8
  }

  ghost predicate ReleaseOk(g: Registry, ms: set<Manifest>, s: Cluster, r: Release) {
    && (Past(r, Read) ==>
          && r.m in ms && r.selector != r.m.labels && r.version <= s.version && (r.version == s.version ==> r.selector == s.selector)
          && s.Behind(r.selector) <= s.served && s.Behind(r.selector) != {})
    && (Past(r, Planned) ==> r.parent in s.Behind(r.selector))
    && (Past(r, Rolled) ==> r.m.name in s.deployments && s.deployments[r.m.name] == r.m)
    && (Past(r, Inherited) ==> g.previous(r.m.image) == r.parent)
    && (Past(r, Verified) ==> Carries(g, r.parent, r.m.image))
  }

  /** An image that was served is deployed, carries the base assets, and is not its own predecessor. */
  ghost predicate ServedOk(g: Registry, base: Manifest, s: Cluster, i: Image) {
    && (exists n :: n in s.deployments && s.deployments[n].image == i)
    && Carries(g, base.image, i)
    && (i == base.image || g.previous(i) != i)
  }

  ghost predicate Inv(g: Registry, ms: set<Manifest>, base: Manifest, s: Cluster) {
    && DeploymentsOk(ms, base, s.deployments)
    && s.Active() != {} && s.Active() <= s.served && base.image in s.served
    && (forall i :: i in s.served ==> ServedOk(g, base, s, i))
    && (forall p :: p in s.releases ==> ReleaseOk(g, ms, s, s.releases[p]))
    && KeepsOldAssets(g, s)
  }

  // ----- images behind one selector -----

  lemma BehindHas(s: Cluster, n: Name)
    requires n in s.deployments
    ensures s.deployments[n].image in s.Behind(s.deployments[n].labels)
  {
  }

  /** Deployments under the same new labels run the same image. */
  lemma NewLabelsOneImage(ms: set<Manifest>, base: Manifest, ds: map<Name, Manifest>, n: Name, n': Name)
    requires Unambiguous(ms, base) && DeploymentsOk(ms, base, ds)
    requires n in ds && n' in ds && ds[n].labels == ds[n'].labels && ds[n].labels != base.labels
    ensures ds[n].image == ds[n'].image
  {
    if n != n' { assert !Rivals(base, ds[n], ds[n']); }
  }

  /** Another image under the base labels is the image of every Deployment under new labels. */
  lemma BaseLabelsOtherImage(ms: set<Manifest>, base: Manifest, ds: map<Name, Manifest>, n: Name, d: Name)
    requires Unambiguous(ms, base) && DeploymentsOk(ms, base, ds)
    requires n in ds && d in ds && ds[n].labels == base.labels && ds[n].image != base.image && ds[d].labels != base.labels
    ensures ds[d].image == ds[n].image
  {
    assert !Returns(base, ds[n], ds[d]);
  }

  lemma CarriesTransitive(g: Registry, a: Image, b: Image, c: Image)
    requires Carries(g, a, b) && Carries(g, b, c)
    ensures Carries(g, a, c)
  {
  }

  // ----- local steps -----

  lemma ReleaseStable(g: Registry, ms: set<Manifest>, s: Cluster, t: Cluster, r: Release)
    requires ReleaseOk(g, ms, s, r) && t.deployments == s.deployments && s.version <= t.version && s.served <= t.served
    requires t.version == s.version ==> t.selector == s.selector
    ensures ReleaseOk(g, ms, t, r)
  {
  }

  /** Steps that change neither Service nor Deployments, and at most one release. */
  lemma LocalKeeps(g: Registry, ms: set<Manifest>, base: Manifest, s: Cluster, t: Cluster, p: Proc, r: Release)
    requires Inv(g, ms, base, s) && ReleaseOk(g, ms, s, r)
    requires t == s.Go(p, r).(served := s.served + s.Active())
    ensures Inv(g, ms, base, t)
  {
    assert t.Active() == s.Active() && t.served == s.served;
    forall q | q in t.releases ensures ReleaseOk(g, ms, t, t.releases[q]) { ReleaseStable(g, ms, s, t, t.releases[q]); }
    forall i | i in t.served ensures ServedOk(g, base, t, i) { assert ServedOk(g, base, s, i); }
  }

  lemma TouchKeeps(g: Registry, ms: set<Manifest>, base: Manifest, s: Cluster)
    requires Inv(g, ms, base, s)
    ensures Inv(g, ms, base, Step(g, s, Touch))
  {
    var t := Step(g, s, Touch);
    assert t.Active() == s.Active() && t.served == s.served;
    forall q | q in t.releases ensures ReleaseOk(g, ms, t, t.releases[q]) { ReleaseStable(g, ms, s, t, s.releases[q]); }
    forall i | i in t.served ensures ServedOk(g, base, t, i) { assert ServedOk(g, base, s, i); }
  }

  ghost predicate LocalAction(a: Action) { !a.Touch? && !a.CreateCandidate? && !a.Replace? }

  lemma LocalRelease(g: Registry, ms: set<Manifest>, s: Cluster, a: Action)
    requires LocalAction(a) && ReleaseOk(g, ms, s, s.At(a.p)) && (a.ReadService? ==> a.m in ms)
    requires s.Active() != {} && s.Active() <= s.served
    ensures var t := Move(g, s, a); t == s || (t == s.Go(a.p, t.At(a.p)) && ReleaseOk(g, ms, s, t.At(a.p)))
  {
    var t := Move(g, s, a);
    assert t != s ==> a.p in t.releases;
  }

  // ----- creating a candidate -----

  /** A new Deployment changes what is behind labels in use only by an image that was served. */
  lemma CandidateImage(g: Registry, ms: set<Manifest>, base: Manifest, s: Cluster, r: Release)
    requires Unambiguous(ms, base) && DeploymentsOk(ms, base, s.deployments) && ReleaseOk(g, ms, s, r) && r.stage.Planned?
    requires r.m.name !in s.deployments && s.Behind(r.m.labels) != {}
    ensures r.m.labels != base.labels ==> r.m.image in s.Behind(r.m.labels)
    ensures r.m.labels == base.labels ==> r.m.image == base.image || r.m.image in s.served
  {
    var n :| n in s.deployments && s.deployments[n].labels == r.m.labels;
    var d :| d in s.deployments && s.deployments[d].labels == r.selector;
    if r.m.labels != base.labels {
      assert !Rivals(base, r.m, s.deployments[n]);
    } else {
      assert !Returns(base, r.m, s.deployments[d]);
      assert s.deployments[d].image in s.Behind(r.selector);
    }
  }

  /** In that case there is only one other image. */
  lemma OnlyOtherImage(g: Registry, ms: set<Manifest>, base: Manifest, s: Cluster, r: Release, n: Name)
    requires Unambiguous(ms, base) && DeploymentsOk(ms, base, s.deployments) && ReleaseOk(g, ms, s, r) && r.stage.Planned?
    requires r.m.name !in s.deployments && r.m.labels == base.labels && r.m.image != base.image && n in s.deployments
    ensures s.deployments[n].image == base.image || s.deployments[n].image == r.m.image
  {
    var d :| d in s.deployments && s.deployments[d].labels == r.selector;
    assert !Returns(base, r.m, s.deployments[d]) && !Returns(base, r.m, s.deployments[n]);
    if s.deployments[n].labels == base.labels && s.deployments[n].image != base.image {
      BaseLabelsOtherImage(ms, base, s.deployments, n, d);
    }
  }

  /** Labels that somebody uses gain only served images. */
  lemma BehindStaysServed(g: Registry, ms: set<Manifest>, base: Manifest, s: Cluster, t: Cluster, r: Release, l: Labels)
    requires Unambiguous(ms, base) && DeploymentsOk(ms, base, s.deployments) && base.image in s.served
    requires ReleaseOk(g, ms, s, r) && r.stage.Planned? && r.m.name !in s.deployments
    requires t.deployments == s.deployments[r.m.name := r.m] && s.Behind(l) != {} && s.Behind(l) <= s.served
    ensures s.Behind(l) <= t.Behind(l) <= s.served
  {
    if l == r.m.labels { CandidateImage(g, ms, base, s, r); }
    forall i | i in t.Behind(l) ensures i in s.served {
      var n :| n in t.deployments && t.deployments[n].labels == l && t.deployments[n].image == i;
      if n != r.m.name { assert i in s.Behind(l); }
    }
    forall i | i in s.Behind(l) ensures i in t.Behind(l) {
      var n :| n in s.deployments && s.deployments[n].labels == l && s.deployments[n].image == i;
      assert n in t.deployments && t.deployments[n] == s.deployments[n];
    }
  }

  lemma CreatedRelease(g: Registry, ms: set<Manifest>, base: Manifest, s: Cluster, t: Cluster, r: Release, q: Release)
    requires Unambiguous(ms, base) && DeploymentsOk(ms, base, s.deployments) && base.image in s.served
    requires ReleaseOk(g, ms, s, r) && r.stage.Planned? && r.m.name !in s.deployments && ReleaseOk(g, ms, s, q)
    requires t.deployments == s.deployments[r.m.name := r.m] && t.selector == s.selector && t.version == s.version && t.served == s.served
    ensures ReleaseOk(g, ms, t, q)
  {
    if Past(q, Read) { BehindStaysServed(g, ms, base, s, t, r, q.selector); }
  }

  lemma CreatedKeepsAssets(g: Registry, ms: set<Manifest>, base: Manifest, s: Cluster, t: Cluster, r: Release)
    requires Unambiguous(ms, base) && Inv(g, ms, base, s) && ReleaseOk(g, ms, s, r) && r.stage.Planned? && r.m.name !in s.deployments
    requires t.deployments == s.deployments[r.m.name := r.m] && t.selector == s.selector && t.served == s.served
    ensures KeepsOldAssets(g, t)
  {
    forall was, now | was in t.served && now in t.Active() ensures Carries(g, was, now) {
      assert ServedOk(g, base, s, was);
      var n :| n in t.deployments && t.deployments[n].labels == t.selector && t.deployments[n].image == now;
      if n == r.m.name {
        CandidateImage(g, ms, base, s, r);
        if now !in s.Active() {
          BaseImageActive(ms, base, s);
          var w :| w in s.deployments && s.deployments[w].image == was;
          OnlyOtherImage(g, ms, base, s, r, w);
          assert ServedOk(g, base, s, now);
        }
      } else {
        assert now in s.Active();
      }
    }
  }

  lemma BaseImageActive(ms: set<Manifest>, base: Manifest, s: Cluster)
    requires DeploymentsOk(ms, base, s.deployments)
    ensures s.selector == base.labels ==> base.image in s.Active()
  {
    assert s.deployments[base.name] == base;
  }

  /** Deployments are never removed, so what was served stays deployed. */
  lemma ServedStays(g: Registry, base: Manifest, s: Cluster, t: Cluster, i: Image)
    requires ServedOk(g, base, s, i)
    requires forall n :: n in s.deployments ==> n in t.deployments && t.deployments[n] == s.deployments[n]
    ensures ServedOk(g, base, t, i)
  {
    var n :| n in s.deployments && s.deployments[n].image == i;
    assert n in t.deployments && t.deployments[n].image == i;
  }

  lemma CreatedKeeps(g: Registry, ms: set<Manifest>, base: Manifest, s: Cluster, t: Cluster, p: Proc, r: Release)
    requires Unambiguous(ms, base) && Inv(g, ms, base, s)
    requires p in s.releases && r == s.releases[p] && r.stage.Planned? && r.m.name !in s.deployments
    requires t == s.(deployments := s.deployments[r.m.name := r.m], releases := s.releases[p := r.(stage := Rolled)])
    ensures Inv(g, ms, base, t)
  {
    BehindStaysServed(g, ms, base, s, t, r, s.selector);
    CreatedKeepsAssets(g, ms, base, s, t, r);
    forall q | q in t.releases ensures ReleaseOk(g, ms, t, t.releases[q]) {
      CreatedRelease(g, ms, base, s, t, r, s.releases[q]);
    }
    forall i | i in t.served ensures ServedOk(g, base, t, i) { ServedStays(g, base, s, t, i); }
  }

  lemma CreateKeeps(g: Registry, ms: set<Manifest>, base: Manifest, s: Cluster, p: Proc)
    requires Unambiguous(ms, base) && Inv(g, ms, base, s)
    ensures Inv(g, ms, base, Step(g, s, CreateCandidate(p)))
  {
    var r, t := s.At(p), Step(g, s, CreateCandidate(p));
    if !r.stage.Planned? {
      assert s.served + s.Active() == s.served;
      assert t == s;
    } else if r.m.name in s.deployments {
      LocalKeeps(g, ms, base, s, t, p, NO_RELEASE);
    } else {
      BehindStaysServed(g, ms, base, s, t, r, s.selector);
      assert t.served == s.served;
      CreatedKeeps(g, ms, base, s, t, p, r);
    }
  }

  // ----- the swap -----

  /** Behind the candidate's labels is the candidate, or the image it was verified against. */
  lemma SwappedImages(g: Registry, ms: set<Manifest>, base: Manifest, s: Cluster, r: Release, y: Image)
    requires Unambiguous(ms, base) && Inv(g, ms, base, s) && ReleaseOk(g, ms, s, r) && r.stage.Rechecked? && s.version == r.version
    requires y in s.Behind(r.m.labels)
    ensures y == r.m.image || y == r.parent
  {
    var n :| n in s.deployments && s.deployments[n].labels == r.m.labels && s.deployments[n].image == y;
    var d :| d in s.deployments && s.deployments[d].labels == r.selector && s.deployments[d].image == r.parent;
    assert r.parent in s.Active() && ServedOk(g, base, s, r.parent);
    if r.m.labels != base.labels {
      NewLabelsOneImage(ms, base, s.deployments, n, r.m.name);
    } else if r.m.image != base.image {
      BaseLabelsOtherImage(ms, base, s.deployments, r.m.name, d);
    } else if y != base.image {
      BaseLabelsOtherImage(ms, base, s.deployments, n, d);
    }
  }

  /** Whoever was served is carried by the verified parent, hence by the candidate. */
  lemma SwapKeeps(g: Registry, ms: set<Manifest>, base: Manifest, s: Cluster, t: Cluster, r: Release)
    requires Unambiguous(ms, base) && Inv(g, ms, base, s) && ReleaseOk(g, ms, s, r) && r.stage.Rechecked? && s.version == r.version
    requires t.selector == r.m.labels && t.deployments == s.deployments && t.served == s.served + t.Active()
    ensures KeepsOldAssets(g, t)
    ensures forall i :: i in t.served ==> ServedOk(g, base, t, i)
  {
    assert r.parent in s.Active() && ServedOk(g, base, s, r.parent);
    forall y | y in t.Active() ensures y == r.m.image || y == r.parent { SwappedImages(g, ms, base, s, r, y); }
    forall was, now | was in t.served && now in t.Active() ensures Carries(g, was, now) {
      if was in s.served { assert Carries(g, was, r.parent); }
      if was in s.served && now == r.m.image { CarriesTransitive(g, was, r.parent, now); }
      if was == r.m.image && was !in s.served && now == r.parent { SwappedBase(g, ms, base, s, r); }
    }
    forall i | i in t.served ensures ServedOk(g, base, t, i) {
      if i in s.served {
        assert ServedOk(g, base, s, i);
      } else {
        CarriesTransitive(g, base.image, r.parent, i);
        assert s.deployments[r.m.name].image == i;
      }
    }
  }

  /** If the parent is behind the candidate's labels too, the candidate is the base image again, or the same image. */
  lemma SwappedBase(g: Registry, ms: set<Manifest>, base: Manifest, s: Cluster, r: Release)
    requires Unambiguous(ms, base) && Inv(g, ms, base, s) && ReleaseOk(g, ms, s, r) && r.stage.Rechecked? && s.version == r.version
    requires r.parent in s.Behind(r.m.labels)
    ensures r.m.image in s.served
  {
    var n :| n in s.deployments && s.deployments[n].labels == r.m.labels && s.deployments[n].image == r.parent;
    if r.m.labels != base.labels {
      NewLabelsOneImage(ms, base, s.deployments, n, r.m.name);
    } else if r.m.image != base.image {
      var d :| d in s.deployments && s.deployments[d].labels == r.selector && s.deployments[d].image == r.parent;
      BaseLabelsOtherImage(ms, base, s.deployments, r.m.name, d);
    }
  }

  lemma SwappedKeeps(g: Registry, ms: set<Manifest>, base: Manifest, s: Cluster, t: Cluster, p: Proc, r: Release)
    requires Unambiguous(ms, base) && Inv(g, ms, base, s) && ReleaseOk(g, ms, s, r) && r.stage.Rechecked? && s.version == r.version
    requires t.selector == r.m.labels && t.deployments == s.deployments && t.version == s.version + 1
    requires t.served == s.served + t.Active() && t.releases == s.releases[p := NO_RELEASE]
    ensures Inv(g, ms, base, t)
  {
    SwapKeeps(g, ms, base, s, t, r);
    assert r.m.image in t.Active() by { BehindHas(t, r.m.name); }
    forall q | q in t.releases ensures ReleaseOk(g, ms, t, t.releases[q]) {
      if q != p { ReleaseStable(g, ms, s, t, s.releases[q]); }
    }
  }

  lemma ReplaceKeeps(g: Registry, ms: set<Manifest>, base: Manifest, s: Cluster, p: Proc)
    requires Unambiguous(ms, base) && Inv(g, ms, base, s)
    ensures Inv(g, ms, base, Step(g, s, Replace(p)))
  {
    var r, t := s.At(p), Step(g, s, Replace(p));
    assert s.served + s.Active() == s.served;
    if !r.stage.Rechecked? {
      assert t == s;
    } else if s.version != r.version {
      assert t == s.Go(p, NO_RELEASE).(served := s.served + s.Active());
      LocalKeeps(g, ms, base, s, t, p, NO_RELEASE);
    } else {
      assert ReleaseOk(g, ms, s, s.releases[p]);
      SwappedKeeps(g, ms, base, s, t, p, r);
    }
  }

  // ----- every run -----

  lemma StepKeeps(g: Registry, ms: set<Manifest>, base: Manifest, s: Cluster, a: Action)
    requires Unambiguous(ms, base) && Inv(g, ms, base, s) && (a.ReadService? ==> a.m in ms)
    ensures Inv(g, ms, base, Step(g, s, a))
  {
    match a
    case Touch => TouchKeeps(g, ms, base, s);
    case CreateCandidate(p) => CreateKeeps(g, ms, base, s, p);
    case Replace(p) => ReplaceKeeps(g, ms, base, s, p);
    case _ =>
      LocalRelease(g, ms, s, a);
      var t := Move(g, s, a);
      if t == s {
        assert Step(g, s, a) == s by { assert s.served + s.Active() == s.served; }
      } else {
        LocalKeeps(g, ms, base, s, Step(g, s, a), a.p, t.At(a.p));
      }
  }

  lemma {:induction false} RunKeeps(g: Registry, ms: set<Manifest>, base: Manifest, s: Cluster, acts: seq<Action>)
    requires Unambiguous(ms, base) && Inv(g, ms, base, s) && UsesOnly(acts, ms)
    ensures Inv(g, ms, base, Run(g, s, acts))
    decreases |acts|
  {
    if acts != [] {
      StepKeeps(g, ms, base, s, acts[0]);
      RunKeeps(g, ms, base, Step(g, s, acts[0]), acts[1..]);
    }
  }

  /**
   Over every run of any number of concurrent releases of unambiguous manifests, every image behind
   the Service carries the assets of every image that was ever behind it.
   */
  lemma OldAssetsSurvive(g: Registry, ms: set<Manifest>, base: Manifest, acts: seq<Action>)
    requires Unambiguous(ms, base) && UsesOnly(acts, ms)
    ensures KeepsOldAssets(g, Run(g, Installed(base), acts))
  {
    var s := Installed(base);
    assert s.deployments[base.name].labels == s.selector && s.Active() == {base.image};
    RunKeeps(g, ms, base, s, acts);
  }

  /** Without SHA-256 collisions among the images involved, the old files survive byte for byte. */
  lemma OldBytesSurvive(g: Registry, ms: set<Manifest>, base: Manifest, acts: seq<Action>, was: Image, now: Image)
    requires Unambiguous(ms, base) && UsesOnly(acts, ms)
    requires was in Run(g, Installed(base), acts).served && now in Run(g, Installed(base), acts).Active()
    requires forall f :: f in g.assets(was) && f in g.assets(now) && g.sha(g.assets(was)[f]) == g.sha(g.assets(now)[f])
               ==> g.assets(was)[f] == g.assets(now)[f]
    ensures CarriesBytes(g, was, now)
  {
    OldAssetsSurvive(g, ms, base, acts);
    assert Carries(g, was, now);
  }

  // ----- why the manifests must be unambiguous -----

  lemma {:induction false} RunSnoc(g: Registry, s: Cluster, acts: seq<Action>, a: Action)
    ensures Run(g, s, acts + [a]) == Step(g, Run(g, s, acts), a)
    decreases |acts|
  {
    if acts == [] {
      assert acts + [a] == [a];
      assert Run(g, s, [a]) == Run(g, Step(g, s, a), []);
    } else {
      assert (acts + [a])[0] == acts[0] && (acts + [a])[1..] == acts[1..] + [a];
      RunSnoc(g, Step(g, s, acts[0]), acts[1..], a);
    }
  }

  ghost predicate Reachable(g: Registry, ms: set<Manifest>, base: Manifest, s: Cluster) {
    exists acts: seq<Action> :: UsesOnly(acts, ms) && s == Run(g, Installed(base), acts)
  }

  lemma Take(g: Registry, ms: set<Manifest>, base: Manifest, s: Cluster, a: Action) returns (t: Cluster)
    requires Reachable(g, ms, base, s) && (a.ReadService? ==> a.m in ms)
    ensures Reachable(g, ms, base, t) && t == Step(g, s, a)
  {
    var acts: seq<Action> :| UsesOnly(acts, ms) && s == Run(g, Installed(base), acts);
    RunSnoc(g, Installed(base), acts, a);
    t := Step(g, s, a);
    assert UsesOnly(acts + [a], ms) && t == Run(g, Installed(base), acts + [a]);
  }

  /** A process plans and creates its candidate; nothing else changes. */
  lemma Plan(g: Registry, ms: set<Manifest>, base: Manifest, s: Cluster, p: Proc, m: Manifest, parent: Image) returns (t: Cluster)
    requires Reachable(g, ms, base, s) && m in ms
    requires s.At(p).stage.Idle? && s.selector != m.labels && m.name !in s.deployments && parent in s.Active()
    ensures Reachable(g, ms, base, t) && s.served <= t.served
    ensures t.selector == s.selector && t.version == s.version && t.deployments == s.deployments[m.name := m]
    ensures t.At(p) == Release(Rolled, m, s.selector, s.version, parent)
    ensures forall q :: q != p ==> t.At(q) == s.At(q)
  {
    t := Take(g, ms, base, s, ReadService(p, m));
    t := Take(g, ms, base, t, CheckAbsent(p));
    assert t.At(p).stage.Fresh? && t.deployments == s.deployments;
    t := Take(g, ms, base, t, ReadParent(p, parent));
    assert t.At(p).stage.Planned?;
    t := Take(g, ms, base, t, CreateCandidate(p));
  }

  /** A process passes every check before the swap. */
  lemma Check(g: Registry, ms: set<Manifest>, base: Manifest, s: Cluster, p: Proc, r: Release) returns (t: Cluster)
    requires Reachable(g, ms, base, s) && s.At(p) == r && r.stage.Rolled? && r.version == s.version && r.parent in s.Behind(r.selector)
    requires g.previous(r.m.image) == r.parent && g.assets(r.parent) != map[] && Carries(g, r.parent, r.m.image)
    ensures Reachable(g, ms, base, t) && s.served <= t.served
    ensures t.selector == s.selector && t.version == s.version && t.deployments == s.deployments
    ensures t.releases == s.releases[p := r.(stage := Verified)]
  {
    t := Take(g, ms, base, s, CheckInherited(p));
    assert t.At(p) == r.(stage := Inherited) && t.Behind(r.selector) == s.Behind(r.selector);
    t := Take(g, ms, base, t, ReadStillActive(p, r.parent));
    assert t.At(p) == r.(stage := StillActive);
    t := Take(g, ms, base, t, VerifyAssets(p));
  }

  /** Nobody touched the Service meanwhile: the swap succeeds. */
  lemma Swap(g: Registry, ms: set<Manifest>, base: Manifest, s: Cluster, p: Proc, r: Release) returns (t: Cluster)
    requires Reachable(g, ms, base, s) && s.At(p) == r && r.stage.Verified? && r.version == s.version
    ensures Reachable(g, ms, base, t) && s.served + t.Active() <= t.served
    ensures t.selector == r.m.labels && t.deployments == s.deployments && t.releases == s.releases[p := NO_RELEASE]
  {
    t := Take(g, ms, base, s, RecheckVersion(p));
    assert t.At(p) == r.(stage := Rechecked);
    t := Take(g, ms, base, t, Replace(p));
  }

  /** A process verifies and swaps. */
  lemma Finish(g: Registry, ms: set<Manifest>, base: Manifest, s: Cluster, p: Proc, m: Manifest, parent: Image) returns (t: Cluster)
    requires Reachable(g, ms, base, s) && parent in s.Active()
    requires s.At(p) == Release(Rolled, m, s.selector, s.version, parent)
    requires g.previous(m.image) == parent && g.assets(parent) != map[] && Carries(g, parent, m.image)
    ensures Reachable(g, ms, base, t) && s.served + t.Active() <= t.served
    ensures t.selector == m.labels && t.deployments == s.deployments && t.releases == s.releases[p := NO_RELEASE]
  {
    t := Check(g, ms, base, s, p, s.At(p));
    t := Swap(g, ms, base, t, p, t.At(p));
  }

  /** Some run of these manifests loses an asset, for some contents of the images. */
  ghost predicate Breaks(g: Registry, ms: set<Manifest>, base: Manifest) {
    exists s :: Reachable(g, ms, base, s) && !KeepsOldAssets(g, s)
  }

  lemma Start(g: Registry, ms: set<Manifest>, base: Manifest) returns (s: Cluster)
    ensures s == Installed(base) && Reachable(g, ms, base, s) && base.image in s.Active()
  {
    s := Installed(base);
    assert UsesOnly([], ms) && s == Run(g, s, []);
    BehindHas(s, base.name);
  }

  lemma Lost(g: Registry, ms: set<Manifest>, base: Manifest, s: Cluster, was: Image, n: Name, f: Path)
    requires Reachable(g, ms, base, s) && was in s.served && n in s.deployments && s.deployments[n].labels == s.selector
    requires f in g.assets(was) && f !in g.assets(s.deployments[n].image)
    ensures Breaks(g, ms, base)
  {
    BehindHas(s, n);
    assert !Carries(g, was, s.deployments[n].image);
  }

  /** The base has asset 0, m inherits it and adds asset 1, every other image is empty. */
  function RivalImages(base: Image, m: Image): Registry {
    Registry(i => if i == base then map[0 := 0] else if i == m then map[0 := 0, 1 := 0] else map[], _ => base, b => b)
  }

  /** Releasing one of two rivals exposes the other unverified. */
  lemma RivalsBreak(ms: set<Manifest>, base: Manifest, m: Manifest, m': Manifest)
    requires m in ms && m' in ms && Rivals(base, m, m')
    ensures Breaks(RivalImages(base.image, m.image), ms, base)
  {
    var g := RivalImages(base.image, m.image);
    var s := Start(g, ms, base);
    s := Plan(g, ms, base, s, 0, m, base.image);
    BehindHas(s, base.name);
    s := Plan(g, ms, base, s, 1, m', base.image);
    BehindHas(s, base.name);
    s := Finish(g, ms, base, s, 0, m, base.image);
    BehindHas(s, m.name);
    if m'.image == base.image { Lost(g, ms, base, s, m.image, m'.name, 1); } else { Lost(g, ms, base, s, base.image, m'.name, 0); }
  }

  /** The base has asset 0, every other image also asset 1; m was built on m2, the others on base. */
  function ReturnImages(base: Image, m: Image, m2: Image): Registry {
    Registry(i => if i == base then map[0 := 0] else map[0 := 0, 1 := 0], i => if i == m then m2 else base, b => b)
  }

  /** One whole release without interference. */
  lemma ReleaseAlone(g: Registry, ms: set<Manifest>, base: Manifest, s: Cluster, p: Proc, m: Manifest, n: Name) returns (t: Cluster)
    requires Reachable(g, ms, base, s) && m in ms && s.At(p).stage.Idle? && s.selector != m.labels && m.name !in s.deployments
    requires n in s.deployments && s.deployments[n].labels == s.selector && g.previous(m.image) == s.deployments[n].image
    requires g.assets(s.deployments[n].image) != map[] && Carries(g, s.deployments[n].image, m.image)
    ensures Reachable(g, ms, base, t) && t.selector == m.labels && t.deployments == s.deployments[m.name := m]
    ensures m.image in t.served && forall q :: q != p ==> t.At(q) == s.At(q)
  {
    BehindHas(s, n);
    t := Plan(g, ms, base, s, p, m, s.deployments[n].image);
    BehindHas(t, n);
    t := Finish(g, ms, base, t, p, m, s.deployments[n].image);
    BehindHas(t, m.name);
  }

  /** Releasing under the labels of the retained base Deployment brings it back without later assets. */
  lemma ReturnsBreak(ms: set<Manifest>, base: Manifest, m: Manifest, m2: Manifest)
    requires m in ms && m2 in ms && Returns(base, m, m2)
    ensures Breaks(ReturnImages(base.image, m.image, m2.image), ms, base)
  {
    var g := ReturnImages(base.image, m.image, m2.image);
    var s := Start(g, ms, base);
    s := ReleaseAlone(g, ms, base, s, 0, m2, base.name);
    s := ReleaseAlone(g, ms, base, s, 1, m, m2.name);
    Lost(g, ms, base, s, m.image, base.name, 1);
  }

  /** The promise holds for all contents of the images and all runs exactly if the manifests are unambiguous. */
  lemma AssetsSurviveIff(ms: set<Manifest>, base: Manifest)
    ensures Unambiguous(ms, base) <==> forall g: Registry :: !Breaks(g, ms, base)
  {
    if Unambiguous(ms, base) {
      forall g: Registry, s | Reachable(g, ms, base, s) ensures KeepsOldAssets(g, s) {
        var acts: seq<Action> :| UsesOnly(acts, ms) && s == Run(g, Installed(base), acts);
        OldAssetsSurvive(g, ms, base, acts);
      }
    } else {
      var m, m' :| m in ms && m' in ms && (Rivals(base, m, m') || Returns(base, m, m'));
      if Rivals(base, m, m') { RivalsBreak(ms, base, m, m'); } else { ReturnsBreak(ms, base, m, m'); }
    }
  }

  // ----- one release, step by step -----

  /** release() of one process without interference; the two reads of the active image may meet any ready Pod. */
  function Script(p: Proc, m: Manifest, first: Image, second: Image): seq<Action> {
    [ReadService(p, m), CheckAbsent(p), ReadParent(p, first), CreateCandidate(p)] + Checks(p, second)
  }

  function Checks(p: Proc, second: Image): seq<Action> {
    [CheckInherited(p), ReadStillActive(p, second), VerifyAssets(p), RecheckVersion(p), Replace(p)]
  }

  /** Traffic is switched, or stays where it was. */
  ghost predicate Switched(s: Cluster, t: Cluster, m: Manifest, ok: bool) {
    && t.selector == (if ok then m.labels else s.selector)
    && t.version == (if ok then s.version + 1 else s.version)
  }

  lemma RunCons(g: Registry, s: Cluster, acts: seq<Action>)
    requires acts != []
    ensures Run(g, s, acts) == Run(g, Step(g, s, acts[0]), acts[1..])
  {
  }

  /** A process that gave up does nothing more. */
  lemma {:induction false} GaveUp(g: Registry, s: Cluster, p: Proc, acts: seq<Action>)
    requires s.At(p).stage.Idle?
    requires forall i :: 0 <= i < |acts| ==> !acts[i].Touch? && !acts[i].Crash? && !acts[i].ReadService? && acts[i].p == p
    ensures var t := Run(g, s, acts); t.selector == s.selector && t.version == s.version
    decreases |acts|
  {
    if acts != [] {
      RunCons(g, s, acts);
      GaveUp(g, Step(g, s, acts[0]), p, acts[1..]);
    }
  }

  lemma LastChecks(g: Registry, s: Cluster, p: Proc, r: Release)
    requires s.At(p) == r && r.stage.Verified? && r.version == s.version
    ensures Switched(s, Run(g, s, [RecheckVersion(p), Replace(p)]), r.m, true)
  {
    var acts := [RecheckVersion(p), Replace(p)];
    var t := Step(g, s, acts[0]);
    RunCons(g, s, acts);
    assert acts[1..] == [Replace(p)] && t.At(p) == r.(stage := Rechecked);
    RunCons(g, t, acts[1..]);
  }

  lemma AssetChecks(g: Registry, s: Cluster, p: Proc, r: Release)
    requires s.At(p) == r && r.stage.StillActive? && r.version == s.version
    ensures Switched(s, Run(g, s, [VerifyAssets(p), RecheckVersion(p), Replace(p)]), r.m, g.assets(r.parent) != map[] && Carries(g, r.parent, r.m.image))
  {
    var acts := [VerifyAssets(p), RecheckVersion(p), Replace(p)];
    var t := Step(g, s, acts[0]);
    RunCons(g, s, acts);
    assert acts[1..] == [RecheckVersion(p), Replace(p)] && t.selector == s.selector && t.version == s.version;
    if g.assets(r.parent) != map[] && Carries(g, r.parent, r.m.image) {
      LastChecks(g, t, p, r.(stage := Verified));
    } else {
      GaveUp(g, t, p, acts[1..]);
    }
  }

  lemma ActiveChecks(g: Registry, s: Cluster, p: Proc, r: Release, second: Image)
    requires s.At(p) == r && r.stage.Inherited? && r.version == s.version
    ensures Switched(s, Run(g, s, Checks(p, second)[1..]), r.m,
                     second in s.Behind(r.selector) && second == r.parent && g.assets(r.parent) != map[] && Carries(g, r.parent, r.m.image))
  {
    var acts := Checks(p, second)[1..];
    var t := Step(g, s, acts[0]);
    RunCons(g, s, acts);
    assert acts[1..] == [VerifyAssets(p), RecheckVersion(p), Replace(p)] && t.selector == s.selector && t.version == s.version;
    if second in s.Behind(r.selector) && second == r.parent {
      AssetChecks(g, t, p, r.(stage := StillActive));
    } else {
      GaveUp(g, t, p, acts[1..]);
    }
  }

  lemma AllChecks(g: Registry, s: Cluster, p: Proc, r: Release, second: Image)
    requires s.At(p) == r && r.stage.Rolled? && r.version == s.version
    ensures Switched(s, Run(g, s, Checks(p, second)), r.m,
                     && g.previous(r.m.image) == r.parent && second in s.Behind(r.selector) && second == r.parent
                     && g.assets(r.parent) != map[] && Carries(g, r.parent, r.m.image))
  {
    var acts := Checks(p, second);
    var t := Step(g, s, acts[0]);
    RunCons(g, s, acts);
    assert t.deployments == s.deployments && t.selector == s.selector && t.version == s.version;
    if g.previous(r.m.image) == r.parent {
      ActiveChecks(g, t, p, r.(stage := Inherited), second);
    } else {
      GaveUp(g, t, p, acts[1..]);
    }
  }

  /** Everything that release() asks for. */
  ghost predicate Releasable(g: Registry, s: Cluster, m: Manifest, first: Image, second: Image) {
    && m.labels != s.selector && m.name !in s.deployments && first in s.Active() && second == first
    && g.previous(m.image) == first && g.assets(first) != map[] && Carries(g, first, m.image)
  }

  lemma Reads(g: Registry, s: Cluster, p: Proc, m: Manifest, first: Image) returns (t: Cluster)
    requires s.At(p).stage.Idle?
    ensures t == Run(g, s, [ReadService(p, m), CheckAbsent(p), ReadParent(p, first)])
    ensures t.selector == s.selector && t.version == s.version && t.deployments == s.deployments
    ensures if m.labels != s.selector && m.name !in s.deployments && first in s.Active()
            then t.At(p) == Release(Planned, m, s.selector, s.version, first) else t.At(p).stage.Idle?
  {
    var acts := [ReadService(p, m), CheckAbsent(p), ReadParent(p, first)];
    var s1 := Step(g, s, acts[0]);
    RunCons(g, s, acts);
    assert s1.deployments == s.deployments && s1.selector == s.selector && s1.version == s.version;
    var s2 := Step(g, s1, acts[1]);
    RunCons(g, s1, acts[1..]);
    assert s2.deployments == s.deployments && s2.selector == s.selector && s2.version == s.version;
    RunCons(g, s2, acts[1..][1..]);
    t := Step(g, s2, acts[2]);
  }

  lemma {:induction false} RunAppend(g: Registry, s: Cluster, a: seq<Action>, b: seq<Action>)
    ensures Run(g, s, a + b) == Run(g, Run(g, s, a), b)
    decreases |a|
  {
    if a == [] {
      assert a + b == b;
    } else {
      RunCons(g, s, a);
      RunCons(g, s, a + b);
      assert (a + b)[1..] == a[1..] + b;
      RunAppend(g, Step(g, s, a[0]), a[1..], b);
    }
  }

  /** Any change of the Service after a release has read it stops that release before the switch. */
  lemma InterferenceStops(g: Registry, s: Cluster, p: Proc)
    requires (s.At(p).stage.Verified? || s.At(p).stage.Rechecked?) && s.At(p).version <= s.version
    ensures var t := Run(g, s, [Touch, RecheckVersion(p), Replace(p)]); t.selector == s.selector && t.version == s.version + 1
  {
    var t := Step(g, s, Touch);
    var acts := [Touch, RecheckVersion(p), Replace(p)];
    RunCons(g, s, acts);
    RunCons(g, t, acts[1..]);
    RunCons(g, Step(g, t, RecheckVersion(p)), acts[1..][1..]);
    assert Run(g, s, acts) == Step(g, Step(g, t, RecheckVersion(p)), Replace(p));
  }

  /** A release that nobody interferes with switches the traffic exactly if every check holds. */
  lemma ReleaseIff(g: Registry, s: Cluster, p: Proc, m: Manifest, first: Image, second: Image)
    requires s.At(p).stage.Idle?
    ensures Switched(s, Run(g, s, Script(p, m, first, second)), m, Releasable(g, s, m, first, second))
  {
    var start, rest := [ReadService(p, m), CheckAbsent(p), ReadParent(p, first)], [CreateCandidate(p)] + Checks(p, second);
    assert Script(p, m, first, second) == start + rest;
    RunAppend(g, s, start, rest);
    var t := Reads(g, s, p, m, first);
    if t.At(p).stage.Idle? {
      GaveUp(g, t, p, rest);
    } else {
      Creating(g, s, t, p, m, first, second);
    }
  }

  lemma Creating(g: Registry, s: Cluster, t: Cluster, p: Proc, m: Manifest, first: Image, second: Image)
    requires m.labels != s.selector && m.name !in s.deployments && first in s.Active()
    requires t.selector == s.selector && t.version == s.version && t.deployments == s.deployments
    requires t.At(p) == Release(Planned, m, s.selector, s.version, first)
    ensures Switched(s, Run(g, t, [CreateCandidate(p)] + Checks(p, second)), m, Releasable(g, s, m, first, second))
  {
    var acts := [CreateCandidate(p)] + Checks(p, second);
    RunCons(g, t, acts);
    assert acts[1..] == Checks(p, second);
    var u := Step(g, t, CreateCandidate(p));
    assert u.deployments == s.deployments[m.name := m] && u.At(p) == Release(Rolled, m, s.selector, s.version, first);
    OtherLabels(s, u, m);
    AllChecks(g, u, p, u.At(p), second);
  }

  lemma OtherLabels(s: Cluster, u: Cluster, m: Manifest)
    requires u.deployments == s.deployments[m.name := m] && m.name !in s.deployments && m.labels != s.selector
    ensures u.Behind(s.selector) == s.Behind(s.selector)
  {
    forall i | i in s.Behind(s.selector) ensures i in u.Behind(s.selector) {
      var n :| n in s.deployments && s.deployments[n].labels == s.selector && s.deployments[n].image == i;
      assert n in u.deployments && u.deployments[n] == s.deployments[n];
    }
    forall i | i in u.Behind(s.selector) ensures i in s.Behind(s.selector) {
      var n :| n in u.deployments && u.deployments[n].labels == s.selector && u.deployments[n].image == i;
      assert n != m.name;
    }
  }
}
