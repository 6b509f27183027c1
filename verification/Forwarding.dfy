/** Resolution of forwarded Hypit outputs (resolveOutput in runtime-claude/src/hypit.ts). */
module Forwarding {
  import opened Prelude
  import opened GoText

  datatype Ref = Ref(build: string, output: string)

  /** A member of a result's `outputs`: a falsy value, an ordinary output, or one that forwards to another build. */
  datatype Entry = Falsy | Plain | Forward(to: Ref)

  /** A result's `outputs`; None where the document has none. */
  type Outputs = Option<map<string, Entry>>

  /**
   The results by build name, and the property names that every JavaScript object inherits: `outputs[name]`
   finds something under those without such an output.
   */
  datatype Graph = Graph(results: map<string, Outputs>, inherited: set<string>)

  /** `results.get(build)?.value.outputs?.[output]`, falsy being the same as absent. */
  function Lookup(g: Graph, r: Ref): Entry {
    if r.build !in g.results || g.results[r.build].None? then Falsy
    else if r.output in g.results[r.build].value then g.results[r.build].value[r.output]
    else if r.output in g.inherited then Plain
    else Falsy
  }

  function Key(r: Ref): string { r.build + "#" + r.output }

  datatype Verdict = Resolved | Missing | Cycle

  // ----- chains -----

  ghost predicate Chain(g: Graph, refs: seq<Ref>) {
    |refs| > 0 && forall i :: 0 <= i < |refs| - 1 ==> Lookup(g, refs[i]) == Forward(refs[i + 1])
  }

  /** refs leads from `start` to an output that does not forward. */
  ghost predicate Resolving(g: Graph, start: Ref, refs: seq<Ref>) {
    Chain(g, refs) && refs[0] == start && Lookup(g, refs[|refs| - 1]).Plain?
  }

  ghost predicate Resolves(g: Graph, start: Ref) { exists refs :: Resolving(g, start, refs) }

  ghost predicate DistinctKeys(refs: seq<Ref>) { forall i, j :: 0 <= i < j < |refs| ==> Key(refs[i]) != Key(refs[j]) }

  lemma StepAt(g: Graph, refs: seq<Ref>, i: nat)
    requires Chain(g, refs) && i + 1 < |refs|
    ensures Lookup(g, refs[i]) == Forward(refs[i + 1])
  {
  }

  lemma ResolvingEntry(g: Graph, start: Ref, refs: seq<Ref>, i: nat)
    requires Resolving(g, start, refs) && i < |refs|
    ensures !Lookup(g, refs[i]).Falsy?
  {
    if i + 1 < |refs| { StepAt(g, refs, i); }
  }

  lemma ChainPrefix(g: Graph, refs: seq<Ref>, n: nat)
    requires Chain(g, refs) && 0 < n <= |refs|
    ensures Chain(g, refs[..n]) && refs[..n][0] == refs[0] && refs[..n][n - 1] == refs[n - 1]
  {
  }

  /** Chains from one start agree as far as both go. */
  lemma {:induction false} SamePath(g: Graph, a: seq<Ref>, b: seq<Ref>, i: nat)
    requires Chain(g, a) && Chain(g, b) && a[0] == b[0] && i < |a| && i < |b|
    ensures a[i] == b[i]
  {
    if i > 0 { SamePath(g, a, b, i - 1); }
  }

  lemma EndsAreLast(g: Graph, start: Ref, a: seq<Ref>, b: seq<Ref>)
    requires Resolving(g, start, a) && Chain(g, b) && b[0] == start
    ensures |b| <= |a| && b == a[..|b|]
  {
    if |b| > |a| {
      StepAt(g, b, |a| - 1);
      SamePath(g, a, b, |a| - 1);
    }
    forall i | 0 <= i < |b| && |b| <= |a| ensures b[i] == a[i] { SamePath(g, a, b, i); }
  }

  /** A resolving chain visits no output twice. */
  lemma ResolvingIsAcyclic(g: Graph, start: Ref, refs: seq<Ref>, i: nat, j: nat)
    requires Resolving(g, start, refs) && i < j < |refs|
    ensures refs[i] != refs[j]
  {
    if refs[i] == refs[j] {
      EndsAreLast(g, refs[i], refs[j..], refs[i..]);
    }
  }

  // ----- the recursion -----

  /** Every key a chain can reach after its first reference. */
  ghost function ForwardKeys(g: Graph): set<string> {
    set b, o | b in g.results && g.results[b].Some? && o in g.results[b].value && g.results[b].value[o].Forward? :: Key(g.results[b].value[o].to)
  }

  ghost function Keys(refs: seq<Ref>): set<string> { set i | 0 <= i < |refs| :: Key(refs[i]) }

  /** Why the recursion stops at `last` after `before`. */
  ghost predicate Stopped(g: Graph, verdict: Verdict, before: seq<Ref>, last: Ref) {
    && DistinctKeys(before)
    && (verdict.Cycle? <==> Key(last) in Keys(before))
    && (verdict.Missing? ==> Lookup(g, last).Falsy?)
    && (verdict.Resolved? ==> Lookup(g, last).Plain?)
  }

  /**
   resolveOutput with its shared `seen` set.  `path` is the chain of the enclosing calls and
   `trace` the whole chain when the recursion stops.
   */
  method ResolveOutput(g: Graph, r: Ref, seen: set<string>, ghost path: seq<Ref>)
    returns (verdict: Verdict, ghost trace: seq<Ref>)
    requires Chain(g, path + [r]) && DistinctKeys(path) && seen == Keys(path)
    ensures path + [r] <= trace && Chain(g, trace) && Stopped(g, verdict, trace[..|trace| - 1], trace[|trace| - 1])
    decreases ForwardKeys(g) + {Key(r)} - seen
  {
    trace := path + [r];
    assert trace[..|path|] == path;
    var key := Key(r);
    if key in seen { return Cycle, trace; }
    var seen' := seen + {key};
    var entry := Lookup(g, r);
    if entry.Falsy? { return Missing, trace; }
    if entry.Forward? {
      KeysSnoc(path, r);
      FewerKeys(g, r, seen);
      verdict, trace := ResolveOutput(g, entry.to, seen', trace);
      return;
    }
    return Resolved, trace;
  }

  lemma FewerKeys(g: Graph, r: Ref, seen: set<string>)
    requires Lookup(g, r).Forward? && Key(r) !in seen
    ensures ForwardKeys(g) + {Key(Lookup(g, r).to)} - (seen + {Key(r)}) < ForwardKeys(g) + {Key(r)} - seen
  {
  }

  lemma KeysSnoc(path: seq<Ref>, r: Ref)
    requires DistinctKeys(path) && Key(r) !in Keys(path)
    ensures Keys(path + [r]) == Keys(path) + {Key(r)} && DistinctKeys(path + [r])
  {
    var next := path + [r];
    assert forall i :: 0 <= i < |path| ==> next[i] == path[i];
    assert next[|path|] == r;
    forall i | 0 <= i < |path| ensures Key(next[i]) != Key(r) { assert Key(path[i]) in Keys(path); }
    forall k | k in Keys(path) ensures k in Keys(next) { var i :| 0 <= i < |path| && k == Key(path[i]); assert k == Key(next[i]); }
  }

  /** No build on the chain has a "#" in its name. */
  ghost predicate Unambiguous(g: Graph, start: Ref) {
    forall refs: seq<Ref> :: Chain(g, refs) && refs[0] == start ==> Free(refs[|refs| - 1].build, '#')
  }

  lemma KeyInjective(a: Ref, b: Ref)
    requires Free(a.build, '#') && Free(b.build, '#') && Key(a) == Key(b)
    ensures a == b
  {
    CutUnique(a.build, a.output, '#');
    CutUnique(b.build, b.output, '#');
  }

  /** Success means exactly: the chain ends at an output that does not forward, and no two of its keys are equal. */
  method Resolve(g: Graph, start: Ref) returns (verdict: Verdict)
    ensures verdict.Resolved? <==> exists refs :: Resolving(g, start, refs) && DistinctKeys(refs)
    ensures Unambiguous(g, start) ==> (verdict.Resolved? <==> Resolves(g, start))
  {
    ghost var trace;
    assert [] + [start] == [start];
    verdict, trace := ResolveOutput(g, start, {}, []);
    assert trace[0] == start;
    ghost var n := |trace| - 1;
    assert trace == trace[..n] + [trace[n]];
    if verdict.Resolved? {
      KeysSnoc(trace[..n], trace[n]);
      assert Resolving(g, start, trace);
    } else {
      forall refs | Resolving(g, start, refs)
        ensures !DistinctKeys(refs) && !Unambiguous(g, start)
      {
        EndsAreLast(g, start, refs, trace);
        assert refs[n] == trace[n];
        ResolvingEntry(g, start, refs, n);
        if verdict.Cycle? {
          ghost var i :| 0 <= i < n && Key(trace[..n][i]) == Key(trace[n]);
          assert refs[i] == trace[i];
          CollidingKeys(g, start, refs, i, n);
        }
      }
    }
  }

  lemma CollidingKeys(g: Graph, start: Ref, refs: seq<Ref>, i: nat, j: nat)
    requires Resolving(g, start, refs) && i < j < |refs| && Key(refs[i]) == Key(refs[j])
    ensures !DistinctKeys(refs) && !Unambiguous(g, start)
  {
    ResolvingIsAcyclic(g, start, refs, i, j);
    UnambiguousAt(g, start, refs, i);
    UnambiguousAt(g, start, refs, j);
    if Free(refs[i].build, '#') && Free(refs[j].build, '#') { KeyInjective(refs[i], refs[j]); }
  }

  lemma UnambiguousAt(g: Graph, start: Ref, refs: seq<Ref>, i: nat)
    requires Chain(g, refs) && refs[0] == start && i < |refs|
    ensures Unambiguous(g, start) ==> Free(refs[i].build, '#')
  {
    ChainPrefix(g, refs, i + 1);
  }

  /** With "#" in a build name, a chain that ends is reported as a cycle. */
  lemma HashCollides(g: Graph)
    requires Lookup(g, Ref("a", "b#c")) == Forward(Ref("a#b", "c")) && Lookup(g, Ref("a#b", "c")) == Plain
    ensures Resolves(g, Ref("a", "b#c"))
    ensures !exists refs :: Resolving(g, Ref("a", "b#c"), refs) && DistinctKeys(refs)
  {
    var chain := [Ref("a", "b#c"), Ref("a#b", "c")];
    assert Resolving(g, Ref("a", "b#c"), chain);
    assert Key(chain[0]) == "a#b#c" && Key(chain[1]) == "a#b#c";
    forall refs | Resolving(g, Ref("a", "b#c"), refs) ensures !DistinctKeys(refs) {
      EndsAreLast(g, Ref("a", "b#c"), refs, chain);
      assert refs[0] == chain[0] && refs[1] == chain[1];
    }
  }

  /** The last output of a resolving chain is declared, unless its name is one that every object inherits. */
  lemma EndIsDeclared(g: Graph, start: Ref, refs: seq<Ref>)
    requires Resolving(g, start, refs)
    ensures var last := refs[|refs| - 1];
      && last.build in g.results && g.results[last.build].Some?
      && (last.output in g.results[last.build].value || last.output in g.inherited)
  {
  }

  /** With an inherited name, an output that no result declares resolves. */
  lemma UndeclaredResolves(g: Graph, r: Ref)
    requires r.build in g.results && g.results[r.build].Some? && r.output !in g.results[r.build].value
    ensures Resolves(g, r) <==> r.output in g.inherited
  {
    if r.output in g.inherited {
      assert Resolving(g, r, [r]);
    } else if refs :| Resolving(g, r, refs) {
      ResolvingEntry(g, r, refs, 0);
    }
  }
}
