/** The contract of Go's sort package, on values: sort.Strings and sort.Slice. */
module Sorting {
  /** Go's string order; on valid UTF-8 the order of bytes is the order of characters. */
  predicate Lex(a: string, b: string) {
    b != [] && (a == [] || a[0] < b[0] || (a[0] == b[0] && Lex(a[1..], b[1..])))
  }

  /** At n the strings differ for the first time, and a is the smaller there or ends. */
  ghost predicate DiffersAt(a: string, b: string, n: nat) {
    n <= |a| && n < |b| && a[..n] == b[..n] && (n == |a| || a[n] < b[n])
  }

  lemma DiffersLater(a: string, b: string, n: nat)
    requires a != [] && b != [] && a[0] == b[0]
    ensures DiffersAt(a, b, n + 1) <==> DiffersAt(a[1..], b[1..], n)
  {
    if n < |a| && n + 1 < |b| {
      assert a[..n + 1] == [a[0]] + a[1..][..n] && b[..n + 1] == [b[0]] + b[1..][..n];
    }
  }

  lemma {:induction false} LexMeans(a: string, b: string)
    ensures Lex(a, b) <==> exists n :: DiffersAt(a, b, n)
  {
    if a == [] || b == [] || a[0] < b[0] {
      assert b != [] ==> DiffersAt(a, b, 0);
    } else if a[0] == b[0] {
      LexMeans(a[1..], b[1..]);
      forall n: nat ensures DiffersAt(a, b, n + 1) <==> DiffersAt(a[1..], b[1..], n) { DiffersLater(a, b, n); }
      assert !DiffersAt(a, b, 0);
      if exists n :: DiffersAt(a, b, n) {
        var n: nat :| DiffersAt(a, b, n);
        assert DiffersAt(a[1..], b[1..], n - 1);
      }
    } else {
      forall n: nat ensures !DiffersAt(a, b, n) { assert n > 0 && n <= |a| && n < |b| ==> a[..n][0] != b[..n][0]; }
    }
  }

  lemma {:induction false} LexIrreflexive(a: string)
    ensures !Lex(a, a)
  {
    if a != [] { LexIrreflexive(a[1..]); }
  }

  lemma {:induction false} LexTransitive(a: string, b: string, c: string)
    requires Lex(a, b) && Lex(b, c)
    ensures Lex(a, c)
  {
    if a != [] && a[0] == b[0] && b[0] == c[0] { LexTransitive(a[1..], b[1..], c[1..]); }
  }

  lemma {:induction false} LexTotal(a: string, b: string)
    ensures Lex(a, b) || a == b || Lex(b, a)
  {
    if a != [] && b != [] && a[0] == b[0] {
      LexTotal(a[1..], b[1..]);
      assert a == [a[0]] + a[1..] && b == [b[0]] + b[1..];
    }
  }

  /** What sort.Slice asks of its `less` function. */
  ghost predicate WeakOrder<T(!new)>(less: (T, T) -> bool) {
    && (forall a, b {:trigger less(a, b)} :: less(a, b) ==> !less(b, a))
    && (forall a, b, c {:trigger less(b, a), less(c, b)} :: !less(b, a) && !less(c, b) ==> !less(c, a))
  }

  ghost predicate Ordered<T>(s: seq<T>, less: (T, T) -> bool) {
    forall i, j {:trigger less(s[j], s[i])} :: 0 <= i < j < |s| ==> !less(s[j], s[i])
  }

  function Insert<T>(x: T, s: seq<T>, less: (T, T) -> bool): seq<T> {
    if s == [] then [x] else if less(x, s[0]) then [x] + s else [s[0]] + Insert(x, s[1..], less)
  }

  function Sort<T>(s: seq<T>, less: (T, T) -> bool): seq<T> {
    if s == [] then [] else Insert(s[0], Sort(s[1..], less), less)
  }

  lemma {:induction false} InsertKeeps<T>(x: T, s: seq<T>, less: (T, T) -> bool)
    ensures multiset(Insert(x, s, less)) == multiset{x} + multiset(s)
  {
    if s != [] {
      InsertKeeps(x, s[1..], less);
      assert s == [s[0]] + s[1..];
    }
  }

  lemma {:induction false} InsertOrdered<T(!new)>(x: T, s: seq<T>, less: (T, T) -> bool)
    requires WeakOrder(less) && Ordered(s, less)
    ensures Ordered(Insert(x, s, less), less)
  {
    if s != [] {
      var h, t := s[0], s[1..];
      assert forall j :: 0 <= j < |t| ==> t[j] == s[j + 1] && !less(s[j + 1], s[0]);
      if less(x, h) {
        OrderedCons(x, s, less);
      } else {
        forall i, j | 0 <= i < j < |t| ensures !less(t[j], t[i]) { assert t[j] == s[j + 1] && t[i] == s[i + 1]; }
        InsertOrdered(x, t, less);
        InsertKeeps(x, t, less);
        var rest := Insert(x, t, less);
        forall j | 0 <= j < |rest| ensures !less(rest[j], h) {
          assert rest[j] in multiset(rest);
          if rest[j] != x { assert rest[j] in multiset(t); }
        }
        OrderedBehind(h, rest, less);
      }
    }
  }

  lemma OrderedCons<T(!new)>(x: T, s: seq<T>, less: (T, T) -> bool)
    requires WeakOrder(less) && Ordered(s, less) && s != [] && less(x, s[0])
    ensures Ordered([x] + s, less)
  {
    forall j | 0 <= j < |s| ensures !less(s[j], x) {
      assert !less(s[0], x);
      if j > 0 { assert !less(s[j], s[0]); }
    }
    OrderedBehind(x, s, less);
  }

  lemma OrderedBehind<T>(x: T, s: seq<T>, less: (T, T) -> bool)
    requires Ordered(s, less) && forall j :: 0 <= j < |s| ==> !less(s[j], x)
    ensures Ordered([x] + s, less)
  {
  }

  /** Sorting yields an ordered permutation. */
  lemma {:induction false} SortSorts<T(!new)>(s: seq<T>, less: (T, T) -> bool)
    requires WeakOrder(less)
    ensures Ordered(Sort(s, less), less) && multiset(Sort(s, less)) == multiset(s)
  {
    if s != [] {
      SortSorts(s[1..], less);
      InsertOrdered(s[0], Sort(s[1..], less), less);
      InsertKeeps(s[0], Sort(s[1..], less), less);
      assert s == [s[0]] + s[1..];
    }
  }

  lemma LexIsOrder()
    ensures WeakOrder(Lex)
  {
    forall a, b | Lex(a, b) ensures !Lex(b, a) {
      if Lex(b, a) {
        LexTransitive(a, b, a);
        LexIrreflexive(a);
      }
    }
    forall a, b, c | !Lex(b, a) && !Lex(c, b) ensures !Lex(c, a) {
      LexTotal(a, b);
      LexTotal(b, c);
      if Lex(c, a) {
        if Lex(a, b) { LexTransitive(c, a, b); }
      }
    }
  }

  // ----- pairwise properties survive reordering -----

  ghost predicate Pairwise<T>(s: seq<T>, clash: (T, T) -> bool) {
    forall i, j :: 0 <= i < j < |s| ==> !clash(s[i], s[j])
  }

  ghost predicate Symmetric<T(!new)>(clash: (T, T) -> bool) { forall x, y :: clash(x, y) == clash(y, x) }

  lemma PairwiseReordered<T(!new)>(a: seq<T>, b: seq<T>, clash: (T, T) -> bool)
    requires multiset(a) == multiset(b) && Symmetric(clash)
    ensures Pairwise(a, clash) ==> Pairwise(b, clash)
  {
    if Pairwise(a, clash) {
      forall i, j | 0 <= i < j < |b| ensures !clash(b[i], b[j]) {
        PairIn(b, i, j);
        var k, m := PairAt(a, b[i], b[j]);
        assert k < m ==> !clash(a[k], a[m]);
        assert m < k ==> !clash(a[m], a[k]);
      }
    }
  }

  lemma PairIn<T>(s: seq<T>, i: nat, j: nat)
    requires i < j < |s|
    ensures multiset{s[i], s[j]} <= multiset(s)
  {
    assert s == s[..i] + [s[i]] + s[i + 1..j] + [s[j]] + s[j + 1..];
  }

  lemma PairAt<T>(s: seq<T>, x: T, y: T) returns (i: nat, j: nat)
    requires multiset{x, y} <= multiset(s)
    ensures i < |s| && j < |s| && i != j && s[i] == x && s[j] == y
  {
    assert x in multiset(s);
    i :| i < |s| && s[i] == x;
    var rest := s[..i] + s[i + 1..];
    assert s == s[..i] + [x] + s[i + 1..];
    assert multiset(s) == multiset(rest) + multiset{x};
    assert y in multiset(rest);
    var k :| 0 <= k < |rest| && rest[k] == y;
    j := if k < i then k else k + 1;
  }
}
