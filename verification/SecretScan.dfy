/**
 The streaming credential scan of guardedFile (runtime-claude/src/hypit.ts).

 A file arrives in chunks of any sizes.  Between chunks the scan keeps only the last
 `overlap` bytes, one less than the longest secret.
 */
module SecretScan {
  type Bytes = seq<bv8>

  datatype Outcome = Passed | Secret | Quota | Aborted

  ghost predicate At(s: Bytes, needle: Bytes, i: nat) { i + |needle| <= |s| && s[i..i + |needle|] == needle }

  ghost predicate Contains(s: Bytes, needle: Bytes) { exists i: nat :: At(s, needle, i) }

  /** Some non-empty secret occurs in s: the whole-file search. */
  ghost predicate Leaks(s: Bytes, secrets: seq<Bytes>) {
    exists k :: 0 <= k < |secrets| && secrets[k] != [] && Contains(s, secrets[k])
  }

  function Concat(chunks: seq<Bytes>): Bytes {
    if chunks == [] then [] else chunks[0] + Concat(chunks[1..])
  }

  lemma {:induction false} ConcatSnoc(chunks: seq<Bytes>, i: nat)
    requires i < |chunks|
    ensures Concat(chunks[..i + 1]) == Concat(chunks[..i]) + chunks[i]
  {
    if i == 0 {
      assert chunks[..1] == [chunks[0]];
      assert Concat([]) == [];
    } else {
      ConcatSnoc(chunks[1..], i - 1);
      assert chunks[..i + 1][1..] == chunks[1..][..i];
      assert chunks[..i][1..] == chunks[1..][..i - 1];
    }
  }

  lemma {:induction false} ConcatSplit(chunks: seq<Bytes>, i: nat)
    requires i <= |chunks|
    ensures Concat(chunks) == Concat(chunks[..i]) + Concat(chunks[i..])
  {
    if i > 0 {
      ConcatSplit(chunks[1..], i - 1);
      assert chunks[..i][1..] == chunks[1..][..i - 1];
      assert chunks[1..][i - 1..] == chunks[i..];
    } else {
      assert chunks[..0] == [] && chunks[0..] == chunks;
    }
  }

  lemma ContainsExtends(s: Bytes, t: Bytes, needle: Bytes)
    requires Contains(s, needle)
    ensures Contains(s + t, needle)
  {
    var i: nat :| At(s, needle, i);
    assert (s + t)[i..i + |needle|] == s[i..i + |needle|];
    assert At(s + t, needle, i);
  }

  lemma LeaksExtends(s: Bytes, t: Bytes, secrets: seq<Bytes>)
    requires Leaks(s, secrets)
    ensures Leaks(s + t, secrets)
  {
    var k :| 0 <= k < |secrets| && secrets[k] != [] && Contains(s, secrets[k]);
    ContainsExtends(s, t, secrets[k]);
  }

  function Max(a: int, b: int): int { if a < b then b else a }

  /** The last n bytes, or all of them. */
  function Tail(s: Bytes, n: nat): Bytes { s[Max(0, |s| - n)..] }

  /** Every occurrence in s + chunk is in s, or is seen with only the tail of s at hand. */
  lemma TailSuffices(s: Bytes, chunk: Bytes, needle: Bytes, overlap: nat)
    requires 0 < |needle| <= overlap + 1
    ensures Contains(s + chunk, needle) <==> Contains(s, needle) || Contains(Tail(s, overlap) + chunk, needle)
  {
    var cut := Max(0, |s| - overlap);
    assert s + chunk == s[..cut] + (s[cut..] + chunk);
    if Contains(s + chunk, needle) {
      var i: nat :| At(s + chunk, needle, i);
      if i + |needle| <= |s| { Shifted(s, chunk, [], needle, i); } else { Shifted(s[cut..] + chunk, [], s[..cut], needle, i - cut); }
    }
    if Contains(s, needle) { ContainsExtends(s, chunk, needle); }
    if Contains(s[cut..] + chunk, needle) {
      var j: nat :| At(s[cut..] + chunk, needle, j);
      Shifted(s[cut..] + chunk, [], s[..cut], needle, j);
    }
  }

  lemma Shifted(s: Bytes, after: Bytes, before: Bytes, needle: Bytes, i: nat)
    requires i + |needle| <= |s|
    ensures At(before + s + after, needle, |before| + i) <==> At(s, needle, i)
    ensures before == [] ==> before + s == s
    ensures after == [] ==> before + s + after == before + s
  {
  }

  lemma TailOfTail(s: Bytes, chunk: Bytes, overlap: nat)
    ensures Tail(Tail(s, overlap) + chunk, overlap) == Tail(s + chunk, overlap)
  {
  }

  ghost predicate Longest(needles: seq<Bytes>, overlap: nat) {
    forall k :: 0 <= k < |needles| ==> 0 < |needles[k]| <= overlap + 1
  }

  /** `secrets.filter(Boolean)` and the spread `Math.max`. */
  method Prepare(secrets: seq<Bytes>) returns (needles: seq<Bytes>, overlap: nat)
    ensures Longest(needles, overlap)
    ensures forall n :: n in needles <==> n in secrets && n != []
    ensures overlap == 0 || exists k :: 0 <= k < |needles| && overlap == |needles[k]| - 1
  {
    needles, overlap := [], 0;
    for i := 0 to |secrets|
      invariant Longest(needles, overlap)
      invariant forall n :: n in needles <==> n in secrets[..i] && n != []
      invariant overlap == 0 || exists k :: 0 <= k < |needles| && overlap == |needles[k]| - 1
    {
      assert secrets[..i + 1] == secrets[..i] + [secrets[i]];
      if secrets[i] != [] {
        ghost var was := needles;
        needles := needles + [secrets[i]];
        assert forall k :: 0 <= k < |was| ==> needles[k] == was[k];
        assert needles[|was|] == secrets[i];
        if |secrets[i]| - 1 > overlap { overlap := |secrets[i]| - 1; }
      }
    }
    assert secrets[..|secrets|] == secrets;
  }

  lemma SameLeaks(s: Bytes, secrets: seq<Bytes>, needles: seq<Bytes>)
    requires forall n :: n in needles <==> n in secrets && n != []
    ensures Leaks(s, secrets) <==> Leaks(s, needles)
  {
    if Leaks(s, secrets) {
      var k :| 0 <= k < |secrets| && secrets[k] != [] && Contains(s, secrets[k]);
      assert secrets[k] in needles;
    }
    if Leaks(s, needles) {
      var k :| 0 <= k < |needles| && needles[k] != [] && Contains(s, needles[k]);
      assert needles[k] in needles;
    }
  }

  /** `combined.includes(secret)`: leftmost search. */
  method Includes(s: Bytes, needle: Bytes) returns (found: bool)
    ensures found <==> Contains(s, needle)
  {
    var i := 0;
    while i + |needle| <= |s|
      invariant forall j: nat :: j < i ==> !At(s, needle, j)
    {
      if s[i..i + |needle|] == needle {
        assert At(s, needle, i);
        return true;
      }
      i := i + 1;
    }
    return false;
  }

  /** `needles.some(...)` over the tail and the chunk, given that nothing leaked before the chunk. */
  method SomeIncluded(ghost s: Bytes, chunk: Bytes, combined: Bytes, needles: seq<Bytes>, ghost overlap: nat)
    returns (found: bool)
    requires Longest(needles, overlap) && combined == Tail(s, overlap) + chunk && !Leaks(s, needles)
    ensures found <==> Leaks(s + chunk, needles)
  {
    for k := 0 to |needles|
      invariant forall m :: 0 <= m < k ==> !Contains(s + chunk, needles[m])
    {
      TailSuffices(s, chunk, needles[k], overlap);
      found := Includes(combined, needles[k]);
      if found { return; }
    }
    found := false;
  }

  /** The bytes of the first k chunks are within the quota and free of secrets. */
  ghost predicate Clean(chunks: seq<Bytes>, k: nat, secrets: seq<Bytes>, maximum: nat)
    requires k <= |chunks|
  {
    |Concat(chunks[..k])| <= maximum && !Leaks(Concat(chunks[..k]), secrets)
  }

  /**
   The transform over a whole stream.  `abortAt` is the chunk before which the signal fires (at
   least |chunks| for never).  `passed` chunks went downstream.
   */
  method Scan(chunks: seq<Bytes>, secrets: seq<Bytes>, maximum: nat, abortAt: nat)
    returns (outcome: Outcome, passed: nat)
    ensures passed <= |chunks| && Clean(chunks, passed, secrets, maximum)
    ensures outcome.Passed? ==> passed == |chunks|
    ensures !outcome.Passed? ==> passed < |chunks|
    ensures outcome.Aborted? <==> passed == abortAt && abortAt < |chunks|
    ensures outcome.Quota? ==> |Concat(chunks[..passed + 1])| > maximum
    ensures outcome.Secret? ==>
      |Concat(chunks[..passed + 1])| <= maximum && Leaks(Concat(chunks[..passed + 1]), secrets)
  {
    var needles, overlap := Prepare(secrets);
    var tail: Bytes, size := [], 0;
    ghost var whole: Bytes := [];
    assert chunks[..0] == [];
    for i := 0 to |chunks|
      invariant whole == Concat(chunks[..i]) && size == |whole| <= maximum
      invariant tail == Tail(whole, overlap) && !Leaks(whole, needles)
      invariant i <= abortAt
    {
      SameLeaks(whole, secrets, needles);
      if i == abortAt { return Aborted, i; }
      ConcatSnoc(chunks, i);
      size := size + |chunks[i]|;
      if size > maximum { return Quota, i; }
      var combined := tail + chunks[i];
      var found := SomeIncluded(whole, chunks[i], combined, needles, overlap);
      SameLeaks(whole + chunks[i], secrets, needles);
      if found { return Secret, i; }
      tail := if overlap > 0 then combined[Max(0, |combined| - overlap)..] else [];
      TailOfTail(whole, chunks[i], overlap);
      whole := whole + chunks[i];
    }
    SameLeaks(whole, secrets, needles);
    assert chunks[..|chunks|] == chunks;
    return Passed, |chunks|;
  }

  /** Without an abort the verdict is the whole-file verdict, whatever the chunking. */
  method ScanFile(file: Bytes, chunks: seq<Bytes>, secrets: seq<Bytes>, maximum: nat) returns (outcome: Outcome)
    requires Concat(chunks) == file
    ensures outcome.Passed? <==> |file| <= maximum && !Leaks(file, secrets)
    ensures outcome.Secret? ==> Leaks(file, secrets)
    ensures outcome.Quota? ==> |file| > maximum
    ensures !outcome.Aborted?
  {
    var passed;
    outcome, passed := Scan(chunks, secrets, maximum, |chunks|);
    if outcome.Passed? {
      assert chunks[..|chunks|] == chunks;
    } else {
      ConcatSplit(chunks, passed + 1);
      if outcome.Secret? { LeaksExtends(Concat(chunks[..passed + 1]), Concat(chunks[passed + 1..]), secrets); }
    }
  }

  /** The tail is as short as it can be: keeping one byte less misses a split secret. */
  lemma ShorterTailMisses(needle: Bytes)
    requires |needle| > 1
    ensures var s, chunk := needle[..|needle| - 1], needle[|needle| - 1..];
      Contains(s + chunk, needle) && !Contains(s, needle) && !Contains(Tail(s, |needle| - 2) + chunk, needle)
  {
    var s, chunk := needle[..|needle| - 1], needle[|needle| - 1..];
    assert s + chunk == needle;
    assert At(needle, needle, 0);
  }
}
