/** The pieces of Go's strings and unicode packages that the server models use, on valid UTF-8 text. */
module GoText {
  /** unicode.IsSpace */
  predicate IsSpace(c: char) {
    || '\t' <= c <= '\r' || c == ' ' || c == '\U{0085}' || c == '\U{00A0}' || c == '\U{1680}'
    || '\U{2000}' <= c <= '\U{200A}' || c == '\U{2028}' || c == '\U{2029}' || c == '\U{202F}' || c == '\U{205F}'
    || c == '\U{3000}'
  }

  function TrimLeft(s: string, cut: char -> bool): string {
    if s != [] && cut(s[0]) then TrimLeft(s[1..], cut) else s
  }

  function TrimRight(s: string, cut: char -> bool): string {
    if s != [] && cut(s[|s| - 1]) then TrimRight(s[..|s| - 1], cut) else s
  }

  function Trim(s: string, cut: char -> bool): string { TrimRight(TrimLeft(s, cut), cut) }

  function TrimSpace(s: string): string { Trim(s, IsSpace) }

  /** Nothing to trim at either end. */
  predicate Trimmed(s: string, cut: char -> bool) { s == [] || (!cut(s[0]) && !cut(s[|s| - 1])) }

  /** Trimming removes exactly the longest cut runs at the two ends. */
  lemma TrimMeans(s: string, cut: char -> bool) returns (lo: nat, hi: nat)
    ensures lo <= hi <= |s| && Trim(s, cut) == s[lo..hi] && Trimmed(Trim(s, cut), cut)
    ensures forall i :: 0 <= i < lo || hi <= i < |s| ==> cut(s[i])
    ensures Trimmed(s, cut) ==> Trim(s, cut) == s
  {
    lo := TrimLeftMeans(s, cut);
    var t := TrimLeft(s, cut);
    var keep := TrimRightMeans(t, cut);
    hi := lo + keep;
    assert t[..keep] == s[lo..hi];
    assert forall i :: hi <= i < |s| ==> s[i] == t[i - lo];
    assert keep > 0 ==> t[..keep][0] == t[0];
  }

  lemma {:induction false} TrimLeftMeans(s: string, cut: char -> bool) returns (lo: nat)
    ensures lo <= |s| && TrimLeft(s, cut) == s[lo..] && (lo < |s| ==> !cut(s[lo]))
    ensures forall i :: 0 <= i < lo ==> cut(s[i])
  {
    if s != [] && cut(s[0]) {
      lo := TrimLeftMeans(s[1..], cut);
      assert s[1..][lo..] == s[lo + 1..];
      assert forall i :: 0 < i < lo + 1 ==> s[i] == s[1..][i - 1];
      lo := lo + 1;
    } else {
      lo := 0;
    }
  }

  lemma {:induction false} TrimRightMeans(s: string, cut: char -> bool) returns (hi: nat)
    ensures hi <= |s| && TrimRight(s, cut) == s[..hi] && (hi > 0 ==> !cut(s[hi - 1]))
    ensures forall i :: hi <= i < |s| ==> cut(s[i])
  {
    if s != [] && cut(s[|s| - 1]) {
      hi := TrimRightMeans(s[..|s| - 1], cut);
    } else {
      hi := |s|;
      assert s[..hi] == s;
    }
  }

  /** !strings.Contains(s, string(c)) */
  predicate Free(s: string, c: char) { forall i :: 0 <= i < |s| ==> s[i] != c }

  /** strings.IndexByte */
  function IndexOf(s: string, c: char): (r: int)
    ensures -1 <= r < |s|
    ensures r >= 0 ==> s[r] == c
    ensures forall i :: 0 <= i < (if r < 0 then |s| else r) ==> s[i] != c
  {
    if s == [] then -1
    else if s[0] == c then 0
    else var k := IndexOf(s[1..], c); if k < 0 then -1 else k + 1
  }

  /** strings.LastIndexByte */
  function LastIndexOf(s: string, c: char): (r: int)
    ensures -1 <= r < |s|
    ensures r >= 0 ==> s[r] == c
    ensures forall i :: r < i < |s| ==> s[i] != c
  {
    if s == [] then -1 else if s[|s| - 1] == c then |s| - 1 else LastIndexOf(s[..|s| - 1], c)
  }

  /** strings.Count of one character */
  function Count(s: string, c: char): (r: nat)
    ensures r == 0 <==> Free(s, c)
  {
    if s == [] then 0 else (if s[0] == c then 1 else 0) + Count(s[1..], c)
  }

  lemma {:induction false} CountSplit(s: string, c: char, i: nat)
    requires i < |s| && s[i] == c
    ensures Count(s, c) == Count(s[..i], c) + 1 + Count(s[i + 1..], c)
  {
    if i > 0 {
      CountSplit(s[1..], c, i - 1);
      assert s[..i][1..] == s[1..][..i - 1];
      assert s[1..][i..] == s[i + 1..];
    }
  }

  /** strings.Cut at the first separator. */
  function Cut(s: string, c: char): (r: (string, string, bool))
    ensures r.2 ==> s == r.0 + [c] + r.1 && Free(r.0, c)
    ensures !r.2 ==> Free(s, c) && r.0 == s && r.1 == []
  {
    var k := IndexOf(s, c);
    if k < 0 then (s, [], false) else (s[..k], s[k + 1..], true)
  }

  lemma CutUnique(a: string, b: string, c: char)
    requires Free(a, c)
    ensures Cut(a + [c] + b, c) == (a, b, true)
  {
    var s := a + [c] + b;
    assert s[|a|] == c;
    assert forall i :: 0 <= i < |a| ==> s[i] == a[i];
    assert IndexOf(s, c) == |a|;
    assert s[..|a|] == a && s[|a| + 1..] == b;
  }

  /** strings.Split(s, "/"), and JavaScript's split */
  function Split(s: string): (parts: seq<string>)
    ensures |parts| > 0
  {
    if s == [] then [[]]
    else if s[0] == '/' then [[]] + Split(s[1..])
    else var rest := Split(s[1..]); [[s[0]] + rest[0]] + rest[1..]
  }

  function Join(parts: seq<string>): string
    requires |parts| > 0
  {
    if |parts| == 1 then parts[0] else parts[0] + "/" + Join(parts[1..])
  }

  lemma {:induction false} SplitJoin(s: string)
    ensures Join(Split(s)) == s
  {
    if s != [] {
      var rest := Split(s[1..]);
      SplitJoin(s[1..]);
      if s[0] == '/' {
        assert ([[]] + rest)[1..] == rest;
      } else {
        var parts := [[s[0]] + rest[0]] + rest[1..];
        assert parts[1..] == rest[1..];
      }
    }
  }

  /** Components without a slash are read back from the joined path. */
  lemma {:induction false} JoinSplit(parts: seq<string>)
    requires |parts| > 0 && forall i :: 0 <= i < |parts| ==> Free(parts[i], '/')
    ensures Split(Join(parts)) == parts
    decreases |parts|
  {
    if |parts| == 1 {
      SplitComponent(parts[0], []);
      assert parts[0] + [] == parts[0];
    } else {
      JoinSplit(parts[1..]);
      SplitComponent(parts[0], "/" + Join(parts[1..]));
      assert parts[0] + ("/" + Join(parts[1..])) == parts[0] + "/" + Join(parts[1..]);
      assert ("/" + Join(parts[1..]))[1..] == Join(parts[1..]);
      assert parts == [parts[0]] + parts[1..];
    }
  }

  lemma {:induction false} SplitComponent(a: string, rest: string)
    requires Free(a, '/') && (rest == [] || rest[0] == '/')
    ensures Split(a + rest) == [a] + if rest == [] then [] else Split(rest[1..])
  {
    if a == [] {
      assert a + rest == rest;
    } else {
      SplitComponent(a[1..], rest);
      assert (a + rest)[0] == a[0] && (a + rest)[1..] == a[1..] + rest;
      assert a == [a[0]] + a[1..];
    }
  }

  lemma {:induction false} SplitFree(s: string)
    ensures forall i :: 0 <= i < |Split(s)| ==> Free(Split(s)[i], '/')
  {
    if s != [] { SplitFree(s[1..]); }
  }

  // ----- path.Clean -----

  /** The components that are left after those already done: "" and "." vanish, ".." takes back what came before. */
  function CleanParts(done: seq<string>, parts: seq<string>): seq<string>
    decreases |parts|
  {
    if parts == [] then done
    else if parts[0] == "" || parts[0] == "." then CleanParts(done, parts[1..])
    else if parts[0] == ".." && done != [] && done[|done| - 1] != ".." then CleanParts(done[..|done| - 1], parts[1..])
    else CleanParts(done + [parts[0]], parts[1..])
  }

  /** path.Clean of a relative path */
  function Clean(p: string): string {
    var parts := CleanParts([], Split(p));
    if parts == [] then "." else Join(parts)
  }

  /** The name of an entry in a directory. */
  ghost predicate Plain(part: string) { part != "" && part != "." && part != ".." }

  /** Every component is the name of an entry, so the path stays below where it starts. */
  ghost predicate Descends(p: string) { forall i :: 0 <= i < |Split(p)| ==> Plain(Split(p)[i]) }

  /** ".." only at the front, nothing empty, no ".". */
  ghost predicate CleanShape(parts: seq<string>) {
    && (forall i :: 0 <= i < |parts| ==> parts[i] != "" && parts[i] != "." && Free(parts[i], '/'))
    && (forall i, j :: 0 <= i < j < |parts| && parts[j] == ".." ==> parts[i] == "..")
  }

  lemma {:induction false} CleanPartsShape(done: seq<string>, parts: seq<string>)
    requires CleanShape(done) && forall i :: 0 <= i < |parts| ==> Free(parts[i], '/')
    ensures CleanShape(CleanParts(done, parts))
    decreases |parts|
  {
    if parts == [] {
    } else if parts[0] == "" || parts[0] == "." {
      CleanPartsShape(done, parts[1..]);
    } else if parts[0] == ".." && done != [] && done[|done| - 1] != ".." {
      CleanPartsShape(done[..|done| - 1], parts[1..]);
    } else {
      CleanPartsShape(done + [parts[0]], parts[1..]);
    }
  }

  lemma {:induction false} CleanPartsPlain(done: seq<string>, parts: seq<string>)
    requires forall i :: 0 <= i < |parts| ==> Plain(parts[i])
    ensures CleanParts(done, parts) == done + parts
    decreases |parts|
  {
    if parts == [] {
      assert done + parts == done;
    } else {
      CleanPartsPlain(done + [parts[0]], parts[1..]);
      assert done + [parts[0]] + parts[1..] == done + parts;
    }
  }

  /** A path that Clean leaves alone and that does not lead out descends, and conversely. */
  lemma CleanFixed(p: string)
    ensures Clean(p) == p && p != "." && p != ".." && !("../" <= p) <==> Descends(p)
  {
    var parts := CleanParts([], Split(p));
    SplitFree(p);
    if Descends(p) {
      CleanPartsPlain([], Split(p));
      assert parts == Split(p);
      SplitJoin(p);
      FirstComponent(p);
      JoinSplit(["."]);
      assert Join(["."]) == ".";
    }
    if Clean(p) == p && p != "." && p != ".." && !("../" <= p) {
      CleanPartsShape([], Split(p));
      JoinSplit(parts);
      FirstComponent(p);
    }
  }

  lemma FirstComponent(p: string)
    ensures Split(p)[0] == ".." <==> p == ".." || "../" <= p
  {
    SplitJoin(p);
    SplitFree(p);
    var parts := Split(p);
    if parts[0] == ".." && |parts| > 1 { assert Join(parts) == ".." + "/" + Join(parts[1..]); }
    if "../" <= p {
      SplitComponent("..", p[2..]);
      assert p == ".." + p[2..];
    }
    if p == ".." { SplitComponent("..", ""); assert ".." + "" == p; }
  }

  function Utf8Width(c: char): nat {
    if c < '\U{0080}' then 1 else if c < '\U{0800}' then 2 else if c < '\U{10000}' then 3 else 4
  }

  /** The UTF-8 length of the first n characters. */
  function BytesTo(s: string, n: nat): nat
    requires n <= |s|
  {
    if n == 0 then 0 else BytesTo(s, n - 1) + Utf8Width(s[n - 1])
  }

  /** len(s) */
  function Bytes(s: string): nat { BytesTo(s, |s|) }

  // ----- decimal numbers -----

  predicate Digit(c: char) { '0' <= c <= '9' }

  predicate Digits(s: string) { forall i :: 0 <= i < |s| ==> Digit(s[i]) }

  function Value(s: string): nat
    requires Digits(s)
  {
    if s == [] then 0 else 10 * Value(s[..|s| - 1]) + (s[|s| - 1] - '0') as nat
  }

  function Pow10(n: nat): (r: nat)
    ensures r >= 1
  {
    if n == 0 then 1 else 10 * Pow10(n - 1)
  }

  /** fmt.Sprintf("%d", n) */
  function Decimal(n: nat): string {
    if n < 10 then [n as char + '0'] else Decimal(n / 10) + [(n % 10) as char + '0']
  }

  lemma {:induction false} DecimalValue(n: nat)
    ensures Decimal(n) != [] && Digits(Decimal(n)) && Value(Decimal(n)) == n
  {
    if n >= 10 {
      DecimalValue(n / 10);
      assert Decimal(n)[..|Decimal(n)| - 1] == Decimal(n / 10);
    }
  }

  lemma {:induction false} DecimalWidth(n: nat, w: nat)
    requires w > 0 && Pow10(w - 1) <= n < Pow10(w)
    ensures |Decimal(n)| == w
  {
    if w == 1 {
      assert Pow10(1) == 10;
    } else {
      DecimalWidth(n / 10, w - 1);
    }
  }

  lemma {:induction false} DecimalShort(n: nat, w: nat)
    requires w > 0 && n < Pow10(w)
    ensures |Decimal(n)| <= w
    decreases w
  {
    if w > 1 && n >= 10 {
      DecimalShort(n / 10, w - 1);
    } else if w == 1 {
      assert Pow10(1) == 10;
    }
  }
}
