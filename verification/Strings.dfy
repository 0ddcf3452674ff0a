/** Strings as the Go code sees them: a `string` is a sequence of bytes, one `char` per byte. */
module Strings {
  const NUL: char := '\0'
  const NUL_SEP: string := "\0"

  predicate NulFree(s: string) {
    NUL !in s
  }

  predicate AllNulFree(parts: seq<string>) {
    forall i | 0 <= i < |parts| :: NulFree(parts[i])
  }

  /** strings.Join */
  function Join(parts: seq<string>, sep: string): string {
    if parts == [] then ""
    else if |parts| == 1 then parts[0]
    else parts[0] + sep + Join(parts[1..], sep)
  }

  /** strings.Split with the one-byte NUL separator. */
  function Split(s: string): (parts: seq<string>)
    ensures |parts| >= 1
    ensures AllNulFree(parts)
    ensures Join(parts, NUL_SEP) == s
  {
    if s == "" then [""]
    else
      var rest := Split(s[1..]);
      if s[0] == NUL then
        assert ([""] + rest)[1..] == rest;
        [""] + rest
      else
        var r := [[s[0]] + rest[0]] + rest[1..];
        assert Join(r, NUL_SEP) == [s[0]] + Join(rest, NUL_SEP) by { JoinGrowHead(s[0], rest, NUL_SEP); }
        r
  }

  lemma JoinGrowHead(c: char, parts: seq<string>, sep: string)
    requires parts != []
    ensures Join([[c] + parts[0]] + parts[1..], sep) == [c] + Join(parts, sep)
  {
  }

  /** Joining with NUL loses nothing: NUL-free parts come back from Split. */
  lemma {:induction false} SplitJoin(parts: seq<string>)
    requires parts != [] && AllNulFree(parts)
    ensures Split(Join(parts, NUL_SEP)) == parts
    decreases |parts|, |parts[0]|
  {
    var head := parts[0];
    var s := Join(parts, NUL_SEP);
    if head == "" {
      if |parts| > 1 {
        assert s[1..] == Join(parts[1..], NUL_SEP);
        SplitJoin(parts[1..]);
      }
    } else {
      var shorter := [head[1..]] + parts[1..];
      assert shorter[1..] == parts[1..] && [head[0]] + shorter[0] == head;
      assert parts == [[head[0]] + shorter[0]] + shorter[1..];
      JoinGrowHead(head[0], shorter, NUL_SEP);
      assert s[1..] == Join(shorter, NUL_SEP);
      assert NulFree(head) && s[0] == head[0] && head[0] in head;
      assert NulFree(shorter[0]) by { assert forall c | c in head[1..] :: c in head; }
      SplitJoin(shorter);
    }
  }

  lemma {:induction false} JoinConcat(xs: seq<string>, ys: seq<string>, sep: string)
    requires xs != [] && ys != []
    ensures Join(xs + ys, sep) == Join(xs, sep) + sep + Join(ys, sep)
  {
    if |xs| == 1 {
      assert (xs + ys)[1..] == ys;
    } else {
      assert (xs + ys)[1..] == xs[1..] + ys;
      JoinConcat(xs[1..], ys, sep);
    }
  }

  predicate IsPrefix(p: string, s: string) {
    |p| <= |s| && p == s[..|p|]
  }

  predicate IsSuffix<T(==)>(s: seq<T>, whole: seq<T>) {
    |s| <= |whole| && s == whole[|whole| - |s|..]
  }

  /** Byte-wise `<` on Go strings. */
  predicate LexLess(a: string, b: string) {
    b != "" && (a == "" || a[0] < b[0] || (a[0] == b[0] && LexLess(a[1..], b[1..])))
  }

  lemma {:induction false} LexTrichotomy(a: string, b: string)
    ensures (LexLess(a, b) && !LexLess(b, a) && a != b)
         || (LexLess(b, a) && !LexLess(a, b) && a != b)
         || (a == b && !LexLess(a, b))
  {
    if a != "" && b != "" && a[0] == b[0] {
      LexTrichotomy(a[1..], b[1..]);
      assert a == [a[0]] + a[1..] && b == [b[0]] + b[1..];
    }
  }

  lemma {:induction false} LexTransitive(a: string, b: string, c: string)
    requires LexLess(a, b) && LexLess(b, c)
    ensures LexLess(a, c)
  {
    if a != "" && a[0] == b[0] == c[0] {
      LexTransitive(a[1..], b[1..], c[1..]);
    }
  }

  /** a and b are equal up to k, where a ends or has the smaller byte. */
  predicate FirstDifferAt(a: string, b: string, k: int) {
    0 <= k < |b| && k <= |a| && a[..k] == b[..k] && (k == |a| || a[k] < b[k])
  }

  /** a ends, or has the smaller byte, where the two first differ. */
  ghost predicate Precedes(a: string, b: string) {
    exists k :: FirstDifferAt(a, b, k)
  }

  lemma SharedStart(a: string, b: string)
    ensures forall k | 0 < k <= |a| && k <= |b| && a[..k] == b[..k] :: a[0] == b[0]
  {
    forall k | 0 < k <= |a| && k <= |b| && a[..k] == b[..k] ensures a[0] == b[0] {
      assert a[..k][0] == b[..k][0];
    }
  }

  lemma DifferBehind(c: char, x: string, y: string, k: nat)
    ensures FirstDifferAt([c] + x, [c] + y, k + 1) <==> FirstDifferAt(x, y, k)
  {
    if k <= |x| && k <= |y| {
      assert ([c] + x)[..k + 1] == [c] + x[..k] && ([c] + y)[..k + 1] == [c] + y[..k];
      assert ([c] + x[..k])[1..] == x[..k] && ([c] + y[..k])[1..] == y[..k];
    }
  }

  lemma PrecedesBehind(c: char, x: string, y: string)
    ensures Precedes([c] + x, [c] + y) <==> Precedes(x, y)
  {
    if Precedes(x, y) {
      var k :| FirstDifferAt(x, y, k);
      DifferBehind(c, x, y, k);
    }
    if Precedes([c] + x, [c] + y) {
      var k :| FirstDifferAt([c] + x, [c] + y, k);
      assert k > 0;
      DifferBehind(c, x, y, k - 1);
    }
  }

  /** `<` on strings, without recursion. */
  lemma {:induction false} LexMeaning(a: string, b: string)
    ensures LexLess(a, b) <==> Precedes(a, b)
  {
    SharedStart(a, b);
    assert FirstDifferAt(a, b, 0) <==> b != "" && (a == "" || a[0] < b[0]);
    if a != "" && b != "" && a[0] == b[0] {
      LexMeaning(a[1..], b[1..]);
      PrecedesBehind(a[0], a[1..], b[1..]);
      assert a == [a[0]] + a[1..] && b == [b[0]] + b[1..];
    }
  }
}
