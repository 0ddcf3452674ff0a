/** strings.TrimSpace, on bytes. */
module Spaces {
  import opened Strings

  /** The encodings of the characters that unicode.IsSpace accepts. */
  const SPACES: seq<string> := [
    "\t", "\n", "\U{0B}", "\U{0C}", "\r", " ", "\U{C2}\U{85}", "\U{C2}\U{A0}", "\U{E1}\U{9A}\U{80}",
    "\U{E2}\U{80}\U{80}", "\U{E2}\U{80}\U{81}", "\U{E2}\U{80}\U{82}", "\U{E2}\U{80}\U{83}", "\U{E2}\U{80}\U{84}",
    "\U{E2}\U{80}\U{85}", "\U{E2}\U{80}\U{86}", "\U{E2}\U{80}\U{87}", "\U{E2}\U{80}\U{88}", "\U{E2}\U{80}\U{89}",
    "\U{E2}\U{80}\U{8A}", "\U{E2}\U{80}\U{A8}", "\U{E2}\U{80}\U{A9}", "\U{E2}\U{80}\U{AF}", "\U{E2}\U{81}\U{9F}",
    "\U{E3}\U{80}\U{80}"
  ]

  /** The length of the first of the given spaces that s starts with, or 0. */
  function SpaceBefore(s: string, spaces: seq<string>): (n: nat)
    ensures n <= |s|
  {
    if spaces == [] then 0 else if IsPrefix(spaces[0], s) then |spaces[0]| else SpaceBefore(s, spaces[1..])
  }

  function SpaceAfter(s: string, spaces: seq<string>): (n: nat)
    ensures n <= |s|
  {
    if spaces == [] then 0 else if IsSuffix(spaces[0], s) then |spaces[0]| else SpaceAfter(s, spaces[1..])
  }

  function TrimLeft(s: string, spaces: seq<string>): string
    decreases |s|
  {
    var n := SpaceBefore(s, spaces);
    if n == 0 then s else TrimLeft(s[n..], spaces)
  }

  function TrimRight(s: string, spaces: seq<string>): string
    decreases |s|
  {
    var n := SpaceAfter(s, spaces);
    if n == 0 then s else TrimRight(s[..|s| - n], spaces)
  }

  /** strings.TrimSpace */
  function TrimSpace(s: string): string {
    TrimRight(TrimLeft(s, SPACES), SPACES)
  }

  lemma {:induction false} LeftTrimmed(s: string, spaces: seq<string>)
    ensures SpaceBefore(TrimLeft(s, spaces), spaces) == 0
    decreases |s|
  {
    var n := SpaceBefore(s, spaces);
    if n > 0 { LeftTrimmed(s[n..], spaces); }
  }

  lemma {:induction false} RightTrimmed(s: string, spaces: seq<string>)
    ensures SpaceAfter(TrimRight(s, spaces), spaces) == 0 && IsPrefix(TrimRight(s, spaces), s)
    decreases |s|
  {
    var n := SpaceAfter(s, spaces);
    if n > 0 { RightTrimmed(s[..|s| - n], spaces); }
  }

  lemma {:induction false} SpaceStays(p: string, s: string, spaces: seq<string>)
    requires IsPrefix(p, s) && forall i | 0 <= i < |spaces| :: spaces[i] != ""
    ensures SpaceBefore(p, spaces) > 0 ==> SpaceBefore(s, spaces) > 0
    decreases |spaces|
  {
    if spaces != [] && !IsPrefix(spaces[0], p) { SpaceStays(p, s, spaces[1..]); }
  }

  lemma SpacesAreNotEmpty()
    ensures forall i | 0 <= i < |SPACES| :: SPACES[i] != ""
  {
  }

  /** What trimming leaves neither starts nor ends with a space. */
  lemma TrimSpaceTrims(s: string)
    ensures SpaceBefore(TrimSpace(s), SPACES) == 0 && SpaceAfter(TrimSpace(s), SPACES) == 0
  {
    LeftTrimmed(s, SPACES);
    RightTrimmed(TrimLeft(s, SPACES), SPACES);
    SpacesAreNotEmpty();
    SpaceStays(TrimSpace(s), TrimLeft(s, SPACES), SPACES);
  }

  /** Made of the given spaces only. */
  predicate AllSpace(s: string, spaces: seq<string>)
    decreases |s|
  {
    s == "" || exists n | 0 < n <= |s| :: s[..n] in spaces && AllSpace(s[n..], spaces)
  }

  lemma {:induction false} SpaceFound(s: string, spaces: seq<string>)
    ensures SpaceBefore(s, spaces) > 0 ==> s[..SpaceBefore(s, spaces)] in spaces
    ensures SpaceAfter(s, spaces) > 0 ==> s[|s| - SpaceAfter(s, spaces)..] in spaces
    decreases |spaces|
  {
    if spaces != [] {
      SpaceFound(s, spaces[1..]);
    }
  }

  lemma SpaceInFront(space: string, a: string, spaces: seq<string>)
    requires AllSpace(a, spaces) && space in spaces && space != ""
    ensures AllSpace(space + a, spaces)
  {
    assert (space + a)[..|space|] == space && (space + a)[|space|..] == a;
  }

  lemma {:induction false} SpaceBehind(a: string, space: string, spaces: seq<string>)
    requires AllSpace(a, spaces) && space in spaces && space != ""
    ensures AllSpace(a + space, spaces)
    decreases |a|
  {
    if a == "" {
      SpaceInFront(space, a, spaces);
      assert a + space == space + a;
    } else {
      var n :| 0 < n <= |a| && a[..n] in spaces && AllSpace(a[n..], spaces);
      SpaceBehind(a[n..], space, spaces);
      SpaceInFront(a[..n], a[n..] + space, spaces);
      assert a[..n] + (a[n..] + space) == a + space;
    }
  }

  lemma {:induction false} LeftIsSpace(s: string, spaces: seq<string>) returns (a: string)
    ensures s == a + TrimLeft(s, spaces) && AllSpace(a, spaces)
    decreases |s|
  {
    var n := SpaceBefore(s, spaces);
    if n == 0 {
      a := "";
    } else {
      var rest := LeftIsSpace(s[n..], spaces);
      a := s[..n] + rest;
      SpaceFound(s, spaces);
      SpaceInFront(s[..n], rest, spaces);
      Regroup(s, n, rest, TrimLeft(s[n..], spaces));
    }
  }

  lemma Regroup(s: string, n: nat, x: string, y: string)
    requires n <= |s| && s[n..] == x + y
    ensures s == s[..n] + x + y
  {
    assert s == s[..n] + s[n..];
  }

  lemma Rejoin(s: string, k: nat, x: string, y: string)
    requires k <= |s| && s[..k] == x + y
    ensures s == x + (y + s[k..])
  {
    assert s == s[..k] + s[k..];
  }

  lemma {:induction false} RightIsSpace(s: string, spaces: seq<string>) returns (b: string)
    ensures s == TrimRight(s, spaces) + b && AllSpace(b, spaces)
    decreases |s|
  {
    var n := SpaceAfter(s, spaces);
    if n == 0 {
      b := "";
    } else {
      var k := |s| - n;
      var front := RightIsSpace(s[..k], spaces);
      b := front + s[k..];
      SpaceFound(s, spaces);
      SpaceBehind(front, s[k..], spaces);
      Rejoin(s, k, TrimRight(s[..k], spaces), front);
    }
  }

  lemma TrimKeeps(s: string, spaces: seq<string>, inner: string, r: string) returns (a: string, b: string)
    requires inner == TrimLeft(s, spaces) && r == TrimRight(inner, spaces)
    ensures s == a + r + b && AllSpace(a, spaces) && AllSpace(b, spaces)
  {
    a := LeftIsSpace(s, spaces);
    b := RightIsSpace(inner, spaces);
    assert a + (r + b) == a + r + b;
  }

  /** Trimming takes away nothing but spaces. */
  lemma TrimSpaceKeeps(s: string) returns (a: string, b: string)
    ensures s == a + TrimSpace(s) + b && AllSpace(a, SPACES) && AllSpace(b, SPACES)
  {
    a, b := TrimKeeps(s, SPACES, TrimLeft(s, SPACES), TrimSpace(s));
  }
}
