/** core/normalize/normalize.go: commands to templates, segment by segment. */
module Normalizer {
  import opened Strings
  import opened Tokenizer
  import opened Unwrapping
  import Classifier

  function NormalizedOne(tokens: seq<string>, parents: set<string>): string
    requires tokens != []
  {
    UnwrapIsFixedSuffix(tokens);
    Join(Classifier.Classified(Unwrap(tokens), parents), " ")
  }

  function Closed(current: seq<string>, parents: set<string>): seq<string> {
    if current == [] then [] else [NormalizedOne(current, parents)]
  }

  /** The normalized segments and operators of a token list, after the tokens of an unfinished segment. */
  function Segments(tokens: seq<string>, current: seq<string>, parents: set<string>): seq<string>
    decreases |tokens|
  {
    if tokens == [] then Closed(current, parents)
    else if IsOperator(tokens[0]) then Closed(current, parents) + [tokens[0]] + Segments(tokens[1..], [], parents)
    else Segments(tokens[1..], current + [tokens[0]], parents)
  }

  function Template(tokens: seq<string>, parents: set<string>): string {
    Join(Segments(tokens, [], parents), " ")
  }

  /** The template of a raw command; empty for blank input. */
  function Normalized(raw: string, parents: set<string>): string {
    Template(Tokens(raw), parents)
  }

  method NormalizeOne(tokens: seq<string>, parents: seq<string>) returns (r: string)
    requires tokens != []
    ensures r == NormalizedOne(tokens, set p | p in parents)
  {
    var inner := UnwrapPrefixTokens(tokens);
    UnwrapIsFixedSuffix(tokens);
    var classified := Classifier.ClassifyTokens(inner, parents);
    r := Join(classified, " ");
  }

  method NormalizeSegments(tokens: seq<string>, parents: seq<string>) returns (r: string)
    ensures r == Template(tokens, set p | p in parents)
  {
    ghost var ps := set p | p in parents;
    var segments: seq<string> := [];
    var current: seq<string> := [];
    for i := 0 to |tokens|
      invariant segments + Segments(tokens[i..], current, ps) == Segments(tokens, [], ps)
    {
      var tok := tokens[i];
      assert tokens[i..][0] == tok && tokens[i..][1..] == tokens[i + 1..];
      if IsOperator(tok) {
        if |current| > 0 {
          var one := NormalizeOne(current, parents);
          segments := segments + [one];
          current := [];
        }
        segments := segments + [tok];
      } else {
        current := current + [tok];
      }
    }
    assert tokens[|tokens|..] == [];
    if |current| > 0 {
      var one := NormalizeOne(current, parents);
      segments := segments + [one];
    }
    assert segments == Segments(tokens, [], ps);
    r := Join(segments, " ");
  }

  method Normalize(raw: string, parents: seq<string>) returns (r: string)
    ensures r == Normalized(raw, set p | p in parents)
  {
    var tokens := Tokenize(raw);
    if |tokens| == 0 {
      return "";
    }
    r := NormalizeSegments(tokens, parents);
  }

  // Compound commands

  lemma {:induction false} SegmentsSplit(a: seq<string>, op: string, b: seq<string>, current: seq<string>,
                                         parents: set<string>)
    requires IsOperator(op)
    ensures Segments(a + [op] + b, current, parents) == Segments(a, current, parents) + [op] + Segments(b, [], parents)
    decreases |a|
  {
    var all := a + [op] + b;
    if a == [] {
      assert all[1..] == b;
    } else {
      assert all[1..] == a[1..] + [op] + b;
      if IsOperator(a[0]) {
        SegmentsSplit(a[1..], op, b, [], parents);
        var x, y, z := Closed(current, parents) + [a[0]], Segments(a[1..], [], parents), Segments(b, [], parents);
        assert x + (y + [op] + z) == x + y + [op] + z;
      } else {
        SegmentsSplit(a[1..], op, b, current + [a[0]], parents);
      }
    }
  }

  lemma {:induction false} SegmentsNonEmpty(tokens: seq<string>, current: seq<string>, parents: set<string>)
    requires tokens != [] || current != []
    ensures Segments(tokens, current, parents) != []
    decreases |tokens|
  {
    if tokens != [] && !IsOperator(tokens[0]) {
      SegmentsNonEmpty(tokens[1..], current + [tokens[0]], parents);
    }
  }

  lemma CompoundTemplate(a: seq<string>, op: string, b: seq<string>, parents: set<string>)
    requires IsOperator(op) && a != [] && b != []
    ensures Template(a + [op] + b, parents) == Template(a, parents) + " " + op + " " + Template(b, parents)
  {
    SegmentsSplit(a, op, b, [], parents);
    SegmentsNonEmpty(a, [], parents);
    SegmentsNonEmpty(b, [], parents);
    var x, y := Segments(a, [], parents), Segments(b, [], parents);
    JoinConcat(x + [op], y, " ");
    JoinConcat(x, [op], " ");
  }

  /** Compound commands normalize segment by segment. */
  lemma CompoundNormalizes(a: string, op: string, b: string, parents: set<string>)
    requires IsOperator(op) && Scan(a, START).Open()
    requires Tokens(a) != [] && Tokens(b) != []
    ensures Normalized(a + " " + op + " " + b, parents) ==
            Normalized(a, parents) + " " + op + " " + Normalized(b, parents)
  {
    CompoundTokens(a, op, b);
    CompoundTemplate(Tokens(a), op, Tokens(b), parents);
  }

  // Wrappers

  lemma {:induction false} SegmentsHead(tokens: seq<string>, w: string, current: seq<string>, parents: set<string>)
    requires IsWrapper(w) && w != "chroot" && w != "flock"
    requires current != [] && !IsFlag(current[0]) && !IsEnvAssignment(current[0])
    ensures Segments(tokens, [w] + current, parents) == Segments(tokens, current, parents)
    decreases |tokens|
  {
    if tokens == [] || IsOperator(tokens[0]) {
      WrapperDisappears(w, current);
    } else {
      assert [w] + current + [tokens[0]] == [w] + (current + [tokens[0]]);
      SegmentsHead(tokens[1..], w, current + [tokens[0]], parents);
    }
  }

  lemma {:induction false} OneSegment(tokens: seq<string>, current: seq<string>, parents: set<string>)
    requires forall i | 0 <= i < |tokens| :: !IsOperator(tokens[i])
    requires tokens != [] || current != []
    ensures Segments(tokens, current, parents) == [NormalizedOne(current + tokens, parents)]
    decreases |tokens|
  {
    if tokens == [] {
      assert current + tokens == current;
    } else {
      assert current + [tokens[0]] + tokens[1..] == current + tokens;
      OneSegment(tokens[1..], current + [tokens[0]], parents);
    }
  }

  lemma OneToken(tok: string, parents: set<string>)
    requires !IsOperator(tok)
    ensures Template([tok], parents) == tok
  {
    OneSegment([tok], [], parents);
    assert [] + [tok] == [tok] && Unwrap([tok]) == [tok];
    assert Classifier.Classified([tok], parents) == [tok];
  }

  /** c survives being wrapped in w. */
  ghost predicate Transparent(w: string, c: string, parents: set<string>) {
    Normalized(w + " " + c, parents) == Normalized(c, parents)
  }

  /** The first token of a command exists and is no flag, assignment or operator. */
  predicate StartsPlainly(c: string) {
    var t := Tokens(c);
    t != [] && !IsFlag(t[0]) && !IsEnvAssignment(t[0]) && !IsOperator(t[0])
  }

  lemma WrapperIsTransparent(w: string, c: string, parents: set<string>)
    requires IsWrapper(w) && w != "chroot" && w != "flock" && StartsPlainly(c)
    ensures Transparent(w, c, parents)
  {
    WrapperNames(w);
    WordTokens(w, c);
    var t := Tokens(c);
    assert ([w] + t)[1..] == t && [] + [w] == [w] && [] + [t[0]] == [t[0]];
    assert Segments([w] + t, [], parents) == Segments(t, [w], parents) == Segments(t[1..], [w] + [t[0]], parents);
    SegmentsHead(t[1..], w, [t[0]], parents);
  }

  /** A single word is its own template. */
  lemma WordTemplate(w: string, parents: set<string>)
    requires PlainWord(w) && !IsOperator(w)
    ensures Normalized(w, parents) == w
  {
    WordTokens(w, "");
    OneToken(w, parents);
  }

  lemma TwoWords(a: string, b: string)
    requires PlainWord(a) && PlainWord(b)
    ensures Tokens(a + " " + b) == [a, b] && Tokens(b) == [b]
  {
    WordTokens(a, b);
    WordTokens(b, "");
    assert [a] + [b] == [a, b];
  }

  lemma KeptSegment(tokens: seq<string>, parents: set<string>)
    requires |tokens| == 2 && Unwrap(tokens) == tokens && tokens[0] != "" && !IsOperator(tokens[0]) &&
             !IsOperator(tokens[1])
    ensures var r := Template(tokens, parents); r != "" && r[0] == tokens[0][0]
  {
    OneSegment(tokens, [], parents);
    assert [] + tokens == tokens;
    JoinHead(Classifier.Classified(tokens, parents), " ");
  }

  lemma KeptWrapper(w: string, tok: string, parents: set<string>)
    requires w == "chroot" || w == "flock"
    requires PlainWord(tok) && !IsFlag(tok) && !IsOperator(tok)
    ensures var r := Normalized(w + " " + tok, parents); r != "" && r[0] == w[0]
  {
    WrapperNames(w);
    TwoWords(w, tok);
    WrapperKeepsOne(w, tok);
    KeptSegment([w, tok], parents);
  }

  lemma ChrootAndFlockKeepMake(w: string, parents: set<string>)
    requires w == "chroot" || w == "flock"
    ensures StartsPlainly("make") && !Transparent(w, "make", parents)
  {
    KeptWrapper(w, "make", parents);
    WordTemplate("make", parents);
    WordTokens("make", "");
  }

  lemma JoinHead(words: seq<string>, sep: string)
    requires words != [] && words[0] != ""
    ensures Join(words, sep) != "" && Join(words, sep)[0] == words[0][0]
  {
  }

  /** A wrapper is transparent to every plainly starting command exactly when it is neither chroot nor flock. */
  lemma TransparentWrappers(w: string, parents: set<string>)
    requires IsWrapper(w)
    ensures (forall c | StartsPlainly(c) :: Transparent(w, c, parents)) <==> w != "chroot" && w != "flock"
  {
    if w == "chroot" || w == "flock" {
      ChrootAndFlockKeepMake(w, parents);
    } else {
      forall c | StartsPlainly(c) ensures Transparent(w, c, parents) {
        WrapperIsTransparent(w, c, parents);
      }
    }
  }

  // What unwrapping takes away in front of a command

  predicate NoOperators(tokens: seq<string>) {
    forall i | 0 <= i < |tokens| :: !IsOperator(tokens[i])
  }

  lemma SameUnwrapped(a: seq<string>, b: seq<string>)
    requires a == b
    ensures Unwrap(a) == Unwrap(b)
  {
  }

  lemma {:induction false} Absorbed(a: seq<string>, b: seq<string>, current: seq<string>, parents: set<string>)
    requires NoOperators(a)
    ensures Segments(a + b, current, parents) == Segments(b, current + a, parents)
    decreases |a|
  {
    if a == [] {
      assert a + b == b && current + a == current;
    } else {
      assert (a + b)[1..] == a[1..] + b && current + [a[0]] + a[1..] == current + a;
      Absorbed(a[1..], b, current + [a[0]], parents);
    }
  }

  lemma HeadsUnwrapped(heads: seq<string>, current: seq<string>)
    requires current != [] && !IsStripped(current[0]) && Unwrap(heads + [current[0]]) == [current[0]]
    ensures Unwrap(heads + current) == Unwrap(current)
  {
    UnwrapLands(heads, current[0], current[1..]);
    SameUnwrapped(heads + current, heads + [current[0]] + current[1..]);
    assert [current[0]] + current[1..] == current;
    assert StripAssignments(current) == current;
  }

  lemma {:induction false} SegmentsBehind(tokens: seq<string>, heads: seq<string>, current: seq<string>,
                                          parents: set<string>)
    requires current != [] && !IsStripped(current[0]) && Unwrap(heads + [current[0]]) == [current[0]]
    ensures Segments(tokens, heads + current, parents) == Segments(tokens, current, parents)
    decreases |tokens|
  {
    if tokens == [] || IsOperator(tokens[0]) {
      HeadsUnwrapped(heads, current);
    } else {
      assert heads + current + [tokens[0]] == heads + (current + [tokens[0]]);
      SegmentsBehind(tokens[1..], heads, current + [tokens[0]], parents);
    }
  }

  /** What leads to a command disappears from its template. */
  lemma HeadsGone(heads: seq<string>, rest: seq<string>, parents: set<string>)
    requires NoOperators(heads) && rest != [] && !IsStripped(rest[0]) && !IsOperator(rest[0])
    requires Unwrap(heads + [rest[0]]) == [rest[0]]
    ensures Template(heads + rest, parents) == Template(rest, parents)
  {
    Absorbed(heads, rest, [], parents);
    assert [] + heads == heads && [] + [rest[0]] == [rest[0]];
    SegmentsBehind(rest[1..], heads, [rest[0]], parents);
  }
}
