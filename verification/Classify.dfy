/** core/normalize/classify.go: token classes and run collapsing. */
module Classifier {
  import Strings

  datatype Class = Plain | Flag | Path | Repo | Hash | Num | Str

  predicate IsDigit(c: char) { '0' <= c <= '9' }
  predicate IsAlpha(c: char) { 'a' <= c <= 'z' || 'A' <= c <= 'Z' }
  predicate IsHex(c: char) { IsDigit(c) || 'a' <= c <= 'f' || 'A' <= c <= 'F' }

  predicate AllDigits(s: string) {
    s != "" && forall i | 0 <= i < |s| :: IsDigit(s[i])
  }

  /** A hexadecimal word of 6 to 40 characters. */
  predicate LooksHash(tok: string) {
    6 <= |tok| <= 40 && forall i | 0 <= i < |tok| :: IsHex(tok[i])
  }

  /** An optional minus, digits, and an optional decimal part. */
  predicate LooksNum(tok: string) {
    var t := if tok != "" && tok[0] == '-' then tok[1..] else tok;
    AllDigits(t) || exists i | 0 < i < |t| :: t[i] == '.' && AllDigits(t[..i]) && AllDigits(t[i + 1..])
  }

  predicate SchemeChar(c: char) {
    IsAlpha(c) || IsDigit(c) || c == '+' || c == '.' || c == '-'
  }

  predicate SchemeEnds(tok: string, n: int) {
    && 0 < n <= |tok| - 3 && tok[n..n + 3] == "://"
    && IsAlpha(tok[0]) && forall i | 0 < i < n :: SchemeChar(tok[i])
  }

  predicate HasScheme(tok: string) {
    exists n | 0 < n <= |tok| - 3 :: SchemeEnds(tok, n)
  }

  /** A URL, a `www.` name, a `user@host:` remote, or a `.git` name. */
  predicate LooksRepo(tok: string) {
    || HasScheme(tok)
    || Strings.IsPrefix("www.", tok)
    || (exists i, j | 0 <= i < j < |tok| :: tok[i] == '@' && tok[j] == ':' && '\n' !in tok[i + 1..j])
    || (|tok| >= 4 && tok[|tok| - 4..] == ".git")
  }

  function ClassifyToken(tok: string, idx: nat, firstTok: string, parents: set<string>): Class {
    if tok == "--" then Plain
    else if tok != "" && tok[0] == '-' then Flag
    else if idx == 0 then Plain
    else if idx == 1 && firstTok in parents then Plain
    else if LooksRepo(tok) then Repo
    else if LooksNum(tok) then Num
    else if LooksHash(tok) then Hash
    else if '/' in tok || (tok != "" && (tok[0] == '.' || tok[0] == '~')) then Path
    else Str
  }

  function CollapseAppend(result: seq<string>, token: string): seq<string> {
    if result != [] && result[|result| - 1] == token then result else result + [token]
  }

  function Collapse(result: seq<string>, tok: string, kind: Class): seq<string> {
    match kind
    case Plain => result + [tok]
    case Flag => CollapseAppend(result, "FLAG")
    case Path => CollapseAppend(result, "PATH")
    case Repo => CollapseAppend(result, "REPO")
    case Hash => CollapseAppend(result, "HASH")
    case Num => CollapseAppend(result, "NUM")
    case Str => CollapseAppend(result, "STR")
  }

  function Classes(tokens: seq<string>, parents: set<string>): seq<Class> {
    seq(|tokens|, i requires 0 <= i < |tokens| => ClassifyToken(tokens[i], i, tokens[0], parents))
  }

  /** A `--` was seen after the first token. */
  predicate InKwargs(tokens: seq<string>) {
    exists i | 0 < i < |tokens| :: tokens[i] == "--"
  }

  /** Runs of one class become one token; everything from `--` on becomes KWARGS. */
  function Collapsed(tokens: seq<string>, classes: seq<Class>): (result: seq<string>)
    requires tokens != [] && |tokens| == |classes|
    ensures result != [] && result[0] == tokens[0]
  {
    if |tokens| == 1 then [tokens[0]]
    else
      var n := |tokens| - 1;
      var result := Collapsed(tokens[..n], classes[..n]);
      if InKwargs(tokens[..n]) then result
      else if tokens[n] == "--" then result + ["KWARGS"]
      else Collapse(result, tokens[n], classes[n])
  }

  method CollapseTokens(tokens: seq<string>, classes: seq<Class>) returns (result: seq<string>)
    requires tokens != [] && |tokens| == |classes|
    ensures result == Collapsed(tokens, classes)
  {
    result := [tokens[0]];
    var inKwargs := false;
    for i := 1 to |tokens|
      invariant result == Collapsed(tokens[..i], classes[..i])
      invariant inKwargs == InKwargs(tokens[..i])
    {
      var t, c := tokens[..i + 1], classes[..i + 1];
      assert t[..i] == tokens[..i] && c[..i] == classes[..i] && t[i] == tokens[i] && c[i] == classes[i];
      assert inKwargs ==> InKwargs(t) by {
        if inKwargs {
          var j :| 0 < j < i && tokens[..i][j] == "--";
          assert t[j] == "--";
        }
      }
      if tokens[i] == "--" {
        assert t[i] == "--";
        if !inKwargs {
          result := result + ["KWARGS"];
          inKwargs := true;
        }
      } else {
        assert InKwargs(t) ==> inKwargs by {
          if InKwargs(t) {
            var j :| 0 < j < i + 1 && t[j] == "--";
            assert tokens[..i][j] == "--";
          }
        }
        if !inKwargs {
          result := Collapse(result, tokens[i], classes[i]);
        }
      }
    }
    assert tokens[..|tokens|] == tokens && classes[..|tokens|] == classes;
  }

  method ClassifyTokens(tokens: seq<string>, parents: seq<string>) returns (result: seq<string>)
    requires tokens != []
    ensures result == Classified(tokens, set p | p in parents)
  {
    var parentSet: set<string> := {};
    for i := 0 to |parents|
      invariant parentSet == set p | p in parents[..i]
    {
      assert parents[..i + 1] == parents[..i] + [parents[i]];
      parentSet := parentSet + {parents[i]};
    }
    assert parents[..|parents|] == parents;
    var classes: seq<Class> := [];
    for i := 0 to |tokens|
      invariant classes == Classes(tokens, parentSet)[..i]
    {
      classes := classes + [ClassifyToken(tokens[i], i, tokens[0], parentSet)];
    }
    assert classes == Classes(tokens, parentSet);
    result := CollapseTokens(tokens, classes);
  }

  function Classified(tokens: seq<string>, parents: set<string>): seq<string>
    requires tokens != []
  {
    Collapsed(tokens, Classes(tokens, parents))
  }

  /** The template of a token prefix is a prefix of the template: collapsing only ever appends. */
  lemma {:induction false} CollapsedPrefix(tokens: seq<string>, k: nat, parents: set<string>)
    requires 1 <= k <= |tokens|
    ensures Classified(tokens[..k], parents) <= Classified(tokens, parents)
  {
    var n := |tokens| - 1;
    if k == |tokens| {
      assert tokens[..k] == tokens;
      if n > 0 {
        assert Classes(tokens, parents)[..n] == Classes(tokens[..n], parents);
        CollapsedPrefix(tokens, n, parents);
      }
    } else {
      assert tokens[..n][..k] == tokens[..k];
      CollapsedPrefix(tokens[..n], k, parents);
      assert Classes(tokens, parents)[..n] == Classes(tokens[..n], parents);
      assert Classified(tokens[..n], parents) <= Classified(tokens, parents);
    }
  }

  // What a template reveals

  const PLACEHOLDERS: set<string> := {"FLAG", "PATH", "REPO", "HASH", "NUM", "STR", "KWARGS"}

  lemma PrefixClasses(tokens: seq<string>, parents: set<string>)
    requires |tokens| > 1
    ensures Classes(tokens, parents)[..|tokens| - 1] == Classes(tokens[..|tokens| - 1], parents)
  {
  }

  /** Of a command, at most its first word and the subcommand of a known parent appear in the template as typed. */
  lemma {:induction false} OnlyTheHeadIsVerbatim(tokens: seq<string>, parents: set<string>)
    requires tokens != []
    ensures var r := Classified(tokens, parents);
            && r[0] == tokens[0]
            && forall i | 1 <= i < |r| ::
                 r[i] in PLACEHOLDERS || (i == 1 && |tokens| > 1 && tokens[0] in parents && r[1] == tokens[1])
  {
    if |tokens| > 1 {
      PrefixClasses(tokens, parents);
      OnlyTheHeadIsVerbatim(tokens[..|tokens| - 1], parents);
    }
  }

  /** The subcommand of a known parent is itself the word that `--` turns into. */
  predicate SpellsKwargs(tokens: seq<string>, parents: set<string>) {
    |tokens| > 2 && tokens[0] in parents && tokens[1] == "KWARGS" && tokens[2] == "--"
  }

  lemma TwoTokens(tokens: seq<string>, parents: set<string>)
    requires |tokens| == 2
    ensures var r := Classified(tokens, parents);
            && |r| <= 2
            && (|r| == 2 && r[1] == "KWARGS" <==> tokens[1] == "--" || (tokens[0] in parents && tokens[1] == "KWARGS"))
  {
    PrefixClasses(tokens, parents);
    assert Classified(tokens[..1], parents) == [tokens[0]];
    assert !InKwargs(tokens[..1]);
  }

  /** Before any `--`, the word KWARGS can only be a subcommand, and the next token never joins it. */
  lemma {:induction false} KwargsTyped(tokens: seq<string>, parents: set<string>)
    requires tokens != [] && !InKwargs(tokens)
    ensures var r, typed := Classified(tokens, parents), |tokens| > 1 && tokens[0] in parents && tokens[1] == "KWARGS";
            && (forall i | 1 <= i < |r| && r[i] == "KWARGS" :: i == 1 && typed)
            && (typed && |tokens| > 2 ==> |r| > 2)
  {
    if |tokens| > 1 {
      var n := |tokens| - 1;
      PrefixClasses(tokens, parents);
      assert tokens[n] != "--" && !InKwargs(tokens[..n]) by {
        assert forall j | 0 < j < n :: tokens[..n][j] == tokens[j];
      }
      KwargsTyped(tokens[..n], parents);
      if n == 1 {
        TwoTokens(tokens, parents);
      } else if n == 2 {
        TwoTokens(tokens[..2], parents);
      }
    }
  }

  predicate Differ(r: seq<string>, spelled: bool) {
    && (forall i | 2 <= i < |r| :: r[i] == r[i - 1] <==> i == 2 && spelled)
    && (spelled ==> |r| > 2)
  }

  lemma ThreeTokens(tokens: seq<string>, parents: set<string>)
    requires |tokens| == 3
    ensures Differ(Classified(tokens, parents), SpellsKwargs(tokens, parents))
  {
    PrefixClasses(tokens, parents);
    TwoTokens(tokens[..2], parents);
    assert InKwargs(tokens[..2]) <==> tokens[1] == "--" by {
      assert tokens[..2][1] == tokens[1];
    }
    assert ClassifyToken(tokens[2], 2, tokens[0], parents) == Plain ==> tokens[2] == "--";
  }

  lemma MoreTokens(tokens: seq<string>, parents: set<string>)
    requires |tokens| > 3
    requires Differ(Classified(tokens[..|tokens| - 1], parents), SpellsKwargs(tokens, parents))
    ensures Differ(Classified(tokens, parents), SpellsKwargs(tokens, parents))
  {
    var n := |tokens| - 1;
    PrefixClasses(tokens, parents);
    if !InKwargs(tokens[..n]) {
      KwargsTyped(tokens[..n], parents);
    }
    assert ClassifyToken(tokens[n], n, tokens[0], parents) == Plain ==> tokens[n] == "--";
  }

  /** Runs are gone: after the first word, neighbouring words of a template differ, but for that one spelling. */
  lemma {:induction false} NeighboursDiffer(tokens: seq<string>, parents: set<string>)
    requires tokens != []
    ensures Differ(Classified(tokens, parents), SpellsKwargs(tokens, parents))
  {
    var n := |tokens| - 1;
    if n > 2 {
      NeighboursDiffer(tokens[..n], parents);
      MoreTokens(tokens, parents);
    } else if n == 2 {
      ThreeTokens(tokens, parents);
    } else if n == 1 {
      TwoTokens(tokens, parents);
    }
  }

  lemma LastOfClass(tokens: seq<string>, other: seq<string>, parents: set<string>)
    requires |tokens| == |other| > 1 && tokens[0] == other[0]
    requires var n := |tokens| - 1;
             && Classified(tokens[..n], parents) == Classified(other[..n], parents)
             && InKwargs(tokens[..n]) == InKwargs(other[..n])
             && (tokens[n] == other[n] ||
                    ClassifyToken(tokens[n], n, tokens[0], parents) ==
                        ClassifyToken(other[n], n, tokens[0], parents) != Plain)
    ensures Classified(tokens, parents) == Classified(other, parents)
  {
    PrefixClasses(tokens, parents);
    PrefixClasses(other, parents);
  }

  lemma EditedKwargs(tokens: seq<string>, i: nat, edited: string)
    requires 1 <= i < |tokens| && edited != "--" && tokens[i] != "--"
    ensures InKwargs(tokens[i := edited]) == InKwargs(tokens)
  {
    var other := tokens[i := edited];
    assert forall j | 0 < j < |tokens| && j != i :: other[j] == tokens[j];
  }

  /**
   Editing an argument within its class leaves the template as it was, which is why an edited suggestion still
   counts.
   */
  lemma {:induction false} EditKeepsTemplate(tokens: seq<string>, i: nat, edited: string, parents: set<string>)
    requires 1 <= i < |tokens|
    requires ClassifyToken(edited, i, tokens[0], parents) == ClassifyToken(tokens[i], i, tokens[0], parents) != Plain
    ensures Classified(tokens[i := edited], parents) == Classified(tokens, parents)
  {
    var n, other := |tokens| - 1, tokens[i := edited];
    if i < n {
      assert other[..n] == tokens[..n][i := edited];
      EditKeepsTemplate(tokens[..n], i, edited, parents);
      EditedKwargs(tokens[..n], i, edited);
    } else {
      assert other[..n] == tokens[..n];
    }
    LastOfClass(other, tokens, parents);
  }
}
