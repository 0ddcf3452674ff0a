/**
 When a suggestion survives being typed: filterByPrefix compares the template of what was typed with the
 suggestion's.
 */
module Typing {
  import opened Strings
  import opened Tokenizer
  import opened Unwrapping
  import Classifier
  import opened Normalizer

  // Typing a command token by token

  /** Every token that opens a segment stays in front of it. */
  predicate PlainSegments(tokens: seq<string>, open: bool) {
    tokens == [] ||
    ((IsOperator(tokens[0]) || open || Stays(tokens[0])) && PlainSegments(tokens[1..], !IsOperator(tokens[0])))
  }

  /** As lists of words, p is an initial part of s whose last word may be unfinished. */
  predicate Typed(p: seq<string>, s: seq<string>) {
    p == [] || (|p| <= |s| && p[..|p| - 1] == s[..|p| - 1] && IsPrefix(p[|p| - 1], s[|p| - 1]))
  }

  lemma JoinMonotone(a: seq<string>, b: seq<string>, sep: string)
    requires a != [] && a <= b
    ensures IsPrefix(Join(a, sep), Join(b, sep))
  {
  }

  lemma TypedJoin(p: seq<string>, s: seq<string>)
    requires Typed(p, s)
    ensures IsPrefix(Join(p, " "), Join(s, " "))
  {
    if p != [] {
      var n := |p| - 1;
      JoinMonotone(s[..n + 1], s, " ");
      var done := p[..n];
      assert p == done + [p[n]] && s[..n + 1] == done + [s[n]];
      if done != [] {
        JoinConcat(done, [p[n]], " ");
        JoinConcat(done, [s[n]], " ");
      }
    }
  }

  lemma {:induction false} FirstSegment(tokens: seq<string>, current: seq<string>, parents: set<string>)
    requires current != [] && Stays(current[0])
    ensures Segments(tokens, current, parents) != []
    ensures IsPrefix(NormalizedOne(current, parents), Segments(tokens, current, parents)[0])
    decreases |tokens|
  {
    if tokens != [] && !IsOperator(tokens[0]) {
      var more := current + [tokens[0]];
      FirstSegment(tokens[1..], more, parents);
      StaysUnwrapped(current);
      StaysUnwrapped(more);
      assert more[..|current|] == current;
      Classifier.CollapsedPrefix(more, |current|, parents);
      JoinMonotone(Classifier.Classified(current, parents), Classifier.Classified(more, parents), " ");
    }
  }

  lemma {:induction false} TypedSegments(tokens: seq<string>, k: nat, current: seq<string>, parents: set<string>)
    requires k <= |tokens| && PlainSegments(tokens, current != [])
    requires current != [] ==> Stays(current[0])
    ensures Typed(Segments(tokens[..k], current, parents), Segments(tokens, current, parents))
    decreases |tokens|
  {
    if k == 0 {
      if current != [] {
        FirstSegment(tokens, current, parents);
      }
    } else {
      assert tokens[..k][1..] == tokens[1..][..k - 1];
      if IsOperator(tokens[0]) {
        TypedSegments(tokens[1..], k - 1, [], parents);
        var x := Closed(current, parents) + [tokens[0]];
        TypedAfter(x, Segments(tokens[1..][..k - 1], [], parents), Segments(tokens[1..], [], parents));
      } else {
        TypedSegments(tokens[1..], k - 1, current + [tokens[0]], parents);
      }
    }
  }

  lemma TypedAfter(x: seq<string>, p: seq<string>, s: seq<string>)
    requires Typed(p, s)
    ensures Typed(x + p, x + s)
  {
  }

  lemma TypedPlain(tokens: seq<string>, k: nat, parents: set<string>)
    requires k <= |tokens| && PlainSegments(tokens, false)
    ensures IsPrefix(Template(tokens[..k], parents), Template(tokens, parents))
  {
    TypedSegments(tokens, k, [], parents);
    TypedJoin(Segments(tokens[..k], [], parents), Segments(tokens, [], parents));
  }

  /**
   For a command none of whose segments begins with a wrapper or assignment, what was typed of it so far, in whole
   tokens, has a template that is a string prefix of the whole template.
   */
  lemma TypingKeepsPrefix(typed: string, command: string, parents: set<string>)
    requires PlainSegments(Tokens(command), false) && Tokens(typed) <= Tokens(command)
    ensures IsPrefix(Normalized(typed, parents), Normalized(command, parents))
  {
    var k := |Tokens(typed)|;
    assert Tokens(command)[..k] == Tokens(typed);
    TypedPlain(Tokens(command), k, parents);
  }

  // Typing towards a command behind wrappers and assignments

  function Templates(parents: set<string>): seq<string> -> string {
    (tokens: seq<string>) => Template(tokens, parents)
  }

  /** What was typed of the tokens at any point has a template that is a string prefix of the whole template. */
  predicate KeepsTyping(template: seq<string> -> string, tokens: seq<string>) {
    forall k | 0 <= k <= |tokens| :: IsPrefix(template(tokens[..k]), template(tokens))
  }

  /** The first token stays in front when unwrapped, and so does what opens every later segment. */
  predicate PlainCommand(rest: seq<string>) {
    rest != [] && !IsOperator(rest[0]) && PlainSegments(rest, false)
  }

  /** A wrapper with no argument of its own that is not a flag. */
  predicate Vanishes(w: string) {
    IsWrapper(w) && w != "chroot" && w != "flock"
  }

  /**
   No quoted word in front is the command's first word, a space and more, or the other way around: only then can a
   template be mistaken for another that has its spaces elsewhere.
   */
  predicate Apart(heads: seq<string>, c: string) {
    || (forall i | 0 <= i < |heads| :: Vanishes(heads[i]))
    || (forall i | 0 <= i < |heads| :: !IsPrefix(heads[i] + " ", c) && !IsPrefix(c + " ", heads[i]))
  }

  /**
   The heads, in any mixture of assignments, wrappers and the wrappers' own flags, values and positional arguments,
   are what unwrapping takes away in front of the command.
   */
  predicate LeadTo(heads: seq<string>, rest: seq<string>) {
    && NoOperators(heads) && PlainCommand(rest) && Unwrap(heads + [rest[0]]) == [rest[0]] && Apart(heads, rest[0])
  }

  lemma WholeSegment(tokens: seq<string>, parents: set<string>)
    requires tokens != [] && NoOperators(tokens)
    ensures Template(tokens, parents) == NormalizedOne(tokens, parents)
  {
    OneSegment(tokens, [], parents);
    assert [] + tokens == tokens;
  }

  /** s is the word w, alone or followed by a space. */
  predicate BeginsWithWord(w: string, s: string) {
    IsPrefix(w, s) && (|s| > |w| ==> s[|w|] == ' ')
  }

  lemma {:induction false} SegmentsBegin(tokens: seq<string>, current: seq<string>, parents: set<string>)
    requires current != [] && Stays(current[0])
    ensures var r := Segments(tokens, current, parents); r != [] && BeginsWithWord(current[0], r[0])
    decreases |tokens|
  {
    if tokens == [] || IsOperator(tokens[0]) {
      StaysUnwrapped(current);
    } else {
      SegmentsBegin(tokens[1..], current + [tokens[0]], parents);
    }
  }

  lemma TemplateBegins(rest: seq<string>, parents: set<string>)
    requires PlainCommand(rest)
    ensures BeginsWithWord(rest[0], Template(rest, parents))
  {
    assert [] + [rest[0]] == [rest[0]];
    SegmentsBegin(rest[1..], [rest[0]], parents);
  }

  // Typing the words in front

  lemma TwoWordTemplate(tokens: seq<string>, parents: set<string>)
    requires |tokens| == 2 && IsWrapper(tokens[0])
    ensures |Classifier.Classified(tokens, parents)| == 2
  {
    WrapperIsName(tokens[0]);
    Classifier.PrefixClasses(tokens, parents);
    assert Classifier.Classified(tokens[..1], parents) == [tokens[0]];
    assert !Classifier.InKwargs(tokens[..1]);
    assert tokens[0] !in Classifier.PLACEHOLDERS by { assert NameChar(tokens[0][0]); }
  }

  /** A wrapper that has not met its command yet shows in the template, with its arguments behind it. */
  lemma StuckTemplate(tokens: seq<string>, parents: set<string>)
    requires |tokens| > 1 && IsWrapper(tokens[0])
    ensures IsPrefix(tokens[0] + " ", Join(Classifier.Classified(tokens, parents), " "))
  {
    var words := Classifier.Classified(tokens, parents);
    TwoWordTemplate(tokens[..2], parents);
    Classifier.CollapsedPrefix(tokens, 2, parents);
    assert words[0] == tokens[0] && words == [words[0]] + words[1..];
    JoinConcat([words[0]], words[1..], " ");
  }

  lemma SpacedPrefix(w: string, c: string, s: string)
    requires BeginsWithWord(c, s) && IsPrefix(w + " ", s)
    ensures w == c || IsPrefix(w + " ", c) || IsPrefix(c + " ", w)
  {
    var ws := w + " ";
    assert ws[|w|] == ' ' && ws[..|w|] == w;
    if |c| < |w| {
      assert w[..|c|] == c && w[|c|] == s[|c|];
      assert w[..|c| + 1] == c + " ";
    } else if |c| == |w| {
      assert c == s[..|w|] == w;
    }
  }

  lemma WordPrefix(w: string, c: string, s: string)
    requires BeginsWithWord(c, s)
    ensures IsPrefix(w, s) ==> IsPrefix(w, c) || IsPrefix(c + " ", w)
    ensures IsPrefix(w, c) ==> IsPrefix(w, s)
  {
    if |c| < |w| <= |s| && IsPrefix(w, s) {
      assert w[..|c|] == c && w[|c|] == s[|c|] == ' ';
      assert w[..|c| + 1] == c + " ";
    }
  }

  lemma LongerAssignment(a: string, w: string)
    requires IsStripped(a) && IsPrefix(a, w)
    ensures IsStripped(w)
  {
    var j :| 0 < j < |a| && a[j] == '=';
    assert w[j] == '=' && w[0] == a[0];
  }

  lemma UnwrapSuffix(tokens: seq<string>, k: nat)
    requires 0 < k <= |tokens|
    ensures var u := Unwrap(tokens[..k]);
            u != [] && (forall i | 0 <= i < |u| :: u[i] in tokens) && (|u| == 1 ==> u[0] == tokens[k - 1])
  {
    UnwrapIsFixedSuffix(tokens[..k]);
    var u := Unwrap(tokens[..k]);
    assert forall i | 0 <= i < |u| :: u[i] == tokens[..k][k - |u| + i];
  }

  /** What is left of the words in front, when only some of them are typed. */
  lemma PartLeft(heads: seq<string>, c: string, k: nat)
    requires Unwrap(heads + [c]) == [c] && 0 < k <= |heads|
    ensures var u := Unwrap(heads[..k]);
            && u != [] && (forall i | 0 <= i < |u| :: u[i] in heads) && (|u| == 1 ==> u[0] == heads[k - 1])
            && (IsWrapper(u[0]) || (|u| == 1 && IsStripped(u[0])))
  {
    UnwrapSuffix(heads, k);
    UnwrapPart(heads + [c], k);
    assert (heads + [c])[..k] == heads[..k];
  }

  /** Of the words in front, typed up to here, the template is one wrapper that the command's first word starts with. */
  predicate LeftBegins(heads: seq<string>, c: string, k: nat)
    requires 0 < k <= |heads|
  {
    Unwrap(heads[..k]) == [heads[k - 1]] && IsWrapper(heads[k - 1]) && IsPrefix(heads[k - 1], c)
  }

  lemma LeftSurvives(heads: seq<string>, c: string, k: nat, u: seq<string>, part: string, s: string,
                     parents: set<string>)
    requires 0 < k <= |heads| && Stays(c) && BeginsWithWord(c, s)
    requires forall i | 0 <= i < |heads| :: !IsPrefix(heads[i] + " ", c) && !IsPrefix(c + " ", heads[i])
    requires u == Unwrap(heads[..k]) && u != [] && u[0] in heads && (|u| == 1 ==> u[0] == heads[k - 1])
    requires IsWrapper(u[0]) || (|u| == 1 && IsStripped(u[0]))
    requires part == Join(Classifier.Classified(u, parents), " ")
    ensures IsPrefix(part, s) <==> LeftBegins(heads, c, k)
  {
    var w := u[0];
    if |u| > 1 {
      StuckTemplate(u, parents);
      if IsPrefix(part, s) {
        assert IsPrefix(w + " ", s);
        SpacedPrefix(w, c, s);
      }
    } else {
      assert u == [w] && Classifier.Classified(u, parents) == [w];
      WordPrefix(w, c, s);
      if IsStripped(w) && IsPrefix(w, c) {
        LongerAssignment(w, c);
      }
      if IsWrapper(w) { WrapperNames(w); }
    }
  }

  lemma {:induction false} VanishingLeft(heads: seq<string>)
    requires heads != [] && forall i | 0 <= i < |heads| :: Vanishes(heads[i])
    ensures Unwrap(heads) == [heads[|heads| - 1]]
  {
    if |heads| > 1 {
      var rest := heads[1..];
      WrapperNames(rest[0]);
      WrapperDisappears(heads[0], rest);
      VanishingLeft(rest);
      SameUnwrapped(heads, [heads[0]] + rest);
    }
  }

  lemma VanishingPart(heads: seq<string>, k: nat)
    requires 0 < k <= |heads| && forall i | 0 <= i < |heads| :: Vanishes(heads[i])
    ensures Unwrap(heads[..k]) == [heads[k - 1]]
  {
    VanishingLeft(heads[..k]);
  }

  lemma VanishingSurvives(w: string, c: string, part: string, s: string, parents: set<string>)
    requires Vanishes(w) && BeginsWithWord(c, s) && part == Join(Classifier.Classified([w], parents), " ")
    ensures IsPrefix(part, s) <==> IsPrefix(w, c)
  {
    assert Classifier.Classified([w], parents) == [w];
    WordPrefix(w, c, s);
    OneWord(w, c);
  }

  lemma OneWord(w: string, c: string)
    requires IsWrapper(w)
    ensures !IsPrefix(c + " ", w)
  {
    WrapperIsName(w);
    assert (c + " ")[|c|] == ' ' && !NameChar(' ');
  }

  lemma PartSurvives(heads: seq<string>, rest: seq<string>, k: nat, parents: set<string>)
    requires LeadTo(heads, rest) && 0 < k <= |heads|
    ensures IsPrefix(Template(heads[..k], parents), Template(heads + rest, parents)) <==>
            LeftBegins(heads, rest[0], k)
  {
    HeadsGone(heads, rest, parents);
    TemplateBegins(rest, parents);
    WholeSegment(heads[..k], parents);
    var u, part, s := Unwrap(heads[..k]), Template(heads[..k], parents), Template(rest, parents);
    PartLeft(heads, rest[0], k);
    if forall i | 0 <= i < |heads| :: Vanishes(heads[i]) {
      VanishingPart(heads, k);
      VanishingSurvives(heads[k - 1], rest[0], part, s, parents);
    } else {
      LeftSurvives(heads, rest[0], k, u, part, s, parents);
    }
  }

  lemma TypedBehind(heads: seq<string>, rest: seq<string>, k: nat, parents: set<string>)
    requires LeadTo(heads, rest) && 0 < k <= |rest|
    ensures IsPrefix(Template(heads + rest[..k], parents), Template(heads + rest, parents))
  {
    HeadsGone(heads, rest, parents);
    HeadsGone(heads, rest[..k], parents);
    TypedPlain(rest, k, parents);
  }

  lemma KeepsThroughHeads(template: seq<string> -> string, heads: seq<string>, rest: seq<string>)
    requires template([]) == ""
    requires forall j | 0 < j <= |rest| :: IsPrefix(template(heads + rest[..j]), template(heads + rest))
    ensures KeepsTyping(template, heads + rest) <==>
            forall j | 0 < j <= |heads| :: IsPrefix(template(heads[..j]), template(heads + rest))
  {
    var all, n := heads + rest, |heads|;
    assert forall k | 0 <= k <= n :: all[..k] == heads[..k];
    forall k | n < k <= |all| ensures IsPrefix(template(all[..k]), template(all)) {
      assert all[..k] == heads + rest[..k - n];
    }
    if KeepsTyping(template, all) {
      forall j | 0 < j <= n ensures IsPrefix(template(heads[..j]), template(all)) {
        assert IsPrefix(template(all[..j]), template(all));
      }
    }
    assert all[..0] == [];
  }

  /** All the words in front are wrappers without arguments, and w starts with each of them. */
  predicate BareWrappersOf(heads: seq<string>, w: string) {
    forall i | 0 <= i < |heads| :: Vanishes(heads[i]) && IsPrefix(heads[i], w)
  }

  lemma KeptNext(front: seq<string>, w: string, next: string)
    requires Unwrap(front + [w]) == [w] && (w == "chroot" || w == "flock")
    ensures Unwrap(front + [w] + [next]) == [w, next]
  {
    WrapperNames(w);
    UnwrapLands(front, w, [next]);
    WrapperKeepsOne(w, next);
    assert [w] + [next] == [w, next] && StripAssignments([w, next]) == [w, next];
  }

  /** chroot and flock always show with the argument they take. */
  lemma KeptArgument(heads: seq<string>, c: string, i: nat)
    requires Unwrap(heads + [c]) == [c] && i < |heads| && Unwrap(heads[..i + 1]) == [heads[i]]
    requires heads[i] == "chroot" || heads[i] == "flock"
    ensures i + 1 < |heads| && |Unwrap(heads[..i + 2])| == 2
  {
    var all, w := heads + [c], heads[i];
    var next := all[i + 1];
    assert i + 1 == |heads| ==> all[..i + 2] == all;
    assert i + 1 < |heads| ==> all[..i + 2] == heads[..i + 2];
    assert all[..i + 2] == heads[..i] + [w] + [next] && heads[..i + 1] == heads[..i] + [w];
    KeptNext(heads[..i], w, next);
  }

  lemma LeftExactly(heads: seq<string>, c: string)
    requires Unwrap(heads + [c]) == [c]
    ensures (forall j | 0 < j <= |heads| :: LeftBegins(heads, c, j)) <==> BareWrappersOf(heads, c)
  {
    if BareWrappersOf(heads, c) {
      forall j | 0 < j <= |heads| ensures LeftBegins(heads, c, j) {
        VanishingPart(heads, j);
      }
    }
    if forall j | 0 < j <= |heads| :: LeftBegins(heads, c, j) {
      forall i | 0 <= i < |heads| ensures Vanishes(heads[i]) && IsPrefix(heads[i], c) {
        assert LeftBegins(heads, c, i + 1);
        assert i + 2 <= |heads| ==> LeftBegins(heads, c, i + 2);
        if heads[i] == "chroot" || heads[i] == "flock" {
          KeptArgument(heads, c, i);
        }
      }
    }
  }

  /**
   Exactly when typing towards a command keeps its suggestion, whatever leads to it: when only wrappers without
   arguments do, and the command's first word starts with each of them.
   */
  lemma TypingExactly(heads: seq<string>, rest: seq<string>, parents: set<string>)
    requires LeadTo(heads, rest)
    ensures KeepsTyping(Templates(parents), heads + rest) <==> BareWrappersOf(heads, rest[0])
  {
    forall j | 0 < j <= |heads|
      ensures IsPrefix(Template(heads[..j], parents), Template(heads + rest, parents)) <==>
              LeftBegins(heads, rest[0], j)
    {
      PartSurvives(heads, rest, j, parents);
    }
    forall j | 0 < j <= |rest| ensures IsPrefix(Template(heads + rest[..j], parents), Template(heads + rest, parents)) {
      TypedBehind(heads, rest, j, parents);
    }
    KeepsThroughHeads(Templates(parents), heads, rest);
    LeftExactly(heads, rest[0]);
  }

  /** An assignment in front, or an argument of a wrapper, always loses the suggestion. */
  lemma AssignmentLoses(heads: seq<string>, rest: seq<string>, i: nat, parents: set<string>)
    requires LeadTo(heads, rest) && i < |heads| && !IsWrapper(heads[i])
    ensures !KeepsTyping(Templates(parents), heads + rest)
  {
    TypingExactly(heads, rest, parents);
  }

  // Typing raw text

  /** Whatever is typed of the command, in whole tokens, leaves it a continuation, as the filter sees it. */
  ghost predicate SurvivesTyping(command: string, parents: set<string>) {
    forall typed | Tokens(typed) <= Tokens(command) ::
           IsPrefix(Normalized(typed, parents), Normalized(command, parents))
  }

  /** Every command: surviving any typed text is surviving every number of typed tokens. */
  lemma SurvivalIsKeeping(command: string, parents: set<string>)
    ensures SurvivesTyping(command, parents) <==> KeepsTyping(Templates(parents), Tokens(command))
  {
    var tokens := Tokens(command);
    if KeepsTyping(Templates(parents), tokens) {
      forall typed | Tokens(typed) <= tokens
        ensures IsPrefix(Normalized(typed, parents), Normalized(command, parents))
      {
        assert tokens[..|Tokens(typed)|] == Tokens(typed);
        assert IsPrefix(Templates(parents)(tokens[..|Tokens(typed)|]), Templates(parents)(tokens));
      }
    }
    if SurvivesTyping(command, parents) {
      forall k | 0 <= k <= |tokens| ensures IsPrefix(Template(tokens[..k], parents), Template(tokens, parents)) {
        TokensAreWords(command);
        TextTokens(tokens[..k]);
        assert IsPrefix(Normalized(Text(tokens[..k]), parents), Normalized(command, parents));
      }
    }
  }

  /** The same of raw commands and whatever raw text is typed towards them. */
  lemma TypingWrappedExactly(command: string, heads: seq<string>, rest: seq<string>, parents: set<string>)
    requires Tokens(command) == heads + rest && LeadTo(heads, rest)
    ensures SurvivesTyping(command, parents) <==> BareWrappersOf(heads, rest[0])
  {
    SurvivalIsKeeping(command, parents);
    TypingExactly(heads, rest, parents);
  }

  lemma WrappedWord(w: string, c: string, parents: set<string>)
    requires Vanishes(w) && PlainWord(c) && !IsFlag(c) && !IsEnvAssignment(c) && !IsOperator(c) && !IsWrapper(c)
    ensures SurvivesTyping(w + " " + c, parents) <==> IsPrefix(w, c)
  {
    WrapperNames(w);
    TwoWords(w, c);
    WordLeads(w, c);
    TypingWrappedExactly(w + " " + c, [w], [c], parents);
    assert [w][0] == w;
  }

  lemma WordLeads(w: string, c: string)
    requires Vanishes(w) && !IsFlag(c) && !IsEnvAssignment(c) && !IsOperator(c) && !IsWrapper(c)
    ensures LeadTo([w], [c]) && [w, c] == [w] + [c]
  {
    WrapperNames(w);
    WrapperDisappears(w, [c]);
    assert [c][1..] == [] && Unwrap([c]) == [c];
  }

  /** `sudo make` loses its suggestion while only `sudo` is typed. */
  lemma TypingLosesMake(parents: set<string>)
    ensures !SurvivesTyping("sudo" + " " + "make", parents)
  {
    WrappedWord("sudo", "make", parents);
  }

  /** A wrapped command whose name starts with the wrapper's keeps its suggestion. */
  lemma TypingKeepsNicely(parents: set<string>)
    ensures SurvivesTyping("nice" + " " + "nicely", parents)
  {
    NameIsPlain("nicely");
    WrappedWord("nice", "nicely", parents);
  }

  lemma SudoLeads(c: string)
    requires Stays(c) && !IsFlag(c)
    ensures Unwrap(["sudo", "-u", "-v"] + [c]) == [c] && NoOperators(["sudo", "-u", "-v"])
  {
    var tokens, cfg := ["sudo", "-u", "-v"] + [c], Config("sudo").value;
    assert tokens[1] == "-u" && "-u" in cfg.valueFlags && tokens[3] == c && tokens[3..] == [c];
    WrapperNames("sudo");
    assert FindInner(tokens, cfg, 3, 0) == 3;
    assert FindInner(tokens, cfg, 1, 0) == 3;
    assert tokens[0] == "sudo" && StripAssignments(tokens) == tokens && WrapLoop(tokens) == WrapLoop([c]);
  }

  lemma SudoStuck(part: seq<string>, parents: set<string>)
    requires part == ["sudo", "-u"] || part == ["sudo", "-u", "-v"]
    ensures Template(part, parents) == "sudo FLAG"
  {
    WrapperNames("sudo");
    assert part[1] == "-u" && "-u" in Config("sudo").value.valueFlags;
    assert FindInner(part, Config("sudo").value, 1, 0) == FindInner(part, Config("sudo").value, 3, 0) == -1;
    assert Unwrap(part) == part;
    WholeSegment(part, parents);
    SudoClassified(part, parents);
    assert ["sudo", "FLAG"][1..] == ["FLAG"] && "sudo" + " " + "FLAG" == "sudo FLAG";
  }

  lemma SudoClassified(part: seq<string>, parents: set<string>)
    requires part == ["sudo", "-u"] || part == ["sudo", "-u", "-v"]
    ensures Classifier.Classified(part, parents) == ["sudo", "FLAG"]
  {
    if |part| == 2 {
      assert part[..1] == ["sudo"];
      FlagBehind(part, ["sudo"], parents);
    } else {
      SudoClassified(part[..2], parents);
      FlagBehind(part, ["sudo", "FLAG"], parents);
    }
    assert "sudo"[0] != "FLAG"[0] && ["sudo"] + ["FLAG"] == ["sudo", "FLAG"];
  }

  lemma FlagBehind(tokens: seq<string>, words: seq<string>, parents: set<string>)
    requires |tokens| > 1 && forall i | 0 < i < |tokens| :: IsFlag(tokens[i]) && tokens[i] != "--"
    requires Classifier.Classified(tokens[..|tokens| - 1], parents) == words
    ensures Classifier.Classified(tokens, parents) == Classifier.CollapseAppend(words, "FLAG")
  {
    Classifier.PrefixClasses(tokens, parents);
    assert !Classifier.InKwargs(tokens[..|tokens| - 1]);
  }

  lemma SudoPart(j: nat, c: string, parents: set<string>)
    requires 0 < j <= 3 && c == "sudo FLAG"
    ensures IsPrefix(Template(["sudo", "-u", "-v"][..j], parents), c)
  {
    var part := ["sudo", "-u", "-v"][..j];
    if j == 1 {
      WrapperNames("sudo");
      OneToken("sudo", parents);
      assert part == ["sudo"];
    } else {
      SudoStuck(part, parents);
    }
  }

  lemma QuotedCommand(c: string)
    requires c == "sudo FLAG"
    ensures PlainCommand([c]) && !IsFlag(c) && !IsOperator(c) && !Vanishes("-u")
  {
    assert c[0] == 's' && c != "sudo" && |c| == 9;
    assert [c][1..] == [];
  }

  /**
   Why the words must be told apart: towards a command that is itself named `sudo FLAG`, quoted, even the flags of
   sudo keep the suggestion.
   */
  lemma MistakenWord(c: string, parents: set<string>)
    requires c == "sudo FLAG"
    ensures var heads := ["sudo", "-u", "-v"];
            && NoOperators(heads) && PlainCommand([c]) && Unwrap(heads + [c]) == [c]
            && KeepsTyping(Templates(parents), heads + [c]) && !BareWrappersOf(heads, c)
  {
    var heads := ["sudo", "-u", "-v"];
    QuotedCommand(c);
    SudoLeads(c);
    OneToken(c, parents);
    HeadsGone(heads, [c], parents);
    forall j | 0 < j <= 3 ensures IsPrefix(Template(heads[..j], parents), Template(heads + [c], parents)) {
      SudoPart(j, c, parents);
    }
    assert [c][..1] == [c] && heads[1] == "-u";
    KeepsThroughHeads(Templates(parents), heads, [c]);
  }

  lemma KeepsBehind(template: seq<string> -> string, a: seq<string>, op: string, b: seq<string>)
    requires b != [] && template([]) == ""
    requires forall j | 0 <= j <= |a| :: IsPrefix(template(a[..j]), template(a + [op] + b))
    requires IsPrefix(template(a + [op]), template(a + [op] + b))
    requires forall j | 0 < j <= |b| ::
               IsPrefix(template(a + [op] + b[..j]), template(a + [op] + b)) <==>
                   IsPrefix(template(b[..j]), template(b))
    ensures KeepsTyping(template, a + [op] + b) <==> KeepsTyping(template, b)
  {
    var all, n := a + [op] + b, |a| + 1;
    assert forall k | 0 <= k <= |a| :: all[..k] == a[..k];
    assert all[..n] == a + [op] && b[..0] == [];
    forall j | 0 < j <= |b|
      ensures IsPrefix(template(all[..n + j]), template(all)) <==> IsPrefix(template(b[..j]), template(b))
    {
      assert all[..n + j] == a + [op] + b[..j];
    }
    if KeepsTyping(template, all) {
      forall j | 0 < j <= |b| ensures IsPrefix(template(b[..j]), template(b)) {
        assert IsPrefix(template(all[..n + j]), template(all));
      }
    }
    if KeepsTyping(template, b) {
      forall k | n < k <= |all| ensures IsPrefix(template(all[..k]), template(all)) {
        assert IsPrefix(template(b[..k - n]), template(b)) && all[..n + (k - n)] == all[..k];
      }
    }
  }

  /** Behind plain segments, whether a compound command keeps typing is decided by what comes after them. */
  lemma TypingBehindPlainSegments(a: seq<string>, op: string, b: seq<string>, parents: set<string>)
    requires IsOperator(op) && a != [] && b != [] && PlainSegments(a, false)
    ensures KeepsTyping(Templates(parents), a + [op] + b) <==> KeepsTyping(Templates(parents), b)
  {
    forall j | 0 <= j <= |a| ensures IsPrefix(Template(a[..j], parents), Template(a + [op] + b, parents)) {
      TypedInFront(a, op, b, j, parents);
    }
    forall j | 0 < j <= |b|
      ensures IsPrefix(Template(a + [op] + b[..j], parents), Template(a + [op] + b, parents)) <==>
              IsPrefix(Template(b[..j], parents), Template(b, parents))
    {
      TypedInLast(a, op, b, b[..j], parents);
    }
    TypedOperator(a, op, b, parents);
    KeepsBehind(Templates(parents), a, op, b);
  }

  lemma TypedInLast(a: seq<string>, op: string, b: seq<string>, part: seq<string>, parents: set<string>)
    requires IsOperator(op) && a != [] && b != [] && part != []
    ensures IsPrefix(Template(a + [op] + part, parents), Template(a + [op] + b, parents)) <==>
            IsPrefix(Template(part, parents), Template(b, parents))
  {
    CompoundTemplate(a, op, part, parents);
    CompoundTemplate(a, op, b, parents);
    SharedPrefix(Template(a, parents) + " " + op + " ", Template(part, parents), Template(b, parents));
  }

  lemma SharedPrefix(p: string, a: string, b: string)
    ensures IsPrefix(p + a, p + b) <==> IsPrefix(a, b)
  {
    if IsPrefix(p + a, p + b) {
      assert a == (p + a)[|p|..] == (p + b)[..|p + a|][|p|..] == b[..|a|];
    }
    if IsPrefix(a, b) {
      assert (p + b)[..|p + a|] == p + b[..|a|];
    }
  }

  lemma LongerPrefix(x: string, y: string, z: string)
    requires IsPrefix(x, y)
    ensures IsPrefix(x, y + z)
  {
  }

  lemma TypedInFront(a: seq<string>, op: string, b: seq<string>, k: nat, parents: set<string>)
    requires IsOperator(op) && a != [] && b != [] && PlainSegments(a, false) && k <= |a|
    ensures IsPrefix(Template(a[..k], parents), Template(a + [op] + b, parents))
  {
    TypedPlain(a, k, parents);
    WithinCompound(a[..k], a, op, b, parents);
  }

  lemma WithinCompound(part: seq<string>, a: seq<string>, op: string, b: seq<string>, parents: set<string>)
    requires IsOperator(op) && a != [] && b != []
    requires IsPrefix(Template(part, parents), Template(a, parents))
    ensures IsPrefix(Template(part, parents), Template(a + [op] + b, parents))
  {
    CompoundTemplate(a, op, b, parents);
    PrefixOfCompound(Template(part, parents), Template(a, parents), op, Template(b, parents));
  }

  lemma TypedOperator(a: seq<string>, op: string, b: seq<string>, parents: set<string>)
    requires IsOperator(op) && a != [] && b != []
    ensures IsPrefix(Template(a + [op], parents), Template(a + [op] + b, parents))
  {
    CompoundTemplate(a, op, b, parents);
    DanglingOperator(a, op, parents);
    OperatorOfCompound(Template(a, parents), op, Template(b, parents));
  }

  lemma OperatorOfCompound(x: string, op: string, y: string)
    ensures IsPrefix(x + " " + op, x + " " + op + " " + y)
  {
    LongerPrefix(x + " " + op, x + " " + op, " " + y);
    assert x + " " + op + (" " + y) == x + " " + op + " " + y;
  }

  lemma PrefixOfCompound(p: string, x: string, op: string, y: string)
    requires IsPrefix(p, x)
    ensures IsPrefix(p, x + " " + op + " " + y)
  {
    LongerPrefix(p, x, " " + op + " " + y);
    assert x + (" " + op + " " + y) == x + " " + op + " " + y;
  }

  lemma DanglingOperator(a: seq<string>, op: string, parents: set<string>)
    requires IsOperator(op) && a != []
    ensures Template(a + [op], parents) == Template(a, parents) + " " + op
  {
    SegmentsSplit(a, op, [], [], parents);
    assert a + [op] + [] == a + [op];
    SegmentsNonEmpty(a, [], parents);
    JoinConcat(Segments(a, [], parents), [op], " ");
    assert Segments(a, [], parents) + [op] + [] == Segments(a, [], parents) + [op];
  }
}
