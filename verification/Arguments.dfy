/**
 The argument tokens of recent commands: ExtractArgTokens (core/normalize/classify.go) and collectArgTokens
 (daemon/rawstore.go).
 */
module Arguments {
  import opened NestedMaps
  import Tokenizer
  import Unwrapping
  import opened Classifier

  const LOOKBACK: nat := 5
  const SHORTEST: nat := 3

  /** A value rather than a flag or a fixed word. */
  predicate IsValue(c: Class) {
    c == Str || c == Path || c == Hash || c == Num || c == Repo
  }

  function Values(tokens: seq<string>, k: nat, parents: set<string>): seq<string>
    requires k <= |tokens|
  {
    if k == 0 then []
    else
      Values(tokens, k - 1, parents)
      + if IsValue(ClassifyToken(tokens[k - 1], k - 1, tokens[0], parents)) then [tokens[k - 1]] else []
  }

  /** The values among the words of the unwrapped command. */
  function Args(raw: string, parents: set<string>): seq<string> {
    var tokens := Unwrapping.Unwrap(Tokenizer.Tokens(raw));
    Values(tokens, |tokens|, parents)
  }

  method ExtractArgTokens(raw: string, parents: seq<string>) returns (args: seq<string>)
    ensures args == Args(raw, (set p | p in parents))
  {
    var tokens := Tokenizer.Tokenize(raw);
    tokens := Unwrapping.UnwrapPrefixTokens(tokens);
    args := [];
    if |tokens| == 0 {
      return;
    }
    var parentSet := set p | p in parents;
    for i := 0 to |tokens|
      invariant args == Values(tokens, i, parentSet)
    {
      if IsValue(ClassifyToken(tokens[i], i, tokens[0], parentSet)) {
        args := args + [tokens[i]];
      }
    }
  }

  /** Appends the arguments that are long enough and not there yet. */
  function AddNew(tokens: seq<string>, args: seq<string>): seq<string> {
    if args == [] then tokens
    else
      var n := |args| - 1;
      var rest := AddNew(tokens, args[..n]);
      if |args[n]| < SHORTEST || args[n] in rest then rest else rest + [args[n]]
  }

  function Collected(raws: seq<string>, parents: set<string>): seq<string> {
    if raws == [] then []
    else AddNew(Collected(raws[..|raws| - 1], parents), Args(raws[|raws| - 1], parents))
  }

  function Recent(raws: seq<string>): seq<string> {
    if |raws| > LOOKBACK then raws[|raws| - LOOKBACK..] else raws
  }

  function ArgTokens(raws: seq<string>, parents: set<string>): seq<string> {
    Collected(Recent(raws), parents)
  }

  method CollectArgTokens(raws: seq<string>, parents: seq<string>) returns (tokens: seq<string>)
    ensures tokens == ArgTokens(raws, (set p | p in parents))
  {
    tokens := [];
    var recent := if |raws| > LOOKBACK then raws[|raws| - LOOKBACK..] else raws;
    ghost var ps := set p | p in parents;
    for i := 0 to |recent|
      invariant tokens == Collected(recent[..i], ps)
    {
      assert recent[..i + 1][..i] == recent[..i];
      var args := ExtractArgTokens(recent[i], parents);
      tokens := AppendNew(tokens, args);
    }
    assert recent[..|recent|] == recent;
  }

  method AppendNew(start: seq<string>, args: seq<string>) returns (tokens: seq<string>)
    ensures tokens == AddNew(start, args)
  {
    tokens := start;
    for i := 0 to |args|
      invariant tokens == AddNew(start, args[..i])
    {
      assert args[..i + 1][..i] == args[..i];
      if |args[i]| >= SHORTEST && args[i] !in tokens {
        tokens := tokens + [args[i]];
      }
    }
    assert args[..|args|] == args;
  }

  lemma {:induction false} AddNewMembers(tokens: seq<string>, args: seq<string>)
    requires NoDuplicates(tokens)
    ensures NoDuplicates(AddNew(tokens, args))
    ensures forall x :: x in AddNew(tokens, args) <==> x in tokens || (x in args && |x| >= SHORTEST)
  {
    if args != [] {
      var n := |args| - 1;
      AddNewMembers(tokens, args[..n]);
      assert args == args[..n] + [args[n]];
    }
  }

  function Mentions(x: string, parents: set<string>): string -> bool {
    (raw: string) => x in Args(raw, parents)
  }

  predicate Any(raws: seq<string>, holds: string -> bool) {
    exists i | 0 <= i < |raws| :: holds(raws[i])
  }

  /** One of the commands has x among its values. */
  predicate Mentioned(raws: seq<string>, x: string, parents: set<string>) {
    Any(raws, Mentions(x, parents))
  }

  lemma AnyLast(raws: seq<string>, holds: string -> bool)
    requires raws != []
    ensures Any(raws, holds) <==> Any(raws[..|raws| - 1], holds) || holds(raws[|raws| - 1])
  {
    var n := |raws| - 1;
    if Any(raws[..n], holds) {
      var i :| 0 <= i < n && holds(raws[..n][i]);
      assert holds(raws[i]);
    }
    if Any(raws, holds) {
      var i :| 0 <= i < |raws| && holds(raws[i]);
      assert i < n ==> raws[..n][i] == raws[i];
    }
  }

  lemma AddNewMember(tokens: seq<string>, args: seq<string>, x: string)
    requires NoDuplicates(tokens)
    ensures x in AddNew(tokens, args) <==> x in tokens || (x in args && |x| >= SHORTEST)
    ensures NoDuplicates(AddNew(tokens, args))
  {
    AddNewMembers(tokens, args);
  }

  /** The argument tokens of a list of commands are their values, long enough to be evidence, each once. */
  lemma {:induction false} CollectedMember(raws: seq<string>, parents: set<string>, x: string)
    ensures NoDuplicates(Collected(raws, parents))
    ensures x in Collected(raws, parents) <==> |x| >= SHORTEST && Mentioned(raws, x, parents)
  {
    if raws != [] {
      var n := |raws| - 1;
      CollectedMember(raws[..n], parents, x);
      AddNewMember(Collected(raws[..n], parents), Args(raws[n], parents), x);
      AnyLast(raws, Mentions(x, parents));
    }
  }

  /** Only values of the last five commands count, and every one that is long enough does, once. */
  lemma ArgTokensExactly(raws: seq<string>, parents: set<string>, x: string)
    ensures NoDuplicates(ArgTokens(raws, parents)) && |Recent(raws)| <= LOOKBACK
    ensures x in ArgTokens(raws, parents) <==> |x| >= SHORTEST && Mentioned(Recent(raws), x, parents)
  {
    CollectedMember(Recent(raws), parents, x);
  }

  /** Of the last five commands, the words of three bytes or more that are values. */
  lemma ArgTokensMeaning(raws: seq<string>, parents: set<string>, x: string)
    ensures x in ArgTokens(raws, parents) <==>
            |x| >= 3 && exists i | 0 <= i < |raws| :: i >= |raws| - 5 && x in Args(raws[i], parents)
  {
    ArgTokensExactly(raws, parents, x);
    var recent := Recent(raws);
    var skipped := |raws| - |recent|;
    assert forall i | 0 <= i < |recent| :: recent[i] == raws[skipped + i];
    if Mentioned(recent, x, parents) {
      var i :| 0 <= i < |recent| && Mentions(x, parents)(recent[i]);
      assert x in Args(raws[skipped + i], parents);
    }
    if i :| 0 <= i < |raws| && i >= |raws| - 5 && x in Args(raws[i], parents) {
      assert Mentions(x, parents)(recent[i - skipped]);
    }
  }

  lemma {:induction false} ValuesMeaning(tokens: seq<string>, k: nat, parents: set<string>, x: string)
    requires k <= |tokens|
    ensures x in Values(tokens, k, parents) <==>
            exists i | 0 <= i < k :: tokens[i] == x && ClassifyToken(x, i, tokens[0], parents) !in {Plain, Flag}
  {
    if k > 0 {
      ValuesMeaning(tokens, k - 1, parents, x);
    }
  }

  /** The values of a command are the words behind its wrappers that show as placeholders, flags aside. */
  lemma ArgsMeaning(raw: string, parents: set<string>, x: string)
    ensures var tokens := Unwrapping.Unwrap(Tokenizer.Tokens(raw));
            x in Args(raw, parents) <==>
            exists i | 0 <= i < |tokens| :: tokens[i] == x && ClassifyToken(x, i, tokens[0], parents) !in {Plain, Flag}
  {
    var tokens := Unwrapping.Unwrap(Tokenizer.Tokens(raw));
    ValuesMeaning(tokens, |tokens|, parents, x);
  }
}
