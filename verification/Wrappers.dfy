/**
 The flags and arguments of the wrappers themselves (core/normalize/unwrap.go), by name: which of them take the next
 word along, and that none of them shows in the template of the wrapped command.
 */
module Wrappers {
  import opened NestedMaps
  import opened Tokenizer
  import opened Unwrapping
  import opened Normalizer

  /** Flags by name that take the next word as their value. */
  predicate NamesValueFlag(w: string, f: string) {
    || (w == "sudo" && f in ["-u", "--user", "-g", "--prompt", "-h", "-C", "--chdir"])
    || (w == "doas" && f in ["-u", "-C"])
    || (w == "systemd-run" && f in ["-p", "--unit", "--setenv"])
    || (w == "watch" && f in ["-n", "--interval"])
    || (w == "nice" && f == "-n")
    || (w == "ionice" && f in ["-c", "-n"])
    || (w == "taskset" && f in ["-c", "--cpu-list"])
    || (w == "numactl" && f in ["-C", "--membind"])
    || (w == "prlimit" && f == "-n")
    || (w == "unshare" && f in ["-R", "--root", "--propagation"])
    || (w == "time" && f in ["-f", "--output"])
  }

  /** Flags by name that stand alone. */
  predicate NamesLoneFlag(w: string, f: string) {
    || (w == "sudo" && f in ["-E", "-n", "--login"])
    || (w == "doas" && f == "-n")
    || (w == "systemd-run" && f == "--scope")
    || (w == "watch" && f == "-d")
    || (w == "nice" && f == "--adjustment=5")
    || (w == "ionice" && f == "-c2")
    || (w == "taskset" && f == "-pc")
    || (w == "numactl" && f == "--all")
    || (w == "prlimit" && f == "--nofile=9")
    || (w == "unshare" && f == "--net")
    || (w == "stdbuf" && f == "-oL")
    || (w == "time" && f == "-p")
  }

  /** Wrappers by name that know `--` as the end of their flags. */
  predicate KnowsEnd(w: string) {
    w in ["sudo", "doas", "env", "systemd-run", "watch", "nice"] ||
    w in ["ionice", "taskset", "numactl", "prlimit", "unshare", "time"]
  }

  /** Wrappers by name that take assignments along. */
  predicate TakesAssignments(w: string) {
    w in ["sudo", "doas", "env"]
  }

  // What the configurations say of them

  predicate Moves(w: string) {
    IsWrapper(w) && w != "flock" && Config(w).value.positionalSkip == 0
  }

  predicate SkipsFlag(w: string, f: string) {
    Moves(w) && Config(w).value.skipFlags && IsFlag(f) && f != "--"
  }

  predicate SkipsTwo(w: string, f: string) {
    SkipsFlag(w, f) && (f in Config(w).value.valueFlags || (Config(w).value.shortFlagValue && |f| == 2))
  }

  lemma RunnerTakesValue(w: string, f: string)
    requires NamesValueFlag(w, f) && w in ["sudo", "doas", "systemd-run", "watch", "time"]
    ensures SkipsTwo(w, f)
  {
  }

  lemma LimiterTakesValue(w: string, f: string)
    requires NamesValueFlag(w, f) && w in ["nice", "ionice", "taskset", "numactl", "prlimit", "unshare"]
    ensures SkipsTwo(w, f)
  {
  }

  lemma RunnerSkips(w: string, f: string)
    requires NamesLoneFlag(w, f) && w in ["sudo", "doas", "systemd-run", "watch", "time", "stdbuf"]
    ensures SkipsFlag(w, f) && !SkipsTwo(w, f)
  {
  }

  lemma LimiterSkips(w: string, f: string)
    requires NamesLoneFlag(w, f) && w in ["nice", "ionice", "taskset", "numactl", "prlimit", "unshare"]
    ensures SkipsFlag(w, f) && !SkipsTwo(w, f)
  {
  }

  lemma EndIsKnown(w: string)
    requires KnowsEnd(w)
    ensures Moves(w) && Config(w).value.honorDoubleDash
  {
  }

  lemma AssignmentsAreTaken(w: string)
    requires TakesAssignments(w)
    ensures Moves(w) && Config(w).value.skipEnvAssignment && Config(w).value.honorDoubleDash
  {
  }

  lemma SudoFlagIsPlain(w: string, f: string)
    requires NamesValueFlag(w, f) && w in ["sudo", "doas"]
    ensures PlainWord(f)
  {
  }

  lemma RunnerValueFlagIsPlain(w: string, f: string)
    requires NamesValueFlag(w, f) && w in ["systemd-run", "watch", "time"]
    ensures PlainWord(f)
  {
  }

  lemma LimiterValueFlagIsPlain(w: string, f: string)
    requires NamesValueFlag(w, f) && w in ["nice", "ionice", "taskset", "numactl", "prlimit", "unshare"]
    ensures PlainWord(f)
  {
  }

  lemma RunnerFlagIsPlain(w: string, f: string)
    requires NamesLoneFlag(w, f) && w in ["sudo", "doas", "systemd-run", "watch", "time", "stdbuf"]
    ensures PlainWord(f)
  {
  }

  lemma LimiterFlagIsPlain(w: string, f: string)
    requires NamesLoneFlag(w, f) && w in ["nice", "ionice", "taskset", "numactl", "prlimit", "unshare"]
    ensures PlainWord(f)
  {
  }

  lemma NamedValueFlag(w: string, f: string)
    requires NamesValueFlag(w, f)
    ensures SkipsTwo(w, f) && PlainWord(f) && PlainWord(w)
  {
    if w in ["sudo", "doas", "systemd-run", "watch", "time"] {
      RunnerTakesValue(w, f);
      if w in ["sudo", "doas"] {
        SudoFlagIsPlain(w, f);
      } else {
        RunnerValueFlagIsPlain(w, f);
      }
    } else {
      LimiterTakesValue(w, f);
      LimiterValueFlagIsPlain(w, f);
    }
    WrapperNames(w);
  }

  lemma NamedLoneFlag(w: string, f: string)
    requires NamesLoneFlag(w, f)
    ensures SkipsFlag(w, f) && !SkipsTwo(w, f) && PlainWord(f) && PlainWord(w)
  {
    if w in ["sudo", "doas", "systemd-run", "watch", "time", "stdbuf"] {
      RunnerSkips(w, f);
      RunnerFlagIsPlain(w, f);
    } else {
      LimiterSkips(w, f);
      LimiterFlagIsPlain(w, f);
    }
    WrapperNames(w);
  }

  // What unwrapping does with them

  /** A word that can be the wrapped command. */
  predicate IsCommand(c: string) {
    !IsFlag(c) && !IsEnvAssignment(c)
  }

  lemma WrapStep(tokens: seq<string>, next: nat)
    requires |tokens| > 1 && IsWrapper(tokens[0]) && WrapperIndex(tokens) == next && 1 <= next < |tokens|
    ensures WrapLoop(tokens) == WrapLoop(tokens[next..])
  {
  }

  lemma NothingStripped(tokens: seq<string>)
    requires tokens != [] && !IsStripped(tokens[0])
    ensures StripAssignments(tokens) == tokens
  {
  }

  lemma InnerIndex(tokens: seq<string>, w: string, cfg: WrapperConfig, n: nat)
    requires |tokens| > 1 && tokens[0] == w && w != "flock" && Config(w).Some? && cfg == Config(w).value
    requires FindInner(tokens, cfg, 1, 0) == n
    ensures WrapperIndex(tokens) == n
  {
  }

  lemma LoopLands(tokens: seq<string>, n: nat)
    requires |tokens| == n + 1 > 1 && IsWrapper(tokens[0]) && WrapperIndex(tokens) == n
    ensures WrapLoop(tokens) == [tokens[n]]
  {
    WrapStep(tokens, n);
    assert tokens[n..] == [tokens[n]];
  }

  lemma UnwrapOnly(tokens: seq<string>, r: seq<string>)
    requires StripAssignments(tokens) == tokens && WrapLoop(tokens) == r
    ensures Unwrap(tokens) == r
  {
  }

  lemma Lands(tokens: seq<string>, w: string, cfg: WrapperConfig, n: nat)
    requires |tokens| == n + 1 > 1 && tokens[0] == w && Config(w) == Some(cfg) && w != "flock"
    requires FindInner(tokens, cfg, 1, 0) == n
    ensures Unwrap(tokens) == [tokens[n]]
  {
    WrapperNames(w);
    NothingStripped(tokens);
    InnerIndex(tokens, w, cfg, n);
    LoopLands(tokens, n);
    UnwrapOnly(tokens, [tokens[n]]);
  }

  lemma ValueSkipped(w: string, f: string, v: string, c: string)
    requires SkipsTwo(w, f) && IsCommand(c)
    ensures Unwrap([w, f, v] + [c]) == [c]
  {
    var tokens, cfg := [w, f, v] + [c], Config(w).value;
    assert tokens[1] == f && tokens[3] == c && FindInner(tokens, cfg, 3, 0) == 3;
    assert FindInner(tokens, cfg, 1, 0) == 3;
    Lands(tokens, w, cfg, 3);
  }

  lemma FlagSkipped(w: string, f: string, c: string)
    requires SkipsFlag(w, f) && !SkipsTwo(w, f) && IsCommand(c)
    ensures Unwrap([w, f] + [c]) == [c]
  {
    var tokens, cfg := [w, f] + [c], Config(w).value;
    assert tokens[1] == f && tokens[2] == c && FindInner(tokens, cfg, 2, 0) == 2;
    assert FindInner(tokens, cfg, 1, 0) == 2;
    Lands(tokens, w, cfg, 2);
  }

  lemma EndSkipped(w: string, c: string)
    requires Moves(w) && Config(w).value.honorDoubleDash
    ensures Unwrap([w, "--"] + [c]) == [c]
  {
    var tokens, cfg := [w, "--"] + [c], Config(w).value;
    assert tokens[1] == "--" && FindInner(tokens, cfg, 1, 0) == 2;
    Lands(tokens, w, cfg, 2);
  }

  lemma AssignmentSkipped(w: string, a: string, c: string)
    requires Moves(w) && Config(w).value.skipEnvAssignment && IsStripped(a) && IsCommand(c)
    ensures Unwrap([w, a] + [c]) == [c]
  {
    var tokens, cfg := [w, a] + [c], Config(w).value;
    assert !IsFlag(a) && a != "--" by { assert IsFlag("--"); }
    assert tokens[1] == a && tokens[2] == c && FindInner(tokens, cfg, 2, 0) == 2;
    assert FindInner(tokens, cfg, 1, 0) == 2;
    Lands(tokens, w, cfg, 2);
  }

  // The templates of raw commands

  function Spaced(words: seq<string>, c: string): string {
    if words == [] then c else words[0] + " " + Spaced(words[1..], c)
  }

  predicate PlainWords(words: seq<string>) {
    forall i | 0 <= i < |words| :: PlainWord(words[i])
  }

  lemma {:induction false} SpacedTokens(words: seq<string>, c: string)
    requires PlainWords(words)
    ensures Tokens(Spaced(words, c)) == words + Tokens(c)
  {
    if words != [] {
      WordTokens(words[0], Spaced(words[1..], c));
      SpacedTokens(words[1..], c);
      assert [words[0]] + (words[1..] + Tokens(c)) == words + Tokens(c);
    }
  }

  lemma BehindWords(words: seq<string>, c: string, parents: set<string>)
    requires PlainWords(words) && StartsPlainly(c) && Unwrap(words + [Tokens(c)[0]]) == [Tokens(c)[0]]
    ensures Normalized(Spaced(words, c), parents) == Normalized(c, parents)
  {
    SpacedTokens(words, c);
    forall i | 0 <= i < |words| ensures !IsOperator(words[i]) {
      NoOperatorIsPlain(words[i]);
    }
    HeadsGone(words, Tokens(c), parents);
  }

  lemma NoOperatorIsPlain(w: string)
    requires PlainWord(w)
    ensures !IsOperator(w)
  {
    assert PlainChar(w[0]);
  }

  lemma SpacedTwo(a: string, b: string, c: string)
    ensures Spaced([a, b], c) == a + " " + b + " " + c
  {
    assert [a, b][1..] == [b] && [b][1..] == [];
    assert Spaced([b], c) == b + " " + c && Spaced([a, b], c) == a + " " + Spaced([b], c);
    assert a + " " + (b + " " + c) == a + " " + b + " " + c;
  }

  lemma SpacedThree(a: string, b: string, v: string, c: string)
    ensures Spaced([a, b, v], c) == a + " " + b + " " + v + " " + c
  {
    assert [a, b, v][1..] == [b, v];
    SpacedTwo(b, v, c);
    assert Spaced([a, b, v], c) == a + " " + Spaced([b, v], c);
    assert a + " " + (b + " " + v + " " + c) == a + " " + b + " " + v + " " + c;
  }

  /** `sudo -u root make` is `make`: such a flag goes with its value, whatever the value is. */
  lemma ValueFlagVanishes(w: string, f: string, v: string, c: string, parents: set<string>)
    requires NamesValueFlag(w, f) && PlainWord(v) && StartsPlainly(c)
    ensures Normalized(w + " " + f + " " + v + " " + c, parents) == Normalized(c, parents)
  {
    NamedValueFlag(w, f);
    ValueSkipped(w, f, v, Tokens(c)[0]);
    SpacedThree(w, f, v, c);
    BehindWords([w, f, v], c, parents);
  }

  /** `sudo -E make` is `make`. */
  lemma LoneFlagVanishes(w: string, f: string, c: string, parents: set<string>)
    requires NamesLoneFlag(w, f) && StartsPlainly(c)
    ensures Normalized(w + " " + f + " " + c, parents) == Normalized(c, parents)
  {
    NamedLoneFlag(w, f);
    FlagSkipped(w, f, Tokens(c)[0]);
    SpacedTwo(w, f, c);
    BehindWords([w, f], c, parents);
  }

  /** `nice -- make` is `make`. */
  lemma EndVanishes(w: string, c: string, parents: set<string>)
    requires KnowsEnd(w) && StartsPlainly(c)
    ensures Normalized(w + " " + "--" + " " + c, parents) == Normalized(c, parents)
  {
    EndIsKnown(w);
    WrapperNames(w);
    EndSkipped(w, Tokens(c)[0]);
    SpacedTwo(w, "--", c);
    assert PlainWord("--") && PlainWords([w, "--"]);
    BehindWords([w, "--"], c, parents);
  }

  /** `env FOO=1 make` is `make`. */
  lemma AssignmentVanishes(w: string, a: string, c: string, parents: set<string>)
    requires TakesAssignments(w) && PlainWord(a) && IsEnvAssignment(a) && !IsFlag(a) && StartsPlainly(c)
    ensures Normalized(w + " " + a + " " + c, parents) == Normalized(c, parents)
  {
    AssignmentsAreTaken(w);
    WrapperNames(w);
    AssignmentSkipped(w, a, Tokens(c)[0]);
    SpacedTwo(w, a, c);
    BehindWords([w, a], c, parents);
  }

  lemma ChrootLands(d: string, c: string)
    requires IsCommand(d) && IsCommand(c)
    ensures Unwrap(["chroot", d] + [c]) == [c]
  {
    var tokens, cfg := ["chroot", d] + [c], Config("chroot").value;
    assert !IsFlag(d) && d != "--" by { assert IsFlag("--"); }
    assert !IsFlag(c) && c != "--" by { assert IsFlag("--"); }
    assert tokens[1] == d && tokens[2] == c && FindInner(tokens, cfg, 2, 1) == 2;
    assert FindInner(tokens, cfg, 1, 0) == 2;
    Lands(tokens, "chroot", cfg, 2);
  }

  lemma FlockLands(d: string, c: string)
    requires IsCommand(d) && IsCommand(c)
    ensures Unwrap(["flock", d] + [c]) == [c]
  {
    var tokens := ["flock", d] + [c];
    assert !IsFlag(d) && !IsFlag(c) && IsFlag("-c") && IsFlag("--command");
    assert tokens[1] == d && tokens[2] == c && FindFlock(tokens, 2, true) == 2;
    assert FindFlock(tokens, 1, false) == 2;
    WrapperNames("flock");
    NothingStripped(tokens);
    LoopLands(tokens, 2);
    UnwrapOnly(tokens, [c]);
  }

  lemma FlockCommandLands(d: string, f: string, c: string)
    requires (IsCommand(d) || d == "-") && (f == "-c" || f == "--command")
    ensures Unwrap(["flock", d, f] + [c]) == [c]
  {
    var tokens := ["flock", d, f] + [c];
    assert IsFlag("-c") && IsFlag("--command") && d != "-c" && d != "--command";
    assert tokens[1] == d && tokens[2] == f && tokens[3] == c && FindFlock(tokens, 2, true) == 3;
    assert FindFlock(tokens, 1, false) == 3;
    WrapperNames("flock");
    NothingStripped(tokens);
    LoopLands(tokens, 3);
    UnwrapOnly(tokens, [c]);
  }

  /** `flock - -c make` is `make`: standard input may be the lock file, and the command may be named. */
  lemma FlockCommandVanishes(d: string, f: string, c: string, parents: set<string>)
    requires (d == "-" || (PlainWord(d) && IsCommand(d))) && (f == "-c" || f == "--command") && StartsPlainly(c)
    ensures Normalized("flock" + " " + d + " " + f + " " + c, parents) == Normalized(c, parents)
  {
    WrapperNames("flock");
    FlockCommandLands(d, f, Tokens(c)[0]);
    assert PlainWord("-") && PlainWord("-c") && PlainWord("--command");
    SpacedThree("flock", d, f, c);
    BehindWords(["flock", d, f], c, parents);
  }

  /** `chroot /mnt make` and `flock /tmp/lock make` are `make`: these two take exactly one word for themselves. */
  lemma OneWordVanishes(w: string, d: string, c: string, parents: set<string>)
    requires (w == "chroot" || w == "flock") && PlainWord(d) && IsCommand(d) && StartsPlainly(c)
    ensures Normalized(w + " " + d + " " + c, parents) == Normalized(c, parents)
  {
    WrapperNames(w);
    ChrootLands(d, Tokens(c)[0]);
    FlockLands(d, Tokens(c)[0]);
    SpacedTwo(w, d, c);
    BehindWords([w, d], c, parents);
  }

  /** `FOO=1 make` is `make`. */
  lemma LeadingAssignmentVanishes(a: string, c: string, parents: set<string>)
    requires PlainWord(a) && IsEnvAssignment(a) && !IsFlag(a) && StartsPlainly(c)
    ensures Normalized(a + " " + c, parents) == Normalized(c, parents)
  {
    var word := Tokens(c)[0];
    StripOne(a, [word]);
    NothingStripped([word]);
    assert Unwrap([a] + [word]) == WrapLoop([word]) == [word];
    assert Spaced([a], c) == a + " " + c by { assert [a][1..] == []; }
    BehindWords([a], c, parents);
  }
}
