/** core/normalize/unwrap.go: stripping leading wrapper commands. */
module Unwrapping {
  import opened NestedMaps
  import opened Strings
  import Tokenizer

  /** How a wrapper's own arguments are parsed to locate the wrapped command. */
  datatype WrapperConfig = WrapperConfig(
    skipFlags: bool,
    shortFlagValue: bool,
    valueFlags: set<string>,
    skipEnvAssignment: bool,
    honorDoubleDash: bool,
    positionalSkip: nat)

  const NO_FLAGS: WrapperConfig := WrapperConfig(false, false, {}, false, false, 0)

  const SUDO_FLAGS: set<string> := {
    "-u", "--user", "-g", "--group", "-p", "--prompt", "-h", "--host",
    "-r", "--role", "-t", "--type", "-C", "--close-from", "-D", "--chdir"
  }
  const DOAS_FLAGS: set<string> := {"-u", "--user", "-g", "--group", "-p", "--prompt", "-C", "--chdir"}
  const CHROOT_FLAGS: set<string> := {"--userspec", "--groups", "-u", "-g"}
  const SYSTEMD_FLAGS: set<string> := {
    "-p", "--property", "-P", "--pipe", "--working-directory", "-d", "--same-dir",
    "--unit", "-u", "--uid", "-g", "--gid", "--description", "-n", "-E", "--setenv",
    "-t", "--pty", "--slice", "-r", "--remain-after-exit",
    "--send-sighup", "--service-type", "-q", "--quiet"
  }
  const WATCH_FLAGS: set<string> := {
    "-n", "--interval", "-p", "--precise", "-e", "--exec", "-t", "--no-title", "-b", "--beep", "-x",
    "-g", "--chgexit", "--color", "-E", "--errexit"
  }
  const TASKSET_FLAGS: set<string> := {"--cpu-list"}
  const NUMACTL_FLAGS: set<string> := {
    "--membind", "--cpunodebind", "--physcpubind", "--interleave", "--preferred", "--localalloc", "--show", "--hardware"
  }
  const UNSHARE_FLAGS: set<string> := {
    "-R", "--root", "-S", "--setuid", "--setgroups", "--map-user", "--map-group", "--mount-proc",
    "-C", "--cgroup", "--propagation", "--pid", "--time"
  }
  const TIME_FLAGS: set<string> := {"-f", "--format", "-o", "--output", "-a", "--append"}

  function Config(tok: string): Option<WrapperConfig> {
    if tok == "sudo" then Some(WrapperConfig(true, false, SUDO_FLAGS, true, true, 0))
    else if tok == "doas" then Some(WrapperConfig(true, false, DOAS_FLAGS, true, true, 0))
    else if tok == "env" then Some(WrapperConfig(false, false, {}, true, true, 0))
    else if tok == "chroot" then Some(WrapperConfig(true, false, CHROOT_FLAGS, false, true, 1))
    else if tok == "systemd-run" then Some(WrapperConfig(true, false, SYSTEMD_FLAGS, false, true, 0))
    else if tok == "watch" then Some(WrapperConfig(true, false, WATCH_FLAGS, false, true, 0))
    else if tok == "nice" then Some(WrapperConfig(true, true, {}, false, true, 0))
    else if tok == "ionice" then Some(WrapperConfig(true, true, {}, false, true, 0))
    else if tok == "taskset" then Some(WrapperConfig(true, true, TASKSET_FLAGS, false, true, 0))
    else if tok == "numactl" then Some(WrapperConfig(true, true, NUMACTL_FLAGS, false, true, 0))
    else if tok == "prlimit" then Some(WrapperConfig(true, true, {}, false, true, 0))
    else if tok == "unshare" then Some(WrapperConfig(true, true, UNSHARE_FLAGS, false, true, 0))
    else if tok == "stdbuf" then Some(WrapperConfig(true, false, {}, false, false, 0))
    else if tok == "time" then Some(WrapperConfig(true, false, TIME_FLAGS, false, true, 0))
    else if tok == "exec" || tok == "fakeroot" || tok == "nohup" || tok == "pkexec" || tok == "setsid" ||
        tok == "flock" then
      Some(NO_FLAGS)
    else None
  }

  predicate IsWrapper(tok: string) { Config(tok).Some? }

  predicate IsFlag(tok: string) { |tok| >= 1 && tok[0] == '-' }

  /** flock uses `-` as a stdin lock file. */
  predicate IsFlockFlag(tok: string) { IsFlag(tok) && tok != "-" }

  predicate IsEnvAssignment(tok: string) {
    exists i | 0 < i < |tok| :: tok[i] == '='
  }

  // Locating the wrapped command

  function FindInner(tokens: seq<string>, cfg: WrapperConfig, i: nat, skipped: nat): (r: int)
    requires 1 <= i
    ensures r == -1 || i <= r < |tokens|
    decreases |tokens| - i
  {
    if i >= |tokens| then -1
    else
      var tok := tokens[i];
      if cfg.honorDoubleDash && tok == "--" then if i + 1 < |tokens| then i + 1 else -1
      else if cfg.skipFlags && IsFlag(tok) then
        if tok in cfg.valueFlags || (cfg.shortFlagValue && |tok| == 2) then FindInner(tokens, cfg, i + 2, skipped)
        else FindInner(tokens, cfg, i + 1, skipped)
      else if cfg.skipEnvAssignment && IsEnvAssignment(tok) then FindInner(tokens, cfg, i + 1, skipped)
      else if skipped < cfg.positionalSkip then FindInner(tokens, cfg, i + 1, skipped + 1)
      else i
  }

  method FindInnerCommand(tokens: seq<string>, cfg: WrapperConfig) returns (index: int)
    ensures index == FindInner(tokens, cfg, 1, 0)
  {
    var skipped := 0;
    var i := 1;
    while i < |tokens|
      invariant 1 <= i
      invariant FindInner(tokens, cfg, i, skipped) == FindInner(tokens, cfg, 1, 0)
    {
      var tok := tokens[i];
      if cfg.honorDoubleDash && tok == "--" {
        return if i + 1 < |tokens| then i + 1 else -1;
      }
      if cfg.skipFlags && IsFlag(tok) {
        if tok in cfg.valueFlags || (cfg.shortFlagValue && |tok| == 2) {
          i := i + 1;
        }
      } else if cfg.skipEnvAssignment && IsEnvAssignment(tok) {
      } else if skipped < cfg.positionalSkip {
        skipped := skipped + 1;
      } else {
        return i;
      }
      i := i + 1;
    }
    return -1;
  }

  function FindFlock(tokens: seq<string>, i: nat, sawNonFlag: bool): (r: int)
    requires 1 <= i
    ensures r == -1 || i <= r < |tokens|
    decreases |tokens| - i
  {
    if i >= |tokens| then -1
    else if tokens[i] == "-c" || tokens[i] == "--command" then if i + 1 < |tokens| then i + 1 else -1
    else if IsFlockFlag(tokens[i]) then FindFlock(tokens, i + 1, sawNonFlag)
    else if !sawNonFlag then FindFlock(tokens, i + 1, true)
    else i
  }

  method FlockCommandIndex(tokens: seq<string>) returns (index: int)
    ensures index == FindFlock(tokens, 1, false)
  {
    var sawNonFlag := false;
    var i := 1;
    while i < |tokens|
      invariant 1 <= i
      invariant FindFlock(tokens, i, sawNonFlag) == FindFlock(tokens, 1, false)
    {
      var tok := tokens[i];
      if tok == "-c" || tok == "--command" {
        return if i + 1 < |tokens| then i + 1 else -1;
      }
      if !IsFlockFlag(tok) {
        if sawNonFlag {
          return i;
        }
        sawNonFlag := true;
      }
      i := i + 1;
    }
    return -1;
  }

  function WrapperIndex(tokens: seq<string>): int
    requires |tokens| >= 1
  {
    if |tokens| < 2 then -1
    else if tokens[0] == "flock" then FindFlock(tokens, 1, false)
    else match Config(tokens[0])
      case Some(cfg) => FindInner(tokens, cfg, 1, 0)
      case None => -1
  }

  method WrapperCommandIndex(tokens: seq<string>) returns (index: int)
    requires |tokens| >= 1
    ensures index == WrapperIndex(tokens)
  {
    if |tokens| < 2 {
      return -1;
    }
    if tokens[0] == "flock" {
      index := FlockCommandIndex(tokens);
    } else {
      var cfg := Config(tokens[0]);
      if cfg.None? {
        return -1;
      }
      index := FindInnerCommand(tokens, cfg.value);
    }
  }

  // Unwrapping

  function StripAssignments(tokens: seq<string>): seq<string> {
    if |tokens| > 1 && !IsFlag(tokens[0]) && IsEnvAssignment(tokens[0]) then StripAssignments(tokens[1..]) else tokens
  }

  function WrapLoop(tokens: seq<string>): seq<string>
    decreases |tokens|
  {
    if |tokens| > 1 && IsWrapper(tokens[0]) then
      var next := WrapperIndex(tokens);
      if next < 1 || next >= |tokens| then tokens else WrapLoop(tokens[next..])
    else tokens
  }

  function Unwrap(tokens: seq<string>): seq<string> {
    WrapLoop(StripAssignments(tokens))
  }

  method UnwrapPrefixTokens(raw: seq<string>) returns (tokens: seq<string>)
    ensures tokens == Unwrap(raw)
  {
    tokens := raw;
    while |tokens| > 1 && !IsFlag(tokens[0]) && IsEnvAssignment(tokens[0])
      invariant StripAssignments(tokens) == StripAssignments(raw)
      decreases |tokens|
    {
      tokens := tokens[1..];
    }
    while |tokens| > 1 && IsWrapper(tokens[0])
      invariant WrapLoop(tokens) == Unwrap(raw)
      decreases |tokens|
    {
      var next := WrapperCommandIndex(tokens);
      if next < 1 || next >= |tokens| {
        return;
      }
      tokens := tokens[next..];
    }
  }

  lemma SuffixTransitive<T>(a: seq<T>, b: seq<T>, c: seq<T>)
    requires IsSuffix(a, b) && IsSuffix(b, c)
    ensures IsSuffix(a, c)
  {
  }

  lemma {:induction false} StripIsSuffix(tokens: seq<string>)
    ensures IsSuffix(StripAssignments(tokens), tokens)
    ensures tokens != [] ==> StripAssignments(tokens) != []
  {
    if |tokens| > 1 && !IsFlag(tokens[0]) && IsEnvAssignment(tokens[0]) {
      StripIsSuffix(tokens[1..]);
      SuffixTransitive(StripAssignments(tokens), tokens[1..], tokens);
    }
  }

  lemma {:induction false} WrapIsSuffix(tokens: seq<string>)
    ensures IsSuffix(WrapLoop(tokens), tokens)
    ensures tokens != [] ==> WrapLoop(tokens) != []
    ensures WrapLoop(WrapLoop(tokens)) == WrapLoop(tokens)
    decreases |tokens|
  {
    if |tokens| > 1 && IsWrapper(tokens[0]) {
      var next := WrapperIndex(tokens);
      if 1 <= next < |tokens| {
        WrapIsSuffix(tokens[next..]);
        SuffixTransitive(WrapLoop(tokens), tokens[next..], tokens);
      }
    }
  }

  /** Unwrapping ends on a non-empty suffix of a non-empty command, which the wrapper loop leaves alone. */
  lemma UnwrapIsFixedSuffix(tokens: seq<string>)
    ensures IsSuffix(Unwrap(tokens), tokens)
    ensures tokens != [] ==> Unwrap(tokens) != []
    ensures WrapLoop(Unwrap(tokens)) == Unwrap(tokens)
  {
    StripIsSuffix(tokens);
    WrapIsSuffix(StripAssignments(tokens));
    SuffixTransitive(Unwrap(tokens), StripAssignments(tokens), tokens);
  }

  /** A first token that unwrapping keeps in front. */
  predicate Stays(tok: string) {
    !IsWrapper(tok) && (IsFlag(tok) || !IsEnvAssignment(tok))
  }

  lemma StaysUnwrapped(tokens: seq<string>)
    requires tokens != [] && Stays(tokens[0])
    ensures Unwrap(tokens) == tokens
  {
  }

  predicate NameChar(ch: char) { 'a' <= ch <= 'z' || ch == '-' }

  predicate IsName(w: string) {
    w != "" && w[0] != '-' && forall i | 0 <= i < |w| :: NameChar(w[i])
  }

  lemma RunnerIsName(w: string)
    requires w in ["sudo", "doas", "env", "chroot", "systemd-run", "watch", "time", "exec", "flock"]
    ensures IsName(w)
  {
  }

  lemma LimiterIsName(w: string)
    requires w in ["nice", "ionice", "taskset", "numactl", "prlimit", "unshare", "stdbuf", "fakeroot", "nohup",
             "pkexec", "setsid"]
    ensures IsName(w)
  {
  }

  lemma WrapperIsName(w: string)
    requires IsWrapper(w)
    ensures IsName(w)
  {
    if w in ["sudo", "doas", "env", "chroot", "systemd-run", "watch", "time", "exec", "flock"] {
      RunnerIsName(w);
    } else {
      LimiterIsName(w);
    }
  }

  lemma NameIsPlain(w: string)
    requires IsName(w)
    ensures Tokenizer.PlainWord(w) && !IsFlag(w) && !IsEnvAssignment(w) && !Tokenizer.IsOperator(w)
  {
  }

  /** A wrapper is a plain word of no special shape, and only chroot has an argument of its own before the command. */
  lemma WrapperNames(w: string)
    requires IsWrapper(w)
    ensures Tokenizer.PlainWord(w) && !IsFlag(w) && !IsEnvAssignment(w) && !Tokenizer.IsOperator(w)
    ensures w != "chroot" ==> Config(w).value.positionalSkip == 0
  {
    WrapperIsName(w);
    NameIsPlain(w);
  }

  /** A wrapper other than chroot and flock, before a first token of no special shape, disappears. */
  lemma WrapperDisappears(w: string, tokens: seq<string>)
    requires IsWrapper(w) && w != "chroot" && w != "flock"
    requires tokens != [] && !IsFlag(tokens[0]) && !IsEnvAssignment(tokens[0])
    ensures Unwrap([w] + tokens) == Unwrap(tokens)
  {
    WrapperNames(w);
    var all := [w] + tokens;
    assert all[1] == tokens[0] && all[1..] == tokens;
    assert tokens[0] != "--" by { assert !IsFlag(tokens[0]); }
    assert FindInner(all, Config(w).value, 1, 0) == 1;
  }

  /** chroot and flock take the next token for themselves. */
  lemma WrapperKeepsOne(w: string, tok: string)
    requires w == "chroot" || w == "flock"
    ensures Unwrap([w, tok]) == [w, tok]
  {
    WrapperNames(w);
    var all := [w, tok];
    if w == "chroot" {
      assert FindInner(all, Config(w).value, 2, 0) == FindInner(all, Config(w).value, 2, 1) == -1;
      assert FindInner(all, Config(w).value, 1, 0) == -1;
    } else {
      assert FindFlock(all, 2, false) == FindFlock(all, 2, true) == -1;
      assert FindFlock(all, 1, false) == -1;
    }
  }

  // Tokens are unwrapped as they are typed: what was found stays found

  lemma {:induction false} FindInnerStays(tokens: seq<string>, more: seq<string>, cfg: WrapperConfig, i: nat,
                                          skipped: nat)
    requires 1 <= i && FindInner(tokens, cfg, i, skipped) != -1
    ensures FindInner(tokens + more, cfg, i, skipped) == FindInner(tokens, cfg, i, skipped)
    decreases |tokens| - i
  {
    var tok, all := tokens[i], tokens + more;
    assert all[i] == tok;
    if cfg.honorDoubleDash && tok == "--" {
    } else if cfg.skipFlags && IsFlag(tok) {
      FindInnerStays(tokens, more, cfg, if tok in cfg.valueFlags || (cfg.shortFlagValue && |tok| == 2) then i + 2
                                        else i + 1, skipped);
    } else if cfg.skipEnvAssignment && IsEnvAssignment(tok) {
      FindInnerStays(tokens, more, cfg, i + 1, skipped);
    } else if skipped < cfg.positionalSkip {
      FindInnerStays(tokens, more, cfg, i + 1, skipped + 1);
    }
  }

  lemma {:induction false} FindFlockStays(tokens: seq<string>, more: seq<string>, i: nat, sawNonFlag: bool)
    requires 1 <= i && FindFlock(tokens, i, sawNonFlag) != -1
    ensures FindFlock(tokens + more, i, sawNonFlag) == FindFlock(tokens, i, sawNonFlag)
    decreases |tokens| - i
  {
    var tok, all := tokens[i], tokens + more;
    assert all[i] == tok;
    if tok != "-c" && tok != "--command" && (IsFlockFlag(tok) || !sawNonFlag) {
      FindFlockStays(tokens, more, i + 1, sawNonFlag || !IsFlockFlag(tok));
    }
  }

  lemma WrapperIndexStays(tokens: seq<string>, more: seq<string>)
    requires tokens != [] && WrapperIndex(tokens) != -1
    ensures WrapperIndex(tokens + more) == WrapperIndex(tokens)
  {
    assert (tokens + more)[0] == tokens[0];
    if tokens[0] == "flock" {
      FindFlockStays(tokens, more, 1, false);
    } else {
      FindInnerStays(tokens, more, Config(tokens[0]).value, 1, 0);
    }
  }

  lemma {:induction false} WrapLands(tokens: seq<string>, more: seq<string>)
    requires tokens != [] && WrapLoop(tokens) == [tokens[|tokens| - 1]]
    ensures WrapLoop(tokens + more) == WrapLoop([tokens[|tokens| - 1]] + more)
    decreases |tokens|
  {
    if |tokens| > 1 {
      var next := WrapperIndex(tokens);
      assert 1 <= next < |tokens| && IsWrapper(tokens[0]);
      WrapperIndexStays(tokens, more);
      assert (tokens + more)[next..] == tokens[next..] + more;
      WrapLands(tokens[next..], more);
    }
  }

  /** An assignment that unwrapping strips. */
  predicate IsStripped(tok: string) { !IsFlag(tok) && IsEnvAssignment(tok) }

  lemma StripOne(tok: string, more: seq<string>)
    requires more != []
    ensures StripAssignments([tok] + more) == if IsStripped(tok) then StripAssignments(more) else [tok] + more
  {
    assert ([tok] + more)[1..] == more;
  }

  /** If everything in front of a word unwraps away, it still does with more behind the word. */
  lemma {:induction false} UnwrapLands(heads: seq<string>, c: string, more: seq<string>)
    requires Unwrap(heads + [c]) == [c] && !IsStripped(c)
    ensures Unwrap(heads + [c] + more) == WrapLoop([c] + more)
  {
    if heads == [] {
      assert heads + [c] + more == [c] + more;
    } else {
      var rest := heads[1..] + [c];
      assert heads + [c] == [heads[0]] + rest && heads + [c] + more == [heads[0]] + (rest + more);
      StripOne(heads[0], rest);
      StripOne(heads[0], rest + more);
      if IsStripped(heads[0]) {
        UnwrapLands(heads[1..], c, more);
      } else {
        WrapLands(heads + [c], more);
      }
    }
  }

  lemma {:induction false} WrapPart(tokens: seq<string>, k: nat)
    requires 0 < k < |tokens| && |WrapLoop(tokens)| == 1
    ensures WrapLoop(tokens[..k]) != [] && IsWrapper(WrapLoop(tokens[..k])[0])
    decreases |tokens|
  {
    var part, next := tokens[..k], WrapperIndex(tokens[..k]);
    assert IsWrapper(tokens[0]) && part[0] == tokens[0] && part + tokens[k..] == tokens;
    if 1 <= next < k {
      WrapperIndexStays(part, tokens[k..]);
      assert tokens[next..][..k - next] == part[next..];
      WrapPart(tokens[next..], k - next);
    }
  }

  /** Before the word is typed, unwrapping ends on a wrapper, or on an assignment and nothing else. */
  lemma {:induction false} UnwrapPart(tokens: seq<string>, k: nat)
    requires 0 < k < |tokens| && |Unwrap(tokens)| == 1
    ensures var u := Unwrap(tokens[..k]); u != [] && (IsWrapper(u[0]) || (|u| == 1 && IsStripped(u[0])))
  {
    var head, rest := tokens[0], tokens[1..];
    assert tokens == [head] + rest;
    StripOne(head, rest);
    if !IsStripped(head) {
      assert StripAssignments(tokens[..k]) == tokens[..k];
      WrapPart(tokens, k);
    } else if k == 1 {
      assert tokens[..k] == [head];
    } else {
      assert tokens[..k] == [head] + rest[..k - 1];
      StripOne(head, rest[..k - 1]);
      UnwrapPart(rest, k - 1);
    }
  }
}
