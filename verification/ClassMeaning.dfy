/** Which words of a command become which placeholder, by the shape of the word. */
module ClassMeaning {
  import Strings
  import opened Classifier

  /** The position of a value: not the command, nor the subcommand of a known parent. */
  predicate IsArgument(idx: nat, first: string, parents: set<string>) {
    idx >= 2 || (idx == 1 && first !in parents)
  }

  /** Made of letters, digits, `_` and `-` only. */
  predicate IsWord(tok: string) {
    tok != "" && forall i | 0 <= i < |tok| :: IsAlpha(tok[i]) || IsDigit(tok[i]) || tok[i] == '_' || tok[i] == '-'
  }

  lemma SchemeHasColon(tok: string)
    ensures HasScheme(tok) ==> ':' in tok
  {
    if HasScheme(tok) {
      var n :| 0 < n <= |tok| - 3 && SchemeEnds(tok, n);
      assert tok[n..n + 3][0] == tok[n] && "://"[0] == ':';
    }
  }

  lemma RepoHasMark(tok: string)
    ensures LooksRepo(tok) ==> ':' in tok || '.' in tok
  {
    SchemeHasColon(tok);
    if Strings.IsPrefix("www.", tok) {
      assert "www."[3] == '.' && tok[..4][3] == tok[3];
    }
    if |tok| >= 4 && tok[|tok| - 4..] == ".git" {
      assert tok[|tok| - 4..][0] == tok[|tok| - 4] && ".git"[0] == '.';
    }
  }

  lemma WordIsNoRepo(tok: string)
    requires IsWord(tok)
    ensures !LooksRepo(tok)
  {
    RepoHasMark(tok);
    assert ':' !in tok && '.' !in tok;
  }

  /** A word that begins with a dash is a flag wherever it stands, numbers included; only `--` is not. */
  lemma DashIsFlag(tok: string, idx: nat, first: string, parents: set<string>)
    requires tok != "" && tok[0] == '-'
    ensures ClassifyToken(tok, idx, first, parents) == if tok == "--" then Plain else Flag
  {
  }

  /** The command, and the subcommand of a known parent, stay as they are. */
  lemma HeadStays(tok: string, idx: nat, first: string, parents: set<string>)
    requires tok == "" || tok[0] != '-'
    ensures !IsArgument(idx, first, parents) ==> ClassifyToken(tok, idx, first, parents) == Plain
    ensures IsArgument(idx, first, parents) ==> ClassifyToken(tok, idx, first, parents) != Plain
  {
    assert tok != "--" by { assert "--"[0] == '-'; }
  }

  /** Digits are a number, however many: a number is never taken for a hash. */
  lemma DigitsAreNumber(tok: string, idx: nat, first: string, parents: set<string>)
    requires IsArgument(idx, first, parents) && AllDigits(tok)
    ensures ClassifyToken(tok, idx, first, parents) == Num
  {
    WordIsNoRepo(tok);
    assert IsDigit(tok[0]) && tok != "--" by { assert "--"[0] == '-'; }
  }

  /** Six to forty hexadecimal digits with a letter among them are a hash; fewer or more are a string. */
  lemma HexIsHash(tok: string, idx: nat, first: string, parents: set<string>, k: nat)
    requires IsArgument(idx, first, parents) && tok != "" && forall i | 0 <= i < |tok| :: IsHex(tok[i])
    requires k < |tok| && !IsDigit(tok[k])
    ensures ClassifyToken(tok, idx, first, parents) == if 6 <= |tok| <= 40 then Hash else Str
  {
    assert IsWord(tok) && IsHex(tok[0]);
    WordIsNoRepo(tok);
    NoNumber(tok, k);
    assert tok != "--" by { assert "--"[0] == '-'; }
    assert '/' !in tok;
  }

  lemma NoNumber(tok: string, k: nat)
    requires tok != "" && tok[0] != '-' && k < |tok| && !IsDigit(tok[k]) && tok[k] != '.'
    ensures !LooksNum(tok)
  {
    forall i | 0 < i < |tok| && tok[i] == '.' ensures !(AllDigits(tok[..i]) && AllDigits(tok[i + 1..])) {
      if k < i {
        assert tok[..i][k] == tok[k];
      } else {
        assert k > i && tok[i + 1..][k - i - 1] == tok[k];
      }
    }
  }

  /** Any other word is a string. */
  lemma WordIsString(tok: string, idx: nat, first: string, parents: set<string>, k: nat)
    requires IsArgument(idx, first, parents) && IsWord(tok) && tok[0] != '-' && k < |tok| && !IsHex(tok[k])
    ensures ClassifyToken(tok, idx, first, parents) == Str
  {
    WordIsNoRepo(tok);
    NoNumber(tok, k);
    assert tok != "--" by { assert "--"[0] == '-'; }
    assert '/' !in tok;
  }

  /** A slash makes a path, unless a colon, an at-sign or the start or end of the word makes it a repository. */
  lemma SlashIsPath(tok: string, idx: nat, first: string, parents: set<string>, k: nat)
    requires IsArgument(idx, first, parents) && k < |tok| && tok[k] == '/' && tok[0] != '-'
    requires ':' !in tok && '@' !in tok && !Strings.IsPrefix("www.", tok) && !Strings.IsSuffix(".git", tok)
    ensures ClassifyToken(tok, idx, first, parents) == Path
  {
    SchemeHasColon(tok);
    assert !LooksRepo(tok);
    NoNumber(tok, k);
    assert tok != "--" by { assert "--"[0] == '-'; }
    assert !IsHex(tok[k]);
  }

  /** An address is a repository, slashes or not. */
  lemma AddressIsRepo(tok: string, idx: nat, first: string, parents: set<string>)
    requires IsArgument(idx, first, parents) && Strings.IsPrefix("https://", tok)
    ensures ClassifyToken(tok, idx, first, parents) == Repo
  {
    var s := "https://";
    assert forall i | 0 <= i < 8 :: tok[i] == s[i] by { assert forall i | 0 <= i < 8 :: tok[..8][i] == tok[i]; }
    assert tok[5..8] == "://";
    assert SchemeEnds(tok, 5);
    assert tok != "--" by { assert "--"[0] == '-'; }
  }

  /** So are a web name, a remote as in `git@host:path`, and a word that ends in `.git`. */
  lemma RemoteIsRepo(tok: string, idx: nat, first: string, parents: set<string>, i: nat, j: nat)
    requires IsArgument(idx, first, parents) && tok != "" && tok[0] != '-'
    requires || Strings.IsPrefix("www.", tok) || Strings.IsSuffix(".git", tok)
             || (i < j < |tok| && tok[i] == '@' && tok[j] == ':' && '\n' !in tok)
    ensures ClassifyToken(tok, idx, first, parents) == Repo
  {
    assert tok != "--" by { assert "--"[0] == '-'; }
    if i < j < |tok| && tok[i] == '@' && tok[j] == ':' && '\n' !in tok {
      AtColon(tok, i, j);
    }
    assert LooksRepo(tok);
  }

  lemma AtColon(tok: string, i: nat, j: nat)
    requires i < j < |tok| && tok[i] == '@' && tok[j] == ':' && '\n' !in tok
    ensures LooksRepo(tok)
  {
    assert forall c | c in tok[i + 1..j] :: c in tok;
    assert tok[i] == '@' && tok[j] == ':' && '\n' !in tok[i + 1..j];
  }

  lemma DigitsAndDotIsNoRepo(tok: string)
    requires tok != "" && IsDigit(tok[0]) && IsDigit(tok[|tok| - 1])
    requires forall k | 0 <= k < |tok| :: IsDigit(tok[k]) || tok[k] == '.'
    ensures !LooksRepo(tok)
  {
    SchemeHasColon(tok);
    assert ':' !in tok && "www."[0] == 'w' && ".git"[3] == 't';
    assert |tok| >= 4 ==> tok[..4][0] == tok[0] && tok[|tok| - 4..][3] == tok[|tok| - 1];
  }

  /** Digits around a single dot are a number. */
  lemma DecimalIsNumber(whole: string, part: string, idx: nat, first: string, parents: set<string>)
    requires IsArgument(idx, first, parents) && AllDigits(whole) && AllDigits(part)
    ensures ClassifyToken(whole + "." + part, idx, first, parents) == Num
  {
    var tok, n := whole + "." + part, |whole|;
    assert tok[n] == '.' && tok[..n] == whole && tok[n + 1..] == part && IsDigit(tok[0]);
    DigitsAndDotIsNoRepo(tok);
    assert LooksNum(tok);
    assert tok != "--" by { assert "--"[0] == '-'; }
  }

  /** A leading dot or tilde makes a path. */
  lemma DotIsPath(tok: string, idx: nat, first: string, parents: set<string>)
    requires IsArgument(idx, first, parents) && tok != "" && (tok[0] == '.' || tok[0] == '~') && !LooksRepo(tok)
    ensures ClassifyToken(tok, idx, first, parents) == Path
  {
    assert tok != "--" by { assert "--"[0] == '-'; }
    DotNoNumber(tok);
    assert !IsHex(tok[0]);
  }

  lemma DotNoNumber(tok: string)
    requires tok != "" && tok[0] != '-' && !IsDigit(tok[0])
    ensures !LooksNum(tok)
  {
    forall i | 0 < i < |tok| && tok[i] == '.' ensures !AllDigits(tok[..i]) {
      assert tok[..i][0] == tok[0];
    }
  }

  // What a class shows as

  /** The word that stands for a token of the template. */
  function Name(tok: string, c: Class): string {
    match c
    case Plain => tok
    case Flag => "FLAG"
    case Path => "PATH"
    case Repo => "REPO"
    case Hash => "HASH"
    case Num => "NUM"
    case Str => "STR"
  }

  /** Before any `--`, the last word of a template names the class of the last token, after what came before. */
  lemma LastWord(tokens: seq<string>, parents: set<string>)
    requires |tokens| > 1 && !InKwargs(tokens)
    ensures var n := |tokens| - 1;
            var r, front := Classified(tokens, parents), Classified(tokens[..n], parents);
            r[|r| - 1] == Name(tokens[n], ClassifyToken(tokens[n], n, tokens[0], parents))
            && (r == front || r == front + [r[|r| - 1]])
  {
    var n := |tokens| - 1;
    PrefixClasses(tokens, parents);
    assert tokens[n] != "--" && !InKwargs(tokens[..n]) by {
      assert forall j | 0 < j < n :: tokens[..n][j] == tokens[j];
    }
  }

  /** The first `--` shows as KWARGS, and what follows it does not show. */
  lemma RestHides(tokens: seq<string>, parents: set<string>)
    requires |tokens| > 1
    ensures var n := |tokens| - 1;
            var r, front := Classified(tokens, parents), Classified(tokens[..n], parents);
            && (InKwargs(tokens[..n]) ==> r == front)
            && (!InKwargs(tokens[..n]) && tokens[n] == "--" ==> r == front + ["KWARGS"])
  {
    PrefixClasses(tokens, parents);
  }
}
