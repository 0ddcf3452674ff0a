/** core/normalize/tokenize.go: the quote, escape and operator state machine. */
module Tokenizer {
  import opened NestedMaps

  datatype Scanner = Scanner(tokens: seq<string>, current: string, inSingle: bool, inDouble: bool, escaped: bool) {
    predicate Quoted() { inSingle || inDouble }

    /** Outside quotes and escapes. */
    predicate Open() { !inSingle && !inDouble && !escaped }

    function Append(ch: char): Scanner { this.(current := current + [ch]) }

    function Flush(): Scanner {
      if current != "" then this.(tokens := tokens + [current], current := "") else this
    }

    function Emit(token: string): Scanner { Flush().(tokens := Flush().tokens + [token]) }
  }

  const START: Scanner := Scanner([], "", false, false, false)

  predicate IsSpace(ch: char) { ch == ' ' || ch == '\t' || ch == '\n' || ch == '\r' }

  /** The state after one character, and how many characters were consumed. */
  function Step(s: Scanner, ch: char, next: Option<char>): (r: (Scanner, nat))
    ensures 1 <= r.1 <= 2 && (r.1 == 2 ==> next.Some?)
  {
    if s.escaped then (s.Append(ch).(escaped := false), 1)
    else if ch == '\\' && !s.inSingle then (s.(escaped := true), 1)
    else if ch == '\'' && !s.inDouble then (s.(inSingle := !s.inSingle), 1)
    else if ch == '\"' && !s.inSingle then (s.(inDouble := !s.inDouble), 1)
    else if IsSpace(ch) then (if s.Quoted() then s.Append(ch) else s.Flush(), 1)
    else if ch == '|' && !s.Quoted() then if next == Some('|') then (s.Emit("||"), 2) else (s.Emit("|"), 1)
    else if ch == '&' && !s.Quoted() then if next == Some('&') then (s.Emit("&&"), 2) else (s.Append(ch), 1)
    else if ch == ';' && !s.Quoted() then (s.Emit(";"), 1)
    else (s.Append(ch), 1)
  }

  function Peek(raw: string): Option<char> {
    if |raw| > 1 then Some(raw[1]) else None
  }

  function Scan(raw: string, s: Scanner): Scanner
    decreases |raw|
  {
    if raw == "" then s
    else
      var (s', n) := Step(s, raw[0], Peek(raw));
      Scan(raw[n..], s')
  }

  /** The unquoted tokens of a raw command. */
  function Tokens(raw: string): seq<string> {
    Scan(raw, START).Flush().tokens
  }

  method Tokenize(raw: string) returns (tokens: seq<string>)
    ensures tokens == Tokens(raw)
  {
    tokens := [];
    var current := "";
    var inSingle, inDouble, escaped := false, false, false;
    var i := 0;
    while i < |raw|
      invariant 0 <= i <= |raw|
      invariant Scan(raw[i..], Scanner(tokens, current, inSingle, inDouble, escaped)) == Scan(raw, START)
    {
      var ch := raw[i];
      ghost var s := Scanner(tokens, current, inSingle, inDouble, escaped);
      ghost var rest := raw[i..];
      assert rest[0] == ch && rest[1..] == raw[i + 1..];
      assert i + 1 < |raw| ==> rest[1] == raw[i + 1] && rest[2..] == raw[i + 2..];
      if escaped {
        current := current + [ch];
        escaped := false;
      } else if ch == '\\' && !inSingle {
        escaped := true;
      } else if ch == '\'' && !inDouble {
        inSingle := !inSingle;
      } else if ch == '\"' && !inSingle {
        inDouble := !inDouble;
      } else if IsSpace(ch) {
        if !inSingle && !inDouble {
          if |current| > 0 {
            tokens, current := tokens + [current], "";
          }
        } else {
          current := current + [ch];
        }
      } else if ch == '|' && !inSingle && !inDouble {
        if |current| > 0 {
          tokens, current := tokens + [current], "";
        }
        if i + 1 < |raw| && raw[i + 1] == '|' {
          tokens := tokens + ["||"];
          i := i + 1;
        } else {
          tokens := tokens + ["|"];
        }
      } else if ch == '&' && !inSingle && !inDouble {
        if i + 1 < |raw| && raw[i + 1] == '&' {
          if |current| > 0 {
            tokens, current := tokens + [current], "";
          }
          tokens := tokens + ["&&"];
          i := i + 1;
        } else {
          current := current + [ch];
        }
      } else if ch == ';' && !inSingle && !inDouble {
        if |current| > 0 {
          tokens, current := tokens + [current], "";
        }
        tokens := tokens + [";"];
      } else {
        current := current + [ch];
      }
      i := i + 1;
      assert Step(s, ch, Peek(rest)).0 == Scanner(tokens, current, inSingle, inDouble, escaped);
    }
    if |current| > 0 {
      tokens := tokens + [current];
    }
  }

  // Scanning is compositional

  /** Only an operator character can be read together with the one before it. */
  predicate Starts(b: string) {
    b == "" || (b[0] != '|' && b[0] != '&')
  }

  /** Scanned from s, the text ends in an unquoted | or & that is not the second half of an operator. */
  predicate Dangling(a: string, s: Scanner)
    decreases |a|
  {
    if a == "" then false
    else if |a| == 1 then s.Open() && (a[0] == '|' || a[0] == '&')
    else
      var (s', n) := Step(s, a[0], Peek(a));
      Dangling(a[n..], s')
  }

  /** Between a and b, an operator of two characters is cut in two. */
  predicate CutsOperator(a: string, b: string, s: Scanner) {
    a != "" && b != "" && b[0] == a[|a| - 1] && Dangling(a, s)
  }

  lemma StartsCutsNothing(a: string, b: string, s: Scanner)
    requires Starts(b)
    ensures !CutsOperator(a, b, s)
  {
    if a != "" { DanglingEnd(a, s); }
  }

  lemma {:induction false} DanglingEnd(a: string, s: Scanner)
    requires a != ""
    ensures Dangling(a, s) ==> a[|a| - 1] == '|' || a[|a| - 1] == '&'
    decreases |a|
  {
    var (s', n) := Step(s, a[0], Peek(a));
    if |a| > n { DanglingEnd(a[n..], s'); }
  }

  /** Scanning is compositional unless an operator is cut in two. */
  lemma {:induction false} ScanConcat(a: string, b: string, s: Scanner)
    requires !CutsOperator(a, b, s)
    ensures Scan(a + b, s) == Scan(b, Scan(a, s))
    decreases |a|
  {
    if a == "" {
      assert a + b == b;
    } else {
      var (s', n) := Step(s, a[0], Peek(a));
      assert Step(s, (a + b)[0], Peek(a + b)) == (s', n);
      assert (a + b)[n..] == a[n..] + b;
      var rest := a[n..];
      assert rest != "" ==> rest[|rest| - 1] == a[|a| - 1];
      ScanConcat(rest, b, s');
    }
  }

  lemma {:induction false} ScanExtends(raw: string, s: Scanner)
    ensures s.tokens <= Scan(raw, s).tokens
    decreases |raw|
  {
    if raw != "" {
      var (s', n) := Step(s, raw[0], Peek(raw));
      ScanExtends(raw[n..], s');
    }
  }

  /** A `||` that is cut in two always shows. */
  lemma {:induction false} CutPipeShows(a: string, b: string, s: Scanner)
    requires CutsOperator(a, b, s) && b[0] == '|'
    ensures Scan(a + b, s) != Scan(b, Scan(a, s))
    decreases |a|
  {
    if |a| == 1 {
      assert a == "|" && (a + b)[1..] == b && (a + b)[2..] == b[1..];
      assert Scan(a, s) == s.Emit("|");
      ScanExtends(b[1..], s.Emit("||"));
      ScanExtends(b, s.Emit("|"));
      var at := |s.Flush().tokens|;
      assert Scan(a + b, s).tokens[at] == "||" && Scan(b, Scan(a, s)).tokens[at] == "|";
    } else {
      var (s', n) := Step(s, a[0], Peek(a));
      assert (a + b)[n..] == a[n..] + b;
      var rest := a[n..];
      assert Dangling(rest, s') && rest[|rest| - 1] == a[|a| - 1];
      CutPipeShows(rest, b, s');
    }
  }

  /** Past any empty quotes, the next thing in the text ends the word before it. */
  predicate Closes(b: string, inSingle: bool, inDouble: bool) {
    b != "" &&
    if b[0] == '\'' && !inDouble then Closes(b[1..], !inSingle, inDouble)
    else if b[0] == '\"' && !inSingle then Closes(b[1..], inSingle, !inDouble)
    else
      && !inSingle && !inDouble
      && (IsSpace(b[0]) || b[0] == '|' || b[0] == ';' || (b[0] == '&' && Peek(b) == Some('&')))
  }

  /** With n tokens done, the word under way will be token n, and longer than m. */
  predicate Outgrows(s: Scanner, n: nat, m: nat) {
    && |s.tokens| >= n && (|s.tokens| > n ==> |s.tokens[n]| > m)
    && (|s.tokens| == n ==> |s.current| > m || (|s.current| == m > 0 && s.escaped))
  }

  lemma {:induction false} StillOutgrows(raw: string, s: Scanner, n: nat, m: nat)
    requires Outgrows(s, n, m)
    ensures Outgrows(Scan(raw, s), n, m)
    decreases |raw|
  {
    if raw != "" {
      var (s', k) := Step(s, raw[0], Peek(raw));
      StillOutgrows(raw[k..], s', n, m);
    }
  }

  lemma OutgrownDiffers(raw: string, l: Scanner, r: Scanner, n: nat)
    requires |l.tokens| > n && Outgrows(r, n, |l.tokens[n]|)
    ensures forall other: string :: Scan(other, l) != Scan(raw, r)
  {
    StillOutgrows(raw, r, n, |l.tokens[n]|);
    forall other: string ensures Scan(other, l) != Scan(raw, r) {
      ScanExtends(other, l);
    }
  }

  /** `&&` as a token, and as a word that more could still join, scan alike exactly if the word is closed at once. */
  lemma {:induction false} WordOrOperator(b: string, l: Scanner, r: Scanner)
    requires l == r.(tokens := r.tokens + ["&&"], current := "") && r.current == "&&" && !r.escaped
    ensures Scan(b, l) == Scan(b, r) <==> Closes(b, r.inSingle, r.inDouble)
    decreases |b|
  {
    var n := |r.tokens|;
    if b == "" {
      assert |l.tokens| == n + 1;
    } else if (b[0] == '\'' && !r.inDouble) || (b[0] == '\"' && !r.inSingle) {
      var (l', _) := Step(l, b[0], Peek(b));
      var (r', _) := Step(r, b[0], Peek(b));
      WordOrOperator(b[1..], l', r');
    } else if !Closes(b, r.inSingle, r.inDouble) {
      var (l', k) := Step(l, b[0], Peek(b));
      var (r', _) := Step(r, b[0], Peek(b));
      OutgrownDiffers(b[k..], l', r', n);
    } else {
      assert Step(l, b[0], Peek(b)) == Step(r, b[0], Peek(b));
    }
  }

  /** The word that the last character of the text ends. */
  function WordBefore(a: string, s: Scanner): string
    requires a != ""
  {
    Scan(a[..|a| - 1], s).current
  }

  /** b begins with a single ampersand, behind which the word ends. */
  predicate LoneAmpersand(b: string) {
    b != "" && b[0] == '&' && Peek(b) != Some('&') && Closes(b[1..], false, false)
  }

  lemma PairScan(b: string, s: Scanner)
    requires s.Open() && b != "" && b[0] == '&'
    ensures Scan("&" + b, s) == Scan(b[1..], s.Emit("&&")) && Scan("&", s) == s.Append('&')
  {
    var raw := "&" + b;
    assert raw[1] == '&' && raw[2..] == b[1..] && "&"[1..] == "";
  }

  lemma AmpersandScan(b: string, s: Scanner)
    requires s.Open() && b != "" && b[0] == '&'
    ensures Peek(b) == Some('&') ==> Scan(b, s) == Scan(b[2..], s.Emit("&&"))
    ensures Peek(b) != Some('&') ==> Scan(b, s) == Scan(b[1..], s.Append('&'))
  {
  }

  lemma CutBehindWord(b: string, s: Scanner)
    requires s.Open() && b != "" && b[0] == '&' && (s.current != "" || Peek(b) == Some('&'))
    ensures Scan(b[1..], s.Emit("&&")) != Scan(b, s.Append('&'))
  {
    var l, r, n := s.Emit("&&"), s.Append('&'), |s.tokens|;
    AmpersandScan(b, r);
    if Peek(b) == Some('&') {
      assert r.Emit("&&").tokens[n] == s.current + "&";
      ScanExtends(b[1..], l);
      ScanExtends(b[2..], r.Emit("&&"));
    } else {
      OutgrownDiffers(b[1..], l, r.Append('&'), n);
    }
  }

  lemma CutAmpersand(b: string, s: Scanner)
    requires s.Open() && b != "" && b[0] == '&'
    ensures Scan("&" + b, s) == Scan(b, Scan("&", s)) <==> s.current == "" && LoneAmpersand(b)
  {
    PairScan(b, s);
    if s.current != "" || Peek(b) == Some('&') {
      CutBehindWord(b, s);
    } else {
      AmpersandScan(b, s.Append('&'));
      assert "" + ['&'] + ['&'] == "&&";
      WordOrOperator(b[1..], s.Emit("&&"), s.Append('&').Append('&'));
    }
  }

  lemma WordBeforeStep(a: string, s: Scanner)
    requires a != "" && var (s', n) := Step(s, a[0], Peek(a)); n < |a|
    ensures var (s', n) := Step(s, a[0], Peek(a)); WordBefore(a, s) == WordBefore(a[n..], s')
  {
    var (s', n) := Step(s, a[0], Peek(a));
    var before := a[..|a| - 1];
    assert before[n..] == a[n..][..|a| - n - 1];
    LooksAhead(s, a[0], Peek(a), Peek(before));
  }

  /** What follows matters only when it is consumed too. */
  lemma LooksAhead(s: Scanner, ch: char, next: Option<char>, other: Option<char>)
    requires other == next || (other == None && Step(s, ch, next).1 == 1)
    ensures Step(s, ch, other) == Step(s, ch, next)
  {
  }

  /** A cut `&&` shows, unless the first half is a word of its own and nothing joins the second half to more. */
  lemma {:induction false} CutAmpersandAgrees(a: string, b: string, s: Scanner)
    requires CutsOperator(a, b, s) && b[0] == '&'
    ensures Scan(a + b, s) == Scan(b, Scan(a, s)) <==> WordBefore(a, s) == "" && LoneAmpersand(b)
    decreases |a|
  {
    if |a| == 1 {
      assert a == "&" && a[..0] == "";
      CutAmpersand(b, s);
    } else {
      var (s', n) := Step(s, a[0], Peek(a));
      assert (a + b)[n..] == a[n..] + b;
      assert Dangling(a[n..], s') && a[n..] != "" && a[n..][|a| - n - 1] == a[|a| - 1];
      WordBeforeStep(a, s);
      CutAmpersandAgrees(a[n..], b, s');
    }
  }

  /** As between `&` and `& `: two lone ampersands make the word that the operator would have made. */
  lemma CutAmpersandMayAgree()
    ensures CutsOperator("&", "& ", START)
    ensures Scan("&" + "& ", START) == Scan("& ", Scan("&", START))
  {
    assert "&"[..0] == "" && "& "[1] == ' ' && "& "[1..] == " ";
    CutAmpersandAgrees("&", "& ", START);
  }

  function Before(pre: seq<string>, s: Scanner): Scanner {
    s.(tokens := pre + s.tokens)
  }

  lemma StepBefore(pre: seq<string>, s: Scanner, ch: char, next: Option<char>)
    ensures Step(Before(pre, s), ch, next) == (Before(pre, Step(s, ch, next).0), Step(s, ch, next).1)
  {
    assert pre + (s.tokens + [s.current]) == pre + s.tokens + [s.current];
    forall t: string ensures pre + s.Emit(t).tokens == Before(pre, s).Emit(t).tokens {
      assert pre + (s.Flush().tokens + [t]) == pre + s.Flush().tokens + [t];
    }
  }

  lemma {:induction false} ScanBefore(pre: seq<string>, raw: string, s: Scanner)
    ensures Scan(raw, Before(pre, s)) == Before(pre, Scan(raw, s))
    decreases |raw|
  {
    if raw != "" {
      StepBefore(pre, s, raw[0], Peek(raw));
      var (s', n) := Step(s, raw[0], Peek(raw));
      ScanBefore(pre, raw[n..], s');
    }
  }

  /** Scanning on from a state between tokens appends the tokens of the rest. */
  lemma TokensAfter(pre: seq<string>, raw: string)
    ensures Scan(raw, Before(pre, START)).Flush().tokens == pre + Tokens(raw)
  {
    ScanBefore(pre, raw, START);
    var s := Scan(raw, START);
    assert pre + (s.tokens + [s.current]) == pre + s.tokens + [s.current];
  }

  predicate IsOperator(tok: string) {
    tok == "|" || tok == "||" || tok == "&&" || tok == ";"
  }

  lemma SpaceScan(rest: string, s: Scanner)
    requires s.Open()
    ensures Scan(" " + rest, s) == Scan(rest, s.Flush())
  {
  }

  lemma OperatorScan(op: string, rest: string, s: Scanner)
    requires IsOperator(op) && s.Open() && Starts(rest)
    ensures Scan(op + rest, s) == Scan(rest, s.Emit(op))
  {
  }

  /** A spaced operator after an unquoted end splits the token list. */
  lemma CompoundTokens(a: string, op: string, b: string)
    requires IsOperator(op) && Scan(a, START).Open()
    ensures Tokens(a + " " + op + " " + b) == Tokens(a) + [op] + Tokens(b)
  {
    var tail, s := " " + (op + (" " + b)), Scan(a, START);
    assert a + " " + op + " " + b == a + tail;
    StartsCutsNothing(a, tail, START);
    ScanConcat(a, tail, START);
    SpaceScan(op + (" " + b), s);
    OperatorScan(op, " " + b, s.Flush());
    SpaceScan(b, s.Flush().Emit(op));
    var after := Before(Tokens(a) + [op], START);
    assert s.Flush().Emit(op).Flush() == after by {
      assert after.tokens == Tokens(a) + [op];
    }
    TokensAfter(Tokens(a) + [op], b);
  }

  predicate PlainChar(ch: char) {
    ch != '\\' && ch != '\'' && ch != '\"' && !IsSpace(ch) && ch != '|' && ch != '&' && ch != ';'
  }

  predicate PlainWord(w: string) {
    w != "" && forall i | 0 <= i < |w| :: PlainChar(w[i])
  }

  lemma {:induction false} ScanPlain(w: string, s: Scanner)
    requires forall i | 0 <= i < |w| :: PlainChar(w[i])
    requires s.Open()
    ensures Scan(w, s) == s.(current := s.current + w)
    decreases |w|
  {
    if w == "" {
      assert s.current + w == s.current;
    } else {
      ScanPlain(w[1..], s.Append(w[0]));
      assert s.current + [w[0]] + w[1..] == s.current + w;
    }
  }

  lemma WordTokens(w: string, c: string)
    requires PlainWord(w)
    ensures Tokens(w + " " + c) == [w] + Tokens(c)
    ensures Tokens(w) == [w]
  {
    assert w + " " + c == w + (" " + c);
    StartsCutsNothing(w, " " + c, START);
    ScanConcat(w, " " + c, START);
    ScanPlain(w, START);
    var s := START.(current := w);
    assert Scan(w, START) == s by { assert START.current + w == w; }
    SpaceScan(c, s);
    assert s.Flush() == Before([w], START);
    TokensAfter([w], c);
  }

  // Any words can be typed

  /** Every character behind a backslash. */
  function Escaped(tok: string): string {
    if tok == "" then "" else ['\\', tok[0]] + Escaped(tok[1..])
  }

  lemma ScanBackslash(ch: char, rest: string, s: Scanner)
    requires s.Open()
    ensures Scan(['\\', ch] + rest, s) == Scan(rest, s.Append(ch))
  {
    var raw := ['\\', ch] + rest;
    assert raw[1..] == [ch] + rest && ([ch] + rest)[1..] == rest;
  }

  lemma EscapedSplit(tok: string, rest: string)
    requires tok != ""
    ensures Escaped(tok) + rest == ['\\', tok[0]] + (Escaped(tok[1..]) + rest)
  {
  }

  lemma AppendBoth(s: Scanner, tok: string)
    requires tok != ""
    ensures s.(current := s.current + tok) == s.(current := s.current + [tok[0]] + tok[1..])
  {
    assert s.current + [tok[0]] + tok[1..] == s.current + tok;
  }

  lemma {:induction false} ScanEscaped(tok: string, rest: string, s: Scanner)
    requires s.Open()
    ensures Scan(Escaped(tok) + rest, s) == Scan(rest, s.(current := s.current + tok))
    decreases |tok|
  {
    if tok == "" {
      assert Escaped(tok) + rest == rest && s.current + tok == s.current;
    } else {
      EscapedSplit(tok, rest);
      ScanBackslash(tok[0], Escaped(tok[1..]) + rest, s);
      ScanEscaped(tok[1..], rest, s.Append(tok[0]));
      AppendBoth(s, tok);
    }
  }

  function Text(words: seq<string>): string {
    if words == [] then "" else Escaped(words[0]) + (" " + Text(words[1..]))
  }

  /** Non-empty words, whatever they hold, are the tokens of some text. */
  lemma {:induction false} TextTokens(words: seq<string>)
    requires "" !in words
    ensures Tokens(Text(words)) == words
  {
    if words != [] {
      var w, rest := words[0], Text(words[1..]);
      ScanEscaped(w, " " + rest, START);
      assert START.current + w == w;
      SpaceScan(rest, START.(current := w));
      assert START.(current := w).Flush() == Before([w], START);
      TokensAfter([w], rest);
      TextTokens(words[1..]);
    }
  }

  lemma {:induction false} ScanKeepsWords(raw: string, s: Scanner)
    requires "" !in s.tokens
    ensures "" !in Scan(raw, s).tokens
    decreases |raw|
  {
    if raw != "" {
      var (s', n) := Step(s, raw[0], Peek(raw));
      ScanKeepsWords(raw[n..], s');
    }
  }

  lemma TokensAreWords(raw: string)
    ensures "" !in Tokens(raw)
  {
    ScanKeepsWords(raw, START);
  }

  // Quotes

  function Unquoted(s: Scanner): Scanner {
    s.(inSingle := false, inDouble := false)
  }

  /** Inside quotes nothing but the closing quote, and in double quotes the backslash, means anything. */
  predicate Inert(w: string, quote: char) {
    forall i | 0 <= i < |w| :: w[i] != quote && (quote == '\'' || w[i] != '\\')
  }

  predicate Within(s: Scanner, quote: char) {
    !s.escaped && if quote == '\'' then s.inSingle && !s.inDouble else quote == '\"' && s.inDouble && !s.inSingle
  }

  lemma InertStep(s: Scanner, quote: char, ch: char, next: Option<char>)
    requires Within(s, quote) && ch != quote && (quote == '\'' || ch != '\\')
    ensures Step(s, ch, next) == (s.Append(ch), 1)
  {
  }

  lemma ClosingStep(s: Scanner, quote: char, rest: string)
    requires Within(s, quote)
    ensures Scan([quote] + rest, s) == Scan(rest, Unquoted(s))
  {
    assert ([quote] + rest)[1..] == rest;
  }

  lemma {:induction false} ScanInert(w: string, quote: char, rest: string, s: Scanner)
    requires Within(s, quote) && Inert(w, quote)
    ensures Scan(w + ([quote] + rest), s) == Scan(rest, Unquoted(s.(current := s.current + w)))
    decreases |w|
  {
    if w == "" {
      assert w + ([quote] + rest) == [quote] + rest && s.current + w == s.current;
      ClosingStep(s, quote, rest);
    } else {
      var raw := w + ([quote] + rest);
      assert raw[0] == w[0] && raw[1..] == w[1..] + ([quote] + rest);
      InertStep(s, quote, w[0], Peek(raw));
      ScanInert(w[1..], quote, rest, s.Append(w[0]));
      AppendBoth(s, w);
    }
  }

  /** A quoted text is one word, whatever it holds: spaces, operators, and between single quotes backslashes too. */
  lemma QuotedWord(w: string, quote: char)
    requires quote == '\'' || quote == '\"'
    requires w != "" && Inert(w, quote)
    ensures Tokens([quote] + w + [quote]) == [w]
  {
    var s := if quote == '\'' then START.(inSingle := true) else START.(inDouble := true);
    var raw, behind := [quote] + w + [quote], w + ([quote] + "");
    assert raw[1..] == behind;
    assert Scan(raw, START) == Scan(behind, s);
    ScanInert(w, quote, "", s);
    assert "" + w == w && [] + [w] == [w];
  }

  // Where words end

  lemma WordScan(w: string, rest: string)
    requires PlainWord(w) && !CutsOperator(w, rest, START)
    ensures Scan(w + rest, START) == Scan(rest, START.(current := w))
  {
    ScanConcat(w, rest, START);
    ScanPlain(w, START);
    assert START.current + w == w;
  }

  lemma {:induction false} NothingDangles(w: string, s: Scanner)
    requires s.Open() && forall i | 0 <= i < |w| :: PlainChar(w[i])
    ensures !Dangling(w, s)
    decreases |w|
  {
    if |w| > 1 {
      NothingDangles(w[1..], s.Append(w[0]));
    }
  }

  /** Tabs and line ends part words as spaces do. */
  lemma SeparatorTokens(w: string, ch: char, c: string)
    requires PlainWord(w) && ch in " \t\n\r"
    ensures Tokens(w + ([ch] + c)) == [w] + Tokens(c)
  {
    NothingDangles(w, START);
    WordScan(w, [ch] + c);
    var s := START.(current := w);
    assert ([ch] + c)[1..] == c && Scan([ch] + c, s) == Scan(c, s.Flush());
    assert s.Flush() == Before([w], START);
    TokensAfter([w], c);
  }

  /** An operator needs no spaces around it. */
  lemma TightOperator(w: string, op: string, c: string)
    requires PlainWord(w) && IsOperator(op) && Starts(c)
    ensures Tokens(w + (op + c)) == [w] + [op] + Tokens(c)
  {
    NothingDangles(w, START);
    WordScan(w, op + c);
    var s := START.(current := w);
    OperatorScan(op, c, s);
    assert s.Emit(op) == Before([w] + [op], START) by { assert s.Flush() == Before([w], START); }
    TokensAfter([w] + [op], c);
  }

  /** A single ampersand is part of the word, as in `2>&1`. */
  lemma AmpersandStays(a: string, b: string)
    requires PlainWord(a) && PlainWord(b)
    ensures Tokens(a + ("&" + b)) == [a + "&" + b]
  {
    NothingDangles(a, START);
    WordScan(a, "&" + b);
    var s := START.(current := a);
    assert ("&" + b)[1..] == b && PlainChar(b[0]) && Scan("&" + b, s) == Scan(b, s.Append('&'));
    ScanPlain(b, s.Append('&'));
    assert s.Append('&').current + b == a + "&" + b && [] + [a + "&" + b] == [a + "&" + b];
  }
}
