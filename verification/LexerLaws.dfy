/** What the tokens of a line say about its text, and back: tokens tile the line, and printing them
    and lexing again gives them back (internal/recipe/lexer.go:113-197). */
module LexerLaws {
  import opened Ast
  import opened Tokens
  import opened Text
  import opened Lexer

  /** The text of a token in source form. */
  function TokenText(t: Token): string {
    if t.ty.TString? then "\"" + t.val + "\"" else t.val
  }

  predicate AllBlank(s: string) { forall i :: 0 <= i < |s| ==> IsBlank(s[i]) }

  /** Boolean values are in lower case whatever the source says. */
  predicate Spells(x: string, t: Token) {
    if t.ty.TBool? then Lower(x) == t.val else x == TokenText(t)
  }

  function Width(t: Token): nat { |TokenText(t)| }

  /** From column col on, s is the tokens at their columns with only blanks between and after them. */
  ghost predicate Tiles(s: string, toks: seq<Token>, col: int)
    decreases |toks|
  {
    if toks == [] then AllBlank(s)
    else
      var k := toks[0].col - col;
      var n := k + Width(toks[0]);
      && 0 <= k && n <= |s|
      && AllBlank(s[..k]) && Spells(s[k..n], toks[0])
      && Tiles(s[n..], toks[1..], col + n)
  }

  lemma TilesBlank(s: string, toks: seq<Token>, col: int)
    requires s != "" && IsBlank(s[0]) && Tiles(s[1..], toks, col + 1)
    ensures Tiles(s, toks, col)
  {
    hide Spells, Width;
    if toks != [] {
      var k := toks[0].col - col;
      var n := k + Width(toks[0]);
      assert s[1..][k - 1..n - 1] == s[k..n];
      assert s[1..][n - 1..] == s[n..];
      assert AllBlank(s[..k]) by {
        forall i | 0 <= i < k ensures IsBlank(s[..k][i]) {
          if i > 0 { assert s[1..][..k - 1][i - 1] == s[i]; }
        }
      }
    }
  }

  lemma QuotedSpells(s: string, line: int, col: int, i: nat)
    requires s != "" && s[0] == '"' && i + 1 < |s| && s[i + 1] == '"'
    ensures Spells(s[..i + 2], Token(TString, s[1..][..i], line, col))
    ensures i + 2 == Width(Token(TString, s[1..][..i], line, col))
  {
    assert s[..i + 2] == "\"" + s[1..][..i] + "\"";
  }

  lemma WordSpells(w: string, line: int, col: int)
    ensures Spells(w, ClassifyWord(w, line, col)) && |w| == Width(ClassifyWord(w, line, col))
  {
    hide Keyword;
    assert |Lower(w)| == |w|;
  }

  lemma WordPlace(w: string, line: int, col: int)
    ensures ClassifyWord(w, line, col).col == col && ClassifyWord(w, line, col).line == line
  {
    hide Keyword;
  }

  lemma CommaSpells(line: int, col: int)
    ensures Spells(",", Token(TComma, ",", line, col)) && 1 == Width(Token(TComma, ",", line, col))
  {
  }

  lemma FirstTokenSpells(s: string, line: int, col: int)
    requires s != "" && !IsBlank(s[0]) && FirstToken(s, line, col).Some?
    ensures var (t, n) := FirstToken(s, line, col).value;
            t.col == col && t.line == line && n == Width(t) && Spells(s[..n], t)
  {
    hide Keyword, Spells, Width, ClassifyWord;
    if s[0] == '"' {
      QuotedSpells(s, line, col, IndexOf(s[1..], '"'));
    } else if s[0] != ',' {
      WordSpells(s[..WordLength(s)], line, col);
      WordPlace(s[..WordLength(s)], line, col);
    } else {
      assert s[..1] == ",";
      CommaSpells(line, col);
    }
  }

  lemma {:induction false} TilesToken(s: string, t: Token, n: nat, rest: seq<Token>, col: int)
    requires n <= |s| && t.col == col && n == Width(t) && Spells(s[..n], t) && Tiles(s[n..], rest, col + n)
    ensures Tiles(s, [t] + rest, col)
  {
    hide Spells, Width, AllBlank;
    NothingBlank(s);
    var toks := [t] + rest;
    assert toks[1..] == rest;
    assert s[0..n] == s[..n];
  }

  lemma NothingBlank(s: string)
    ensures AllBlank(s[..0])
  {
  }

  lemma EmptyTiles(col: int)
    ensures Tiles("", [], col)
  {
  }

  /** Tokens of a line without errors tile it. */
  lemma {:induction false} LexTiles(s: string, line: int, col: int)
    requires LexWords(s, line, col).errs == []
    ensures Tiles(s, LexWords(s, line, col).tokens, col)
    ensures forall t :: t in LexWords(s, line, col).tokens ==> t.line == line
    decreases |s|
  {
    hide FirstToken, Spells, TokenText, Tiles;
    if s == "" {
      assert Tiles(s, [], col) by { EmptyTiles(col); }
    } else {
      if IsBlank(s[0]) {
        LexTiles(s[1..], line, col + 1);
        TilesBlank(s, LexWords(s, line, col).tokens, col);
      } else {
        var (t, n) := FirstToken(s, line, col).value;
        FirstTokenSpells(s, line, col);
        LexTiles(s[n..], line, col + n);
        TilesToken(s, t, n, LexWords(s[n..], line, col + n).tokens, col);
      }
    }
  }

  ghost predicate Covered(toks: seq<Token>, col: int, p: int) {
    exists i :: 0 <= i < |toks| && toks[i].col <= col + p < toks[i].col + Width(toks[i])
  }

  ghost predicate StandsAt(s: string, t: Token, col: int) {
    && 0 <= t.col - col && t.col - col + Width(t) <= |s|
    && Spells(s[t.col - col..t.col - col + Width(t)], t)
  }

  lemma StandsBehind(s: string, t: Token, col: int, n: nat)
    requires n <= |s| && StandsAt(s[n..], t, col + n)
    ensures StandsAt(s, t, col) && col + n <= t.col
  {
    hide Spells, Width;
    var k := t.col - col - n;
    assert s[n..][k..k + Width(t)] == s[k + n..k + n + Width(t)];
  }

  lemma TilesFirst(s: string, toks: seq<Token>, col: int)
    requires Tiles(s, toks, col) && toks != []
    ensures StandsAt(s, toks[0], col)
    ensures var n := toks[0].col - col + Width(toks[0]);
            0 <= n <= |s| && Tiles(s[n..], toks[1..], col + n)
  {
    hide Spells, Width, AllBlank;
  }

  lemma {:induction false} TileStands(s: string, toks: seq<Token>, col: int, i: nat)
    requires Tiles(s, toks, col) && i < |toks|
    ensures StandsAt(s, toks[i], col)
    ensures i > 0 ==> toks[0].col + Width(toks[0]) <= toks[i].col
    decreases i
  {
    hide Tiles, Width, StandsAt;
    TilesFirst(s, toks, col);
    if i > 0 {
      var n := toks[0].col - col + Width(toks[0]);
      TileStands(s[n..], toks[1..], col + n, i - 1);
      StandsBehind(s, toks[i], col, n);
    }
  }

  lemma {:induction false} TilesOrdered(s: string, toks: seq<Token>, col: int, i: nat, j: nat)
    requires Tiles(s, toks, col) && i < j < |toks|
    ensures toks[i].col + Width(toks[i]) <= toks[j].col
    decreases i
  {
    hide Tiles, Width, StandsAt;
    if i == 0 {
      TileStands(s, toks, col, j);
    } else {
      var n := toks[0].col - col + Width(toks[0]);
      TilesFirst(s, toks, col);
      TilesOrdered(s[n..], toks[1..], col + n, i - 1, j - 1);
    }
  }

  /** The same, said of positions: each token's text stands at its column, and tokens are in order and
      do not overlap. */
  lemma TilesInOrder(s: string, toks: seq<Token>, col: int)
    requires Tiles(s, toks, col)
    ensures forall i :: 0 <= i < |toks| ==> StandsAt(s, toks[i], col)
    ensures forall i, j :: 0 <= i < j < |toks| ==> toks[i].col + Width(toks[i]) <= toks[j].col
  {
    hide Tiles, Width, StandsAt;
    forall i | 0 <= i < |toks| ensures StandsAt(s, toks[i], col) {
      TileStands(s, toks, col, i);
    }
    forall i, j | 0 <= i < j < |toks| ensures toks[i].col + Width(toks[i]) <= toks[j].col {
      TilesOrdered(s, toks, col, i, j);
    }
  }

  /** What no token covers is blank. */
  lemma {:induction false} TilesCover(s: string, toks: seq<Token>, col: int, p: nat)
    requires Tiles(s, toks, col) && p < |s|
    ensures Covered(toks, col, p) || IsBlank(s[p])
    decreases |toks|
  {
    hide Spells, TokenText;
    if toks != [] {
      var k := toks[0].col - col;
      var n := k + Width(toks[0]);
      if p < k {
        assert s[..k][p] == s[p];
      } else if p < n {
        assert toks[0].col <= col + p < toks[0].col + Width(toks[0]);
      } else {
        TilesCover(s[n..], toks[1..], col + n, p - n);
        if Covered(toks[1..], col + n, p - n) {
          var i :| 0 <= i < |toks[1..]| &&
                   toks[1..][i].col <= col + n + (p - n) < toks[1..][i].col + Width(toks[1..][i]);
          assert toks[i + 1] == toks[1..][i];
        }
      }
    }
  }

  // ---- Printing and lexing again ----

  predicate Word(w: string) { w != "" && forall i :: 0 <= i < |w| ==> !IsDelimiter(w[i]) }

  /** A token that the lexer can produce within a line. */
  predicate Lexable(t: Token) {
    if t.ty.TComma? then t.val == ","
    else if t.ty.TString? then '"' !in t.val
    else Word(t.val) && ClassifyWord(t.val, t.line, t.col) == t
  }

  ghost predicate SameTokens(a: seq<Token>, b: seq<Token>) {
    |a| == |b| && forall i :: 0 <= i < |a| ==> a[i].ty == b[i].ty && a[i].val == b[i].val
  }

  function Gap(t: Token, tidy: bool): string { if tidy && t.ty.TComma? then "" else " " }

  /** Every token behind one space, except that commas may stand right behind what they follow. */
  function PrintTokens(toks: seq<Token>, tidy: bool): string {
    if toks == [] then "" else Gap(toks[0], tidy) + TokenText(toks[0]) + PrintTokens(toks[1..], tidy)
  }

  lemma WordLexable(w: string, line: int, col: int)
    requires Word(w)
    ensures Lexable(ClassifyWord(w, line, col))
    ensures !ClassifyWord(w, line, col).ty.TComma? && !ClassifyWord(w, line, col).ty.TString?
  {
    hide Keyword;
    LowerIdempotent(w);
  }

  lemma {:induction false} LexedLexable(s: string, line: int, col: int)
    ensures forall t :: t in LexWords(s, line, col).tokens ==> Lexable(t)
    decreases |s|
  {
    hide Lexable, ClassifyWord;
    if s != "" {
      if IsBlank(s[0]) {
        LexedLexable(s[1..], line, col + 1);
      } else if FirstToken(s, line, col).Some? {
        var (t, n) := FirstToken(s, line, col).value;
        LexedLexable(s[n..], line, col + n);
        FirstLexable(s, line, col);
      }
    }
  }

  lemma FirstLexable(s: string, line: int, col: int)
    requires s != "" && !IsBlank(s[0]) && FirstToken(s, line, col).Some?
    ensures Lexable(FirstToken(s, line, col).value.0)
  {
    hide Keyword, ClassifyWord;
    if s[0] == '"' {
    } else if s[0] != ',' {
      WordLexable(s[..WordLength(s)], line, col);
    }
  }

  lemma WordEnds(w: string, rest: string)
    requires Word(w) && (rest == "" || IsDelimiter(rest[0]))
    ensures WordLength(w + rest) == |w|
  {
    var s := w + rest;
    assert forall i :: 0 <= i < |w| ==> s[i] == w[i];
    assert rest != "" ==> s[|w|] == rest[0];
  }

  lemma QuoteEnds(v: string, rest: string)
    requires '"' !in v
    ensures IndexOf(v + "\"" + rest, '"') == |v|
  {
    var s := v + "\"" + rest;
    assert forall i :: 0 <= i < |v| ==> s[i] == v[i];
    assert s[|v|] == '"';
  }

  lemma FirstOfPrinted(t: Token, rest: string, line: int, col: int)
    requires Lexable(t) && (rest == "" || IsDelimiter(rest[0]))
    ensures var s := TokenText(t) + rest;
            && s != "" && !IsBlank(s[0])
            && FirstToken(s, line, col) == Some((t.(line := line, col := col), Width(t)))
  {
    hide Keyword;
    var s := TokenText(t) + rest;
    if t.ty.TComma? {
    } else if t.ty.TString? {
      assert s[1..] == t.val + "\"" + rest;
      QuoteEnds(t.val, rest);
      assert s[1..][..|t.val|] == t.val;
    } else {
      WordEnds(t.val, rest);
      assert s[..|t.val|] == t.val;
      assert !IsDelimiter(s[0]);
    }
  }

  lemma PrintStep(t: Token, rest: string, gap: string, line: int, col: int)
    requires Lexable(t) && (rest == "" || IsDelimiter(rest[0])) && (gap == "" || gap == " ")
    ensures var c := col + |gap|;
            LexWords(gap + (TokenText(t) + rest), line, col) ==
            Prepend(t.(line := line, col := c), LexWords(rest, line, c + Width(t)))
  {
    hide FirstToken, Lexable, TokenText, IsBlank, Width, IsDelimiter;
    var s := TokenText(t) + rest;
    FirstOfPrinted(t, rest, line, col + |gap|);
    TextThen(t, rest);
    GapLex(gap, s, line, col);
  }

  lemma {:induction false} SameFirst(t: Token, u: Token, a: seq<Token>, b: seq<Token>)
    requires t.ty == u.ty && t.val == u.val && SameTokens(a, b)
    ensures SameTokens([t] + a, [u] + b)
  {
  }

  /** Lexing printed tokens gives the tokens back. */
  lemma {:induction false} PrintThenLex(toks: seq<Token>, tidy: bool, line: int, col: int)
    requires forall t :: t in toks ==> Lexable(t)
    ensures LexWords(PrintTokens(toks, tidy), line, col).errs == []
    ensures SameTokens(LexWords(PrintTokens(toks, tidy), line, col).tokens, toks)
    decreases |toks|
  {
    hide FirstToken, Lexable, TokenText, IsBlank, Width, IsDelimiter, LexWords, SameTokens;
    if toks == [] {
      NothingLexed(line, col);
    } else {
      var t, rest, gap := toks[0], PrintTokens(toks[1..], tidy), Gap(toks[0], tidy);
      PrintStarts(toks[1..], tidy);
      PrintStep(t, rest, gap, line, col);
      assert PrintTokens(toks, tidy) == gap + (TokenText(t) + rest);
      var c := col + |gap| + Width(t);
      PrintThenLex(toks[1..], tidy, line, c);
      SameFirst(t.(line := line, col := col + |gap|), t, LexWords(rest, line, c).tokens, toks[1..]);
      assert [t] + toks[1..] == toks;
    }
  }

  lemma NothingLexed(line: int, col: int)
    ensures LexWords("", line, col) == Lexed([], []) && SameTokens([], [])
  {
  }

  lemma TextThen(t: Token, rest: string)
    ensures (TokenText(t) + rest)[Width(t)..] == rest
  {
  }

  lemma GapLex(gap: string, s: string, line: int, col: int)
    requires gap == "" || gap == " "
    ensures LexWords(gap + s, line, col) == LexWords(s, line, col + |gap|)
  {
    if gap == "" {
      assert gap + s == s;
    } else {
      assert (gap + s)[1..] == s;
    }
  }

  lemma PrintStarts(toks: seq<Token>, tidy: bool)
    requires forall t :: t in toks ==> Lexable(t)
    ensures PrintTokens(toks, tidy) == "" || IsDelimiter(PrintTokens(toks, tidy)[0])
  {
    if toks != [] && tidy && toks[0].ty.TComma? {
      assert toks[0] in toks && TokenText(toks[0]) == ",";
      assert ("" + "," + PrintTokens(toks[1..], tidy))[0] == ',';
    }
  }

  // ---- Whole lines ----

  /** Whether a text has visible characters, and if so whether the first is a hash. */
  function Lead(s: string): Option<bool> {
    if s == "" then None else if IsSpace(s[0]) then Lead(s[1..]) else Some(s[0] == '#')
  }

  function LeadOf(toks: seq<Token>): Option<bool> {
    if toks == [] then None else if Lead(TokenText(toks[0])).Some? then Lead(TokenText(toks[0])) else LeadOf(toks[1..])
  }

  lemma {:induction false} LeadConcat(a: string, b: string)
    ensures Lead(a + b) == if Lead(a).Some? then Lead(a) else Lead(b)
  {
    if a == "" {
      assert a + b == b;
    } else {
      assert (a + b)[1..] == a[1..] + b;
      LeadConcat(a[1..], b);
    }
  }

  lemma {:induction false} LeadTrim(s: string)
    ensures TrimSpaceLeft(s) == "" <==> Lead(s) == None
    ensures TrimSpaceLeft(s) != "" ==> Lead(s) == Some(TrimSpaceLeft(s)[0] == '#')
  {
    if s != "" { LeadTrim(s[1..]); }
  }

  lemma TrimLead(s: string)
    ensures TrimSpace(s) == "" <==> Lead(s) == None
    ensures TrimSpace(s) != "" ==> Lead(s) == Some(TrimSpace(s)[0] == '#')
  {
    LeadTrim(s);
    var l := TrimSpaceLeft(s);
    KeepsFirst(l);
  }

  lemma {:induction false} KeepsFirst(l: string)
    requires l != "" ==> !IsSpace(l[0])
    ensures TrimSpaceRight(l) == "" <==> l == ""
  {
    if l != "" && IsSpace(l[|l| - 1]) { KeepsFirst(l[..|l| - 1]); }
  }

  lemma {:induction false} SpellingLead(x: string, t: Token)
    requires Spells(x, t) && (t.ty.TBool? ==> t.val == "true" || t.val == "false")
    ensures Lead(x) == Lead(TokenText(t))
  {
    if t.ty.TBool? {
      assert LowerChar(x[0]) == t.val[0];
      assert x[0] in "tTfF";
      assert t.val[0] in "tf";
    }
  }

  lemma BoolValues(s: string, line: int, col: int)
    requires s != "" && !IsBlank(s[0]) && FirstToken(s, line, col).Some?
    ensures var t := FirstToken(s, line, col).value.0; t.ty.TBool? ==> t.val == "true" || t.val == "false"
  {
    hide Keyword;
  }

  lemma {:induction false} LexLead(s: string, line: int, col: int)
    requires LexWords(s, line, col).errs == []
    ensures Lead(s) == LeadOf(LexWords(s, line, col).tokens)
    decreases |s|
  {
    hide FirstToken, Spells, TokenText;
    if s != "" {
      if IsBlank(s[0]) {
        LexLead(s[1..], line, col + 1);
      } else {
        var (t, n) := FirstToken(s, line, col).value;
        FirstTokenSpells(s, line, col);
        BoolValues(s, line, col);
        SpellingLead(s[..n], t);
        LeadConcat(s[..n], s[n..]);
        assert s == s[..n] + s[n..];
        LexLead(s[n..], line, col + n);
        assert LexWords(s, line, col).tokens[1..] == LexWords(s[n..], line, col + n).tokens;
      }
    }
  }

  lemma NothingLeads()
    ensures Lead("") == None && Lead(" ") == None
  {
  }

  lemma {:induction false} PrintLead(toks: seq<Token>, tidy: bool)
    ensures Lead(PrintTokens(toks, tidy)) == LeadOf(toks)
  {
    hide TokenText, Lead;
    if toks == [] {
      NothingLeads();
    } else {
      PrintLead(toks[1..], tidy);
      var gap, text, rest := Gap(toks[0], tidy), TokenText(toks[0]), PrintTokens(toks[1..], tidy);
      assert PrintTokens(toks, tidy) == gap + (text + rest);
      LeadConcat(text, rest);
      LeadConcat(gap, text + rest);
      NothingLeads();
    }
  }

  /** A line that is neither empty, nor a comment, nor a header. */
  predicate IsDirective(line: string) {
    TrimSpace(line) != "" && TrimSpace(line)[0] != '#' && !IsHeader(line)
  }

  /** The tokens of an error-free directive line tile it: increasing columns, no overlap, the token's
      text at its column, and nothing but blanks elsewhere. */
  lemma DirectiveTiles(line: string, n: int)
    requires IsDirective(line) && LexLine(line, n).errs == []
    ensures Tiles(line, LexLine(line, n).tokens, 1) && LexLine(line, n).tokens != []
    ensures forall i, j :: 0 <= i < j < |LexLine(line, n).tokens| ==>
              LexLine(line, n).tokens[i].col + Width(LexLine(line, n).tokens[i]) <= LexLine(line, n).tokens[j].col
    ensures forall p: nat :: p < |line| ==> Covered(LexLine(line, n).tokens, 1, p) || IsBlank(line[p])
  {
    hide LexWords, Tiles, Covered, IsBlank, Width;
    LexTiles(line, n, 1);
    LexLead(line, n, 1);
    TrimLead(line);
    var toks := LexLine(line, n).tokens;
    TilesInOrder(line, toks, 1);
    forall p: nat | p < |line| ensures Covered(toks, 1, p) || IsBlank(line[p]) {
      TilesCover(line, toks, 1, p);
    }
  }

  /** Printing tokens on an indented line and lexing that gives the same types and values. */
  lemma PrintedLine(toks: seq<Token>, tidy: bool, indent: string, m: int)
    requires (forall t :: t in toks ==> Lexable(t)) && LeadOf(toks) == Some(false) && AllBlank(indent)
    requires indent != "" || !(tidy && toks[0].ty.TComma?)
    ensures var line := indent + PrintTokens(toks, tidy);
            IsDirective(line) && LexLine(line, m).errs == [] && SameTokens(LexLine(line, m).tokens, toks)
  {
    hide LexWords, Lexable;
    var printed := PrintTokens(toks, tidy);
    PrintLead(toks, tidy);
    LeadConcat(indent, printed);
    BlankLead(indent);
    TrimLead(indent + printed);
    assert IsBlank((indent + printed)[0]);
    IndentedLex(indent, printed, m, 1);
    PrintThenLex(toks, tidy, m, 1 + |indent|);
  }

  /** So it does for the tokens of any directive line without errors. */
  lemma DirectiveRoundTrip(line: string, n: int, indent: string, m: int)
    requires IsDirective(line) && LexLine(line, n).errs == [] && AllBlank(indent)
    ensures var toks := LexLine(line, n).tokens;
            var again := LexLine(indent + PrintTokens(toks, false), m);
            IsDirective(indent + PrintTokens(toks, false)) && again.errs == [] && SameTokens(again.tokens, toks)
  {
    hide LexWords, Lexable;
    LexedLexable(line, n, 1);
    LexLead(line, n, 1);
    TrimLead(line);
    PrintedLine(LexLine(line, n).tokens, false, indent, m);
  }

  lemma {:induction false} BlankLead(indent: string)
    requires AllBlank(indent)
    ensures Lead(indent) == None
  {
    if indent != "" {
      assert IsBlank(indent[0]);
      forall i | 0 <= i < |indent[1..]| ensures IsBlank(indent[1..][i]) {
        assert indent[1..][i] == indent[i + 1];
      }
      BlankLead(indent[1..]);
    }
  }

  lemma {:induction false} IndentedLex(indent: string, s: string, line: int, col: int)
    requires AllBlank(indent)
    ensures LexWords(indent + s, line, col) == LexWords(s, line, col + |indent|)
    decreases |indent|
  {
    if indent == "" {
      assert indent + s == s;
    } else {
      assert IsBlank(indent[0]);
      assert (indent + s)[1..] == indent[1..] + s;
      forall i | 0 <= i < |indent[1..]| ensures IsBlank(indent[1..][i]) {
        assert indent[1..][i] == indent[i + 1];
      }
      IndentedLex(indent[1..], s, line, col + 1);
    }
  }
}
