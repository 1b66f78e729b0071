/** The lexer (internal/recipe/lexer.go). The specification reads a line from the left, as a function of
    the text still unread; the methods walk over positions as the source does. */
module Lexer {
  import opened Ast
  import opened Tokens
  import opened Text

  // ---- Words of a line ----

  predicate IsBlank(c: char) { c == ' ' || c == '\t' }

  predicate IsDelimiter(c: char) { IsBlank(c) || c == ',' || c == '"' }

  predicate IsInteger(w: string) { w != "" && AllDigits(w) }

  function ClassifyWord(w: string, line: int, col: int): Token {
    var lowered := Lower(w);
    match Keyword(lowered)
    case Some(ty) => Token(ty, w, line, col)
    case None =>
      if lowered == "true" || lowered == "false" then Token(TBool, lowered, line, col)
      else if IsInteger(w) then Token(TNumber, w, line, col)
      else Token(TIdent, w, line, col)
  }

  /** Length of the word that a text begins with. */
  function WordLength(s: string): (n: nat)
    ensures n <= |s|
    ensures forall i :: 0 <= i < n ==> !IsDelimiter(s[i])
    ensures n < |s| ==> IsDelimiter(s[n])
  {
    if s == "" || IsDelimiter(s[0]) then 0 else 1 + WordLength(s[1..])
  }

  datatype Lexed = Lexed(tokens: seq<Token>, errs: seq<ParseError>)

  function Prepend(t: Token, l: Lexed): Lexed { Lexed([t] + l.tokens, l.errs) }

  /** The token that s begins with and how much of s it takes; none for an unterminated string. */
  function FirstToken(s: string, line: int, col: int): (r: Option<(Token, nat)>)
    requires s != "" && !IsBlank(s[0])
    ensures r.Some? ==> 0 < r.value.1 <= |s|
  {
    if s[0] == ',' then Some((Token(TComma, ",", line, col), 1))
    else if s[0] == '"' then
      var i := IndexOf(s[1..], '"');
      if i == |s| - 1 then None else Some((Token(TString, s[1..][..i], line, col), i + 2))
    else Some((ClassifyWord(s[..WordLength(s)], line, col), WordLength(s)))
  }

  /** The tokens of the rest s of a line, which starts at column col. */
  function LexWords(s: string, line: int, col: int): Lexed
    decreases |s|
  {
    if s == "" then Lexed([], [])
    else if IsBlank(s[0]) then LexWords(s[1..], line, col + 1)
    else match FirstToken(s, line, col)
      case None => Lexed([], [ParseError(line, col, "unterminated string literal")])
      case Some((t, n)) => Prepend(t, LexWords(s[n..], line, col + n))
  }

  // ---- Lines ----

  /** The label of a header line: a first word that ends in a colon, at column one. */
  predicate IsHeader(line: string) {
    var trimmed := TrimSpace(line);
    var colon := IndexOf(trimmed, ':');
    && line != "" && !IsBlank(line[0])
    && 0 < colon < |trimmed|
    && forall i :: 0 <= i < colon ==> !IsBlank(trimmed[i])
  }

  function HeaderTokens(trimmed: string, line: int): seq<Token>
    requires IndexOf(trimmed, ':') < |trimmed|
  {
    var colon := IndexOf(trimmed, ':');
    var name := TrimSpace(trimmed[..colon]);
    var rest := TrimSpace(trimmed[colon + 1..]);
    var lowered := Lower(name);
    var value := if rest == "" then [] else [Token(TIdent, rest, line, colon + 3)];
    if lowered == "app" then [Token(TApp, name, line, 1)] + value
    else if lowered == "namespace" then [Token(TNamespace, name, line, 1)] + value
    else if lowered == "images" then [Token(TImages, name, line, 1)]
    else if lowered == "crds" then [Token(TCRDs, name, line, 1)]
    else [Token(TSectionHeader, name, line, 1)]
  }

  function LexLine(line: string, n: int): Lexed {
    var trimmed := TrimSpace(line);
    if trimmed == "" then Lexed([], [])
    else if trimmed[0] == '#' then Lexed([Token(TComment, trimmed, n, IndexOf(line, '#') + 1)], [])
    else if IsHeader(line) then Lexed(HeaderTokens(trimmed, n), [])
    else LexWords(line, n, 1)
  }

  function Join(a: Lexed, b: Lexed): Lexed { Lexed(a.tokens + b.tokens, a.errs + b.errs) }

  /** Tokens of numbered lines, with a newline token between lines and an end token after the last. */
  function LexLines(lines: seq<string>, first: int): Lexed
    requires lines != []
  {
    var l := LexLine(lines[0], first);
    if |lines| == 1 then Join(l, Lexed([Token(TEOF, "", first, 1)], []))
    else Join(Join(l, Lexed([Token(TNewline, "\n", first, |lines[0]| + 1)], [])), LexLines(lines[1..], first + 1))
  }

  function Lex(source: string): Lexed { LexLines(SplitLines(source), 1) }

  // ---- The lexer's loops ----

  method ScanWord(line: string, lineNum: int, start: nat) returns (t: Token, end: nat)
    requires start <= |line|
    ensures end == start + WordLength(line[start..])
    ensures t == ClassifyWord(line[start..end], lineNum, start + 1)
  {
    var pos := start;
    while pos < |line| && !IsDelimiter(line[pos])
      invariant start <= pos <= |line|
      invariant WordLength(line[start..]) == pos - start + WordLength(line[pos..])
    {
      assert line[pos..][1..] == line[pos + 1..];
      pos := pos + 1;
    }
    end := pos;
    t := ClassifyWord(line[start..pos], lineNum, start + 1);
  }

  method ScanString(line: string, lineNum: int, pos: nat) returns (r: Option<(Token, nat)>)
    requires pos < |line| && line[pos] == '"'
    ensures r == match FirstToken(line[pos..], lineNum, pos + 1)
                 case None => None
                 case Some((t, n)) => Some((t, pos + n))
  {
    hide IndexOf, ClassifyWord, WordLength, IsBlank;
    assert line[pos..][1..] == line[pos + 1..];
    var end := IndexOf(line[pos + 1..], '"');
    if end == |line| - pos - 1 { return None; }
    var closePos := pos + 1 + end;
    assert line[pos + 1..closePos] == line[pos + 1..][..end];
    return Some((Token(TString, line[pos + 1..closePos], lineNum, pos + 1), closePos + 1));
  }

  method ScanToken(line: string, lineNum: int, pos: nat) returns (r: Option<(Token, nat)>)
    requires pos < |line| && !IsBlank(line[pos])
    ensures r == match FirstToken(line[pos..], lineNum, pos + 1)
                 case None => None
                 case Some((t, n)) => Some((t, pos + n))
  {
    hide IndexOf, ClassifyWord, WordLength;
    if line[pos] == ',' {
      r := Some((Token(TComma, ",", lineNum, pos + 1), pos + 1));
    } else if line[pos] == '"' {
      r := ScanString(line, lineNum, pos);
    } else {
      var t, end := ScanWord(line, lineNum, pos);
      assert line[pos..end] == line[pos..][..end - pos];
      r := Some((t, end));
    }
  }

  method TokenizeWords(line: string, lineNum: int) returns (l: Lexed)
    ensures l == LexWords(line, lineNum, 1)
  {
    hide FirstToken;
    var tokens: seq<Token>, errs: seq<ParseError> := [], [];
    var pos := 0;
    assert line[0..] == line;
    while pos < |line|
      invariant 0 <= pos <= |line|
      invariant Join(Lexed(tokens, errs), LexWords(line[pos..], lineNum, pos + 1)) == LexWords(line, lineNum, 1)
    {
      if line[pos] == ' ' || line[pos] == '\t' {
        assert line[pos..][1..] == line[pos + 1..];
        pos := pos + 1;
        continue;
      }
      var r := ScanToken(line, lineNum, pos);
      match r {
        case None =>
          errs := errs + [ParseError(lineNum, pos + 1, "unterminated string literal")];
          pos := |line|;
        case Some((t, next)) =>
          assert line[pos..][next - pos..] == line[next..];
          tokens := tokens + [t];
          pos := next;
      }
    }
    assert Join(Lexed(tokens, errs), Lexed([], [])) == Lexed(tokens, errs);
    l := Lexed(tokens, errs);
  }

  method TokenizeLine(line: string, lineNum: int) returns (l: Lexed)
    ensures l == LexLine(line, lineNum)
  {
    var trimmed := TrimSpace(line);
    if trimmed == "" { return Lexed([], []); }
    if "#" <= trimmed {
      return Lexed([Token(TComment, trimmed, lineNum, IndexOf(line, '#') + 1)], []);
    }
    if IsHeader(line) {
      return Lexed(HeaderTokens(trimmed, lineNum), []);
    }
    l := TokenizeWords(line, lineNum);
  }

  method Tokenize(source: string) returns (l: Lexed)
    ensures l == Lex(source)
  {
    hide LexLine, SplitLines;
    var lines := SplitLines(source);
    l := Lexed([], []);
    for i := 0 to |lines|
      invariant i < |lines| ==> Join(l, LexLines(lines[i..], i + 1)) == Lex(source)
      invariant i == |lines| ==> Join(l, Lexed([Token(TEOF, "", |lines|, 1)], [])) == Lex(source)
    {
      var one := TokenizeLine(lines[i], i + 1);
      l := Join(l, one);
      assert lines[i..][1..] == lines[i + 1..];
      if i < |lines| - 1 {
        l := Join(l, Lexed([Token(TNewline, "\n", i + 1, |lines[i]| + 1)], []));
      }
    }
    l := Join(l, Lexed([Token(TEOF, "", |lines|, 1)], []));
  }
}
