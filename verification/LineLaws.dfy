/** What a written line makes of the slice of its section when it is lexed and parsed
    (internal/recipe/lexer.go, internal/recipe/parser.go:187-273). */
module LineLaws {
  import opened Ast
  import opened Tokens
  import opened Lexer
  import opened LexerLaws
  import opened Edits
  import opened Directives
  import opened Sections
  import I = ImportLines
  import P = Phrases

  /** As the n-th line of a section: no complaints, nothing left over, and f of the slice. */
  ghost predicate MakesAt(line: string, n: int, nl: Token, f: Slice -> Slice) {
    var toks := LexLine(line, n).tokens + [nl];
    && LexLine(line, n).errs == [] && Lines(toks)
    && Section(toks, false).rest == [] && Section(toks, false).errs == [] && !Section(toks, false).init
    && forall s :: Meaning(s, Section(toks, false)) == f(s)
  }

  /** Wherever the line stands, the slice s becomes f(s). */
  ghost predicate Makes(line: string, f: Slice -> Slice) {
    '\n' !in line && forall n, nl: Token :: nl.ty.TNewline? ==> MakesAt(line, n, nl, f)
  }

  // ---- Pieces as tokens ----

  function TokOf(p: P.Piece): Token {
    match p case Word(w) => I.Tok(w) case Quote(v) => I.Str(v) case Comma => I.COMMA
  }

  function ToksOf(ps: seq<P.Piece>): seq<Token> {
    seq(|ps|, i requires 0 <= i < |ps| => TokOf(ps[i]))
  }

  /** A text in quotes, on one line. */
  predicate Quotable(v: string) { '"' !in v && '\n' !in v }

  ghost predicate PieceOk(p: P.Piece) {
    match p
    case Word(w) => I.Plain(w) && !I.Tok(w).ty.TBool?
    case Quote(v) => Quotable(v)
    case Comma => true
  }

  ghost predicate PiecesOk(ps: seq<P.Piece>) { forall i :: 0 <= i < |ps| ==> PieceOk(ps[i]) }

  /** A word that is no keyword, or a quoted text. */
  ghost predicate NameOk(p: P.Piece) { PieceOk(p) && (TokOf(p).ty.TIdent? || TokOf(p).ty.TString?) }

  /** A word that is no keyword, or a number. */
  ghost predicate AmountOk(p: P.Piece) { PieceOk(p) && (TokOf(p).ty.TIdent? || TokOf(p).ty.TNumber?) }

  ghost predicate ValueOk(p: P.Piece) { NameOk(p) || AmountOk(p) }

  lemma PieceTok(p: P.Piece)
    requires PieceOk(p)
    ensures Lexable(TokOf(p)) && TokOf(p).val == P.Val(p)
    ensures Gap(TokOf(p), true) + TokenText(TokOf(p)) == P.PieceText(p)
    ensures '\n' !in P.PieceText(p)
  {
    hide Keyword;
    match p {
      case Word(w) => I.PlainTok(w);
      case Quote(v) => assert " " + ("\"" + v + "\"") == " \"" + v + "\"";
      case Comma =>
    }
  }

  lemma {:induction false} PiecesPrinted(ps: seq<P.Piece>)
    requires PiecesOk(ps)
    ensures PrintTokens(ToksOf(ps), true) == P.PiecesText(ps) && '\n' !in P.PiecesText(ps)
  {
    hide PieceOk, TokOf, TokenText, Gap, P.PieceText;
    if ps != [] {
      PieceTok(ps[0]);
      PiecesPrinted(ps[1..]);
      assert ToksOf(ps)[1..] == ToksOf(ps[1..]);
    }
  }

  /** What any tokens of these types and values come to as a directive. */
  ghost predicate Understood(ps: seq<P.Piece>, edits: seq<Edit>)
    requires ps != [] && PiecesOk(ps)
  {
    forall s, nl: Token :: SameTokens(s, ToksOf(ps)) && nl.ty.TNewline? ==> Comes(s, nl, edits)
  }

  ghost predicate Comes(s: seq<Token>, nl: Token, edits: seq<Edit>) {
    s != [] && !Boundary(s[0].ty) && Directive(Rest(s, nl, [], [])) == Rest([], nl, edits, [])
  }

  /** A line that begins with a word of letters. */
  ghost predicate Begins(ps: seq<P.Piece>) {
    ps != [] && ps[0].Word? && ps[0].w != "" && 'a' <= ps[0].w[0] <= 'z'
  }

  lemma LineComes(ps: seq<P.Piece>, edits: seq<Edit>)
    requires PiecesOk(ps) && Begins(ps) && !OpensBlock(Rest(ToksOf(ps), END, [], [])) && Understood(ps, edits)
    ensures I.LineMeans(P.LineText(ps), edits)
  {
    hide PieceOk, OpensBlock, I.LineMeans, Structural, TokOf, Lexable, I.Reads;
    var toks := ToksOf(ps);
    PiecesPrinted(ps);
    forall t | t in toks ensures Lexable(t) {
      var i :| 0 <= i < |toks| && toks[i] == t;
      PieceTok(ps[i]);
    }
    FirstWord(ps);
    assert I.Reads(toks, edits) by { AsReads(ps, edits); }
    assert I.Printed(toks) == P.LineText(ps);
    I.DirectiveLine(P.LineText(ps), toks, edits);
  }

  lemma AsReads(ps: seq<P.Piece>, edits: seq<Edit>)
    requires PiecesOk(ps) && ps != [] && !Structural(ToksOf(ps)[0].ty) && Understood(ps, edits)
    ensures I.Reads(ToksOf(ps), edits)
  {
    hide Directive, PieceOk, TokOf, Structural, Boundary;
    forall s: seq<Token>, nl: Token | SameTokens(s, ToksOf(ps)) && nl.ty.TNewline?
      ensures s != [] && !Boundary(s[0].ty) && Directive(Rest(s, nl, [], [])) == Rest([], nl, edits, [])
    {
      assert Comes(s, nl, edits);
    }
  }

  lemma FirstWord(ps: seq<P.Piece>)
    requires PiecesOk(ps) && Begins(ps)
    ensures LeadOf(ToksOf(ps)) == Some(false) && !Structural(ToksOf(ps)[0].ty)
  {
    hide Keyword;
    I.PlainTok(ps[0].w);
    I.LexableInline(TokOf(ps[0]));
  }

  /** From what is assigned to what becomes of the slice. */
  lemma LineMakes(ps: seq<P.Piece>, edits: seq<Edit>, f: Slice -> Slice)
    requires PiecesOk(ps) && Begins(ps) && !OpensBlock(Rest(ToksOf(ps), END, [], [])) && Understood(ps, edits)
    requires forall s :: ApplyAll(s, edits) == f(s)
    ensures Makes(P.LineText(ps), f)
  {
    hide PiecesOk, OpensBlock, Understood, ToksOf, ApplyAll, P.LineText, Begins, LexLine, Section, Lines;
    LineComes(ps, edits);
    var line := P.LineText(ps);
    forall n, nl: Token | nl.ty.TNewline? ensures MakesAt(line, n, nl, f) {
      assert I.LineReads(line, n, nl, edits);
    }
  }

  lemma Apply1(s: Slice, e: Edit)
    ensures ApplyAll(s, [e]) == Apply(s, e)
  {
    hide Apply;
    assert [e][..0] == [];
  }

  lemma Apply2(s: Slice, e: Edit, d: Edit)
    ensures ApplyAll(s, [e, d]) == Apply(Apply(s, e), d)
  {
    hide Apply;
    assert [e, d][..1] == [e];
    Apply1(s, e);
  }

  lemma Apply3(s: Slice, e: Edit, d: Edit, c: Edit)
    ensures ApplyAll(s, [e, d, c]) == Apply(Apply(Apply(s, e), d), c)
  {
    hide Apply;
    assert [e, d, c][..2] == [e, d];
    Apply2(s, e, d);
  }
}
